/** The stock ledger's FEFO (first expire, first out) deduction for one sale line:
    which batches of a medicine the line draws from, in which order, and what is
    left in them. The controller performs it in InvoiceController.DeductStock,
    whose loop is InvoiceController.DrainStocks; this module gives its
    specification and what that specification guarantees. */
module Fefo {
  import opened Common
  import opened Sorting
  import opened Tables

  /** Where the database puts rows without an expiry date under
      `ORDER BY expiry_date ASC`: the query leaves it to the database engine. */
  datatype NullOrder = NullsFirst | NullsLast

  function ExpiryKey(e: Option<int>, nulls: NullOrder): Key {
    match e
    case Some(d) => Key(if nulls == NullsFirst then 1 else 0, d)
    case None => Key(if nulls == NullsFirst then 0 else 1, 0)
  }

  /** Expiry `a` comes strictly before expiry `b` in ascending order with the given null placement. */
  predicate ExpiresBefore(a: Option<int>, b: Option<int>, nulls: NullOrder) {
    match (a, b)
    case (Some(x), Some(y)) => x < y
    case (Some(_), None) => nulls == NullsLast
    case (None, Some(_)) => nulls == NullsFirst
    case (None, None) => false
  }

  /** The sort key of row `i` of `bs`. */
  function BatchKey(bs: seq<Batch>, nulls: NullOrder): nat -> Key {
    (i: nat) => if i < |bs| then ExpiryKey(bs[i].expiry, nulls) else Key(0, 0)
  }

  /** The `quantity` column of row `i` of `bs`. */
  function QtyAt(bs: seq<Batch>): nat -> int {
    (i: nat) => if i < |bs| then bs[i].quantity else 0
  }

  /** The total quantity of the rows at positions `s`. */
  function SumQty(bs: seq<Batch>, s: seq<nat>): int {
    if s == [] then 0 else (if s[0] < |bs| then bs[s[0]].quantity else 0) + SumQty(bs, s[1..])
  }

  lemma {:induction false} SumQtyIsSumOf(bs: seq<Batch>, s: seq<nat>)
    ensures SumQty(bs, s) == SumOf(s, QtyAt(bs))
  {
    if s != [] {
      SumQtyIsSumOf(bs, s[1..]);
    }
  }

  lemma {:induction false} SumQtyConcat(bs: seq<Batch>, a: seq<nat>, b: seq<nat>)
    ensures SumQty(bs, a + b) == SumQty(bs, a) + SumQty(bs, b)
  {
    if a == [] {
      assert a + b == b;
    } else {
      assert (a + b)[1..] == a[1..] + b;
      SumQtyConcat(bs, a[1..], b);
    }
  }

  /** A row the sale query returns for medicine `m`. */
  predicate Eligible(b: Batch, m: nat) {
    b.medicineId == m && b.quantity > 0
  }

  function EligibleFrom(bs: seq<Batch>, m: nat, i: nat): (r: seq<nat>)
    requires i <= |bs|
    ensures forall j: nat :: j in r <==> i <= j < |bs| && Eligible(bs[j], m)
    ensures Ascending(r)
    decreases |bs| - i
  {
    if i == |bs| then []
    else
      var rest := EligibleFrom(bs, m, i + 1);
      if Eligible(bs[i], m) then
        assert forall j :: j in [i] + rest <==> j == i || j in rest;
        assert forall t :: 0 <= t < |rest| ==> rest[t] in rest;
        [i] + rest
      else rest
  }

  /** `where('medicine_id', m)->where('quantity', '>', 0)`, as row positions in table order. */
  function EligibleRows(bs: seq<Batch>, m: nat): seq<nat>
  {
    EligibleFrom(bs, m, 0)
  }

  /** `$stocks->sum('quantity')`: what the sale query says is available. */
  function AvailableQty(bs: seq<Batch>, m: nat): int {
    SumQty(bs, EligibleRows(bs, m))
  }

  /** The sale query with `orderBy('expiry_date', 'asc')`, as row positions. Ties
      the query leaves open are settled by the total order: null placement, then
      expiry date, then table position. */
  function FefoOrder(bs: seq<Batch>, m: nat, nulls: NullOrder): (r: seq<nat>)
    ensures forall j: nat :: j in r <==> j < |bs| && Eligible(bs[j], m)
    ensures forall t :: 0 <= t < |r| ==> r[t] < |bs| && Eligible(bs[r[t]], m)
  {
    var e := EligibleRows(bs, m);
    SortByElems(e, BatchKey(bs, nulls));
    var r := SortBy(e, BatchKey(bs, nulls));
    assert forall t :: 0 <= t < |r| ==> r[t] in r;
    r
  }

  /** The listing holds every row the query selects, once each, in the stated
      total order, and sums to what is available. */
  lemma FefoOrderListsEligible(bs: seq<Batch>, m: nat, nulls: NullOrder)
    ensures RankedBy(FefoOrder(bs, m, nulls), BatchKey(bs, nulls))
    ensures Distinct(FefoOrder(bs, m, nulls))
    ensures SumQty(bs, FefoOrder(bs, m, nulls)) == AvailableQty(bs, m)
  {
    var e := EligibleRows(bs, m);
    var key := BatchKey(bs, nulls);
    var r := FefoOrder(bs, m, nulls);
    SortByElems(e, key);
    SortByRanked(e, key);
    RankedDistinct(r, key);
    SortBySum(e, key, QtyAt(bs));
    SumQtyIsSumOf(bs, e);
    SumQtyIsSumOf(bs, r);
  }

  /** Drawing `need` units from the rows listed in `order`, in that order: every
      row but the last one touched is emptied, the last is cut by what is still
      needed, and the loop stops as soon as nothing is needed. */
  function Drain(bs: seq<Batch>, order: seq<nat>, need: int): (r: seq<Batch>)
    requires forall t :: 0 <= t < |order| ==> order[t] < |bs|
    ensures |r| == |bs|
    decreases |order|
  {
    if order == [] || need <= 0 then bs
    else
      var j := order[0];
      var q := bs[j].quantity;
      if q >= need then bs[j := bs[j].(quantity := q - need)]
      else Drain(bs[j := bs[j].(quantity := 0)], order[1..], need - q)
  }

  /** A drain changes nothing but quantities, and only in the rows it lists. */
  lemma {:induction false} DrainFrame(bs: seq<Batch>, order: seq<nat>, need: int)
    requires forall t :: 0 <= t < |order| ==> order[t] < |bs|
    ensures forall i :: 0 <= i < |bs| ==> SameRow(Drain(bs, order, need)[i], bs[i])
    ensures forall i :: 0 <= i < |bs| && i !in order ==> Drain(bs, order, need)[i] == bs[i]
    decreases |order|
  {
    if order != [] && need > 0 {
      var j := order[0];
      var q := bs[j].quantity;
      if q < need {
        DrainFrame(bs[j := bs[j].(quantity := 0)], order[1..], need - q);
        assert forall i :: i in order[1..] ==> i in order;
      }
    }
  }

  /** One pass of the deduction loop: the first listed row is emptied or cut, and
      the rest of the drain proceeds from there. */
  lemma DrainStep(bs: seq<Batch>, order: seq<nat>, need: int, b: Batch, rest: int)
    requires forall t :: 0 <= t < |order| ==> order[t] < |bs|
    requires order != [] && need > 0
    requires b == bs[order[0]].(quantity := if bs[order[0]].quantity >= need then bs[order[0]].quantity - need else 0)
    requires rest == if bs[order[0]].quantity >= need then 0 else need - bs[order[0]].quantity
    ensures Drain(bs, order, need) == Drain(bs[order[0] := b], order[1..], rest)
  {
  }

  /** One sale line's stock deduction: None when the listed rows hold less than
      `need` (the line throws), otherwise the table after draining them. */
  function Deduction(bs: seq<Batch>, m: nat, need: int, nulls: NullOrder): Option<seq<Batch>> {
    var order := FefoOrder(bs, m, nulls);
    if SumQty(bs, order) < need then None else Some(Drain(bs, order, need))
  }

  lemma {:induction false} AvailableFrom(bs: seq<Batch>, m: nat, i: nat)
    requires NonNegative(bs) && i <= |bs|
    ensures SumQty(bs, EligibleFrom(bs, m, i)) == StockFrom(bs, m, i)
    decreases |bs| - i
  {
    if i < |bs| {
      AvailableFrom(bs, m, i + 1);
      var rest := EligibleFrom(bs, m, i + 1);
      if Eligible(bs[i], m) {
        assert EligibleFrom(bs, m, i) == [i] + rest;
        SumQtyConcat(bs, [i], rest);
      } else {
        assert EligibleFrom(bs, m, i) == rest;
        assert Share(bs[i], m) == 0;
      }
    }
  }

  /** The sum over positive-quantity rows is the medicine's whole stock, since no row is negative. */
  lemma AvailableIsStock(bs: seq<Batch>, m: nat)
    requires NonNegative(bs)
    ensures AvailableQty(bs, m) == StockOf(bs, m)
  {
    AvailableFrom(bs, m, 0);
  }

  lemma {:induction false} SumOfUnlisted(bs: seq<Batch>, s: seq<nat>, j: nat, b: Batch)
    requires j < |bs| && j !in s
    ensures SumQty(bs[j := b], s) == SumQty(bs, s)
  {
    if s != [] {
      SumOfUnlisted(bs, s[1..], j, b);
    }
  }

  lemma {:induction false} DrainNonNegative(bs: seq<Batch>, order: seq<nat>, need: int)
    requires forall t :: 0 <= t < |order| ==> order[t] < |bs|
    requires NonNegative(bs)
    ensures NonNegative(Drain(bs, order, need))
    decreases |order|
  {
    if order != [] && need > 0 {
      var j := order[0];
      var q := bs[j].quantity;
      if q < need {
        DrainNonNegative(bs[j := bs[j].(quantity := 0)], order[1..], need - q);
      }
    }
  }

  /** No row gains quantity from a drain. */
  lemma {:induction false} DrainNeverGrows(bs: seq<Batch>, order: seq<nat>, need: int)
    requires forall t :: 0 <= t < |order| ==> order[t] < |bs|
    requires NonNegative(bs)
    ensures forall i :: 0 <= i < |bs| ==> Drain(bs, order, need)[i].quantity <= bs[i].quantity
    decreases |order|
  {
    if order != [] && need > 0 {
      var j := order[0];
      var q := bs[j].quantity;
      if q < need {
        DrainNeverGrows(bs[j := bs[j].(quantity := 0)], order[1..], need - q);
      }
    }
  }

  /** The listed rows lose exactly `need` units between them, and so does the medicine's stock. */
  lemma {:induction false} DrainRemovesNeed(bs: seq<Batch>, order: seq<nat>, need: int, m: nat)
    requires forall t :: 0 <= t < |order| ==> order[t] < |bs| && bs[order[t]].medicineId == m
    requires Distinct(order)
    requires 0 < need <= SumQty(bs, order)
    ensures SumQty(bs, order) - SumQty(Drain(bs, order, need), order) == need
    ensures StockOf(Drain(bs, order, need), m) == StockOf(bs, m) - need
    decreases |order|
  {
    var j := order[0];
    var q := bs[j].quantity;
    var r := Drain(bs, order, need);
    assert j !in order[1..];
    if q >= need {
      var b := bs[j].(quantity := q - need);
      SumOfUnlisted(bs, order[1..], j, b);
      StockOfUpdate(bs, j, b, m);
    } else {
      var b := bs[j].(quantity := 0);
      var bs' := bs[j := b];
      SumOfUnlisted(bs, order[1..], j, b);
      StockOfUpdate(bs, j, b, m);
      DrainRemovesNeed(bs', order[1..], need - q, m);
      DrainFrame(bs', order[1..], need - q);
      assert r == Drain(bs', order[1..], need - q);
      assert r[j] == b;
    }
  }

  /** The position along `order` of the last row a drain touches: the first
      position where the rows listed so far cover `need`. */
  function CutPoint(bs: seq<Batch>, order: seq<nat>, need: int): nat
    requires forall t :: 0 <= t < |order| ==> order[t] < |bs|
    decreases |order|
  {
    if order == [] || need <= 0 then 0
    else
      var j := order[0];
      var q := bs[j].quantity;
      if q >= need then 0
      else 1 + CutPoint(bs[j := bs[j].(quantity := 0)], order[1..], need - q)
  }

  /** The FEFO shape: along `order`, rows before position `k` are emptied, row
      `order[k]` is cut by what the earlier rows could not cover, and every row
      after it is untouched. */
  ghost predicate DrainedUpTo(bs: seq<Batch>, r: seq<Batch>, order: seq<nat>, need: int, k: nat)
    requires |r| == |bs|
    requires forall t :: 0 <= t < |order| ==> order[t] < |bs|
  {
    && k < |order|
    && (forall t :: 0 <= t < k ==> r[order[t]].quantity == 0)
    && 0 < need - SumQty(bs, order[..k]) <= bs[order[k]].quantity
    && r[order[k]].quantity == bs[order[k]].quantity - (need - SumQty(bs, order[..k]))
    && (forall t :: k < t < |order| ==> r[order[t]] == bs[order[t]])
  }

  lemma {:induction false} DrainEmptiesBeforeCut(bs: seq<Batch>, order: seq<nat>, need: int)
    requires forall t :: 0 <= t < |order| ==> order[t] < |bs|
    requires Distinct(order)
    ensures forall t :: 0 <= t < CutPoint(bs, order, need) && t < |order| ==>
      Drain(bs, order, need)[order[t]].quantity == 0
    decreases |order|
  {
    if order != [] && need > 0 && bs[order[0]].quantity < need {
      var j := order[0];
      var q := bs[j].quantity;
      var b := bs[j].(quantity := 0);
      var tail := order[1..];
      var r := Drain(bs, order, need);
      DrainEmptiesBeforeCut(bs[j := b], tail, need - q);
      DrainFrame(bs[j := b], tail, need - q);
      assert j !in tail;
      forall t | 0 <= t < CutPoint(bs, order, need) && t < |order| ensures r[order[t]].quantity == 0 {
        if t > 0 {
          assert order[t] == tail[t - 1];
        }
      }
    }
  }

  /** A row listed after the cut point is left as it was. */
  lemma {:induction false} DrainKeepsRow(bs: seq<Batch>, order: seq<nat>, need: int, t: nat)
    requires forall t :: 0 <= t < |order| ==> order[t] < |bs|
    requires Distinct(order)
    requires CutPoint(bs, order, need) < t < |order|
    ensures Drain(bs, order, need)[order[t]] == bs[order[t]]
    decreases |order|
  {
    if need > 0 {
      var j := order[0];
      var q := bs[j].quantity;
      var tail := order[1..];
      assert order[t] == tail[t - 1] && order[t] != j;
      if q < need {
        CutStep(bs, order, need);
        DrainKeepsRow(bs[j := bs[j].(quantity := 0)], tail, need - q, t - 1);
      }
    }
  }

  lemma DrainKeepsAfterCut(bs: seq<Batch>, order: seq<nat>, need: int)
    requires forall t :: 0 <= t < |order| ==> order[t] < |bs|
    requires Distinct(order)
    ensures forall t :: CutPoint(bs, order, need) < t < |order| ==>
      Drain(bs, order, need)[order[t]] == bs[order[t]]
  {
    forall t | CutPoint(bs, order, need) < t < |order| ensures Drain(bs, order, need)[order[t]] == bs[order[t]] {
      DrainKeepsRow(bs, order, need, t);
    }
  }

  /** Listing row `j` first and then `tail`: the first `k + 1` listed rows hold
      row `j`'s quantity plus what the first `k` rows of `tail` hold once row `j`
      is emptied. */
  lemma PrefixAfterHead(bs: seq<Batch>, j: nat, tail: seq<nat>, k: nat)
    requires j < |bs| && j !in tail && k <= |tail|
    ensures SumQty(bs, ([j] + tail)[..k + 1]) ==
      bs[j].quantity + SumQty(bs[j := bs[j].(quantity := 0)], tail[..k])
  {
    var s := ([j] + tail)[..k + 1];
    assert s[0] == j && s[1..] == tail[..k];
    assert j !in tail[..k];
    SumOfUnlisted(bs, tail[..k], j, bs[j].(quantity := 0));
  }

  /** Unfolding one emptied row: the cut point moves one place along the listing
      and the drain continues on the rest. */
  lemma CutStep(bs: seq<Batch>, order: seq<nat>, need: int)
    requires forall t :: 0 <= t < |order| ==> order[t] < |bs|
    requires order != [] && 0 < need && bs[order[0]].quantity < need
    ensures var bs' := bs[order[0] := bs[order[0]].(quantity := 0)];
      var rest := need - bs[order[0]].quantity;
      && CutPoint(bs, order, need) == 1 + CutPoint(bs', order[1..], rest)
      && Drain(bs, order, need) == Drain(bs', order[1..], rest)
  {
  }

  lemma {:induction false} DrainCutRow(bs: seq<Batch>, order: seq<nat>, need: int)
    requires forall t :: 0 <= t < |order| ==> order[t] < |bs|
    requires Distinct(order)
    requires 0 < need <= SumQty(bs, order)
    ensures CutPoint(bs, order, need) < |order|
    ensures var k := CutPoint(bs, order, need);
      && 0 < need - SumQty(bs, order[..k]) <= bs[order[k]].quantity
      && Drain(bs, order, need)[order[k]].quantity ==
           bs[order[k]].quantity - (need - SumQty(bs, order[..k]))
    decreases |order|
  {
    assert order != [];
    var j := order[0];
    var q := bs[j].quantity;
    if q < need {
      var bs' := bs[j := bs[j].(quantity := 0)];
      var tail := order[1..];
      assert j !in tail;
      SumOfUnlisted(bs, tail, j, bs[j].(quantity := 0));
      DrainCutRow(bs', tail, need - q);
      var k' := CutPoint(bs', tail, need - q);
      CutStep(bs, order, need);
      assert order == [j] + tail;
      PrefixAfterHead(bs, j, tail, k');
      assert order[k' + 1] == tail[k'] && tail[k'] != j;
      assert bs[order[k' + 1]] == bs'[tail[k']];
    } else {
      CutAtHead(bs, order, need);
    }
  }

  /** When the first listed row covers `need`, the cut is at that row. */
  lemma CutAtHead(bs: seq<Batch>, order: seq<nat>, need: int)
    requires forall t :: 0 <= t < |order| ==> order[t] < |bs|
    requires order != [] && 0 < need <= bs[order[0]].quantity
    ensures CutPoint(bs, order, need) == 0 && SumQty(bs, order[..0]) == 0
    ensures Drain(bs, order, need)[order[0]].quantity == bs[order[0]].quantity - need
  {
    assert order[..0] == [];
  }

  lemma DrainShape(bs: seq<Batch>, order: seq<nat>, need: int)
    requires forall t :: 0 <= t < |order| ==> order[t] < |bs|
    requires Distinct(order)
    requires 0 < need <= SumQty(bs, order)
    ensures DrainedUpTo(bs, Drain(bs, order, need), order, need, CutPoint(bs, order, need))
  {
    DrainEmptiesBeforeCut(bs, order, need);
    DrainKeepsAfterCut(bs, order, need);
    DrainCutRow(bs, order, need);
  }

  /** A successful deduction takes exactly `need` units from medicine `m`, leaves
      no row negative, and changes no other medicine's rows and no row's batch
      number or expiry date; it succeeds exactly when `m`'s stock covers `need`. */
  lemma DeductionCorrect(bs: seq<Batch>, m: nat, need: int, nulls: NullOrder)
    requires NonNegative(bs) && need >= 1
    ensures Deduction(bs, m, need, nulls).Some? <==> need <= StockOf(bs, m)
    ensures Deduction(bs, m, need, nulls).Some? ==>
      var r := Deduction(bs, m, need, nulls).value;
      && |r| == |bs|
      && NonNegative(r)
      && StockOf(r, m) == StockOf(bs, m) - need
      && (forall i :: 0 <= i < |bs| ==> SameRow(r[i], bs[i]) && r[i].quantity <= bs[i].quantity)
      && (forall i :: 0 <= i < |bs| && bs[i].medicineId != m ==> r[i] == bs[i])
  {
    var order := FefoOrder(bs, m, nulls);
    FefoOrderListsEligible(bs, m, nulls);
    AvailableIsStock(bs, m);
    if need <= StockOf(bs, m) {
      DrainNonNegative(bs, order, need);
      DrainRemovesNeed(bs, order, need, m);
      DrainNeverGrows(bs, order, need);
      DrainFrame(bs, order, need);
    }
  }

  /** Only `m`'s stock changes under a deduction for `m`. */
  lemma DeductionOtherMedicines(bs: seq<Batch>, m: nat, need: int, nulls: NullOrder, m': nat)
    requires NonNegative(bs) && need >= 1 && m' != m
    requires Deduction(bs, m, need, nulls).Some?
    ensures StockOf(Deduction(bs, m, need, nulls).value, m') == StockOf(bs, m')
  {
    DeductionCorrect(bs, m, need, nulls);
    var r := Deduction(bs, m, need, nulls).value;
    StockOfFrame(r, bs, m');
  }

  /** FEFO: a successful deduction walks the rows in expiry order, so the rows
      listed before the last one it touches are emptied and those after it are
      untouched. */
  lemma DeductionFefoShape(bs: seq<Batch>, m: nat, need: int, nulls: NullOrder)
    requires need >= 1
    requires Deduction(bs, m, need, nulls).Some?
    ensures DrainedUpTo(bs, Deduction(bs, m, need, nulls).value, FefoOrder(bs, m, nulls), need,
                        CutPoint(bs, FefoOrder(bs, m, nulls), need))
  {
    FefoOrderListsEligible(bs, m, nulls);
    DrainShape(bs, FefoOrder(bs, m, nulls), need);
  }

  /** A row is drawn from only after every row of the medicine that expires
      strictly earlier, under the database's placement of null expiry dates, has
      been emptied. With NullsLast: rows without an expiry date are consumed only
      once all dated rows are exhausted. */
  lemma EarlierExpiryDrawnFirst(bs: seq<Batch>, m: nat, need: int, nulls: NullOrder, i: nat, j: nat)
    requires need >= 1
    requires Deduction(bs, m, need, nulls).Some?
    requires i < |bs| && j < |bs|
    requires Deduction(bs, m, need, nulls).value[i].quantity != bs[i].quantity
    requires Eligible(bs[j], m) && ExpiresBefore(bs[j].expiry, bs[i].expiry, nulls)
    ensures Deduction(bs, m, need, nulls).value[j].quantity == 0
  {
    var order := FefoOrder(bs, m, nulls);
    var key := BatchKey(bs, nulls);
    FefoOrderListsEligible(bs, m, nulls);
    var r := Drain(bs, order, need);
    assert Deduction(bs, m, need, nulls).value == r;
    DrainFrame(bs, order, need);
    assert i in order && j in order;
    var p :| 0 <= p < |order| && order[p] == i;
    var t :| 0 <= t < |order| && order[t] == j;
    ExpiresBeforeKey(bs[j].expiry, bs[i].expiry, nulls);
    RankedBefore(order, key, p, t);
    DrainedBefore(bs, order, need, p, t);
  }

  /** Expiring strictly earlier means a strictly smaller sort key. */
  lemma ExpiresBeforeKey(a: Option<int>, b: Option<int>, nulls: NullOrder)
    requires ExpiresBefore(a, b, nulls)
    ensures !KeyLe(ExpiryKey(b, nulls), ExpiryKey(a, nulls))
  {
  }

  /** Rows listed before a row the drain touched are emptied. */
  lemma DrainedBefore(bs: seq<Batch>, order: seq<nat>, need: int, p: nat, t: nat)
    requires forall t :: 0 <= t < |order| ==> order[t] < |bs|
    requires Distinct(order)
    requires t < p < |order| && Drain(bs, order, need)[order[p]] != bs[order[p]]
    ensures Drain(bs, order, need)[order[t]].quantity == 0
  {
    TouchedAtOrBeforeCut(bs, order, need, p);
    DrainEmptiesBeforeCut(bs, order, need);
  }

  /** A row a drain changes is listed no later than the cut point. */
  lemma TouchedAtOrBeforeCut(bs: seq<Batch>, order: seq<nat>, need: int, p: nat)
    requires forall t :: 0 <= t < |order| ==> order[t] < |bs|
    requires Distinct(order)
    requires p < |order| && Drain(bs, order, need)[order[p]] != bs[order[p]]
    ensures p <= CutPoint(bs, order, need)
  {
    DrainKeepsAfterCut(bs, order, need);
  }

  /** In a ranked listing, a strictly smaller key is listed earlier. */
  lemma RankedBefore(s: seq<nat>, key: nat -> Key, p: nat, t: nat)
    requires RankedBy(s, key) && p < |s| && t < |s|
    requires !KeyLe(key(s[p]), key(s[t]))
    ensures t < p
  {
  }
}

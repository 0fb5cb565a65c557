/** The read-only reports of ReportController: the sales and purchases lists for
    a date range, the stock card of one medicine (opening balance and the dated
    stock movements of the range), the inventory valuation and the expiry list.
    Each is a function of the tables; dates are integer day numbers and "now" and
    the expiry threshold are parameters. */
module ReportController {
  import opened Common
  import opened Sorting
  import opened Tables

  /** `whereBetween('date', [$start, $end])`: both ends inclusive. */
  predicate InRange(date: int, start: int, end: int) {
    start <= date <= end
  }

  /** `if ($customerId)`: a missing id and the id 0 both mean "every customer". */
  predicate CustomerMatches(inv: Invoice, customerId: Option<nat>) {
    customerId.None? || customerId.value == 0 || inv.customerId == customerId.value
  }

  /** ReportController::sales: the invoices dated in the range, limited to one
      customer when one is given, in table order. */
  function SalesReport(invoices: seq<Invoice>, start: int, end: int, customerId: Option<nat>): (r: seq<Invoice>)
    ensures |r| <= |invoices|
    ensures forall x :: x in r <==> x in invoices && InRange(x.date, start, end) && CustomerMatches(x, customerId)
  {
    if invoices == [] then []
    else
      var rest := SalesReport(invoices[..|invoices| - 1], start, end, customerId);
      var last := invoices[|invoices| - 1];
      assert forall x :: x in invoices <==> x in invoices[..|invoices| - 1] || x == last;
      if InRange(last.date, start, end) && CustomerMatches(last, customerId) then rest + [last] else rest
  }

  /** Adding a customer only narrows the list: it is the unfiltered list with the
      other customers' invoices taken out, order kept. */
  lemma {:induction false} SalesReportCustomerNarrows(invoices: seq<Invoice>, start: int, end: int, c: nat)
    requires c != 0
    ensures SalesReport(invoices, start, end, Some(c)) ==
      OfCustomer(SalesReport(invoices, start, end, None), c)
  {
    if invoices != [] {
      var prefix := invoices[..|invoices| - 1];
      SalesReportCustomerNarrows(prefix, start, end, c);
      var last := invoices[|invoices| - 1];
      if InRange(last.date, start, end) {
        OfCustomerAppend(SalesReport(prefix, start, end, None), last, c);
      }
    }
  }

  /** The invoices of customer `c`, in order. */
  function OfCustomer(invoices: seq<Invoice>, c: nat): seq<Invoice> {
    if invoices == [] then []
    else
      var last := invoices[|invoices| - 1];
      OfCustomer(invoices[..|invoices| - 1], c) + (if last.customerId == c then [last] else [])
  }

  lemma OfCustomerAppend(invoices: seq<Invoice>, x: Invoice, c: nat)
    ensures OfCustomer(invoices + [x], c) == OfCustomer(invoices, c) + (if x.customerId == c then [x] else [])
  {
    assert (invoices + [x])[..|invoices|] == invoices;
  }

  /** ReportController::purchases: the purchases dated in the range, in table order. */
  function PurchasesReport(purchases: seq<Purchase>, start: int, end: int): (r: seq<Purchase>)
    ensures |r| <= |purchases|
    ensures forall x :: x in r <==> x in purchases && InRange(x.date, start, end)
  {
    if purchases == [] then []
    else
      var rest := PurchasesReport(purchases[..|purchases| - 1], start, end);
      var last := purchases[|purchases| - 1];
      assert forall x :: x in purchases <==> x in purchases[..|purchases| - 1] || x == last;
      if InRange(last.date, start, end) then rest + [last] else rest
  }

  /** The parent row of an item (`$item->purchase`), None for an orphan. */
  function PurchaseById(purchases: seq<Purchase>, id: nat): (r: Option<Purchase>)
    ensures r.Some? ==> r.value in purchases && r.value.id == id
    ensures r.None? ==> forall k :: 0 <= k < |purchases| ==> purchases[k].id != id
  {
    if purchases == [] then None
    else if purchases[0].id == id then Some(purchases[0])
    else PurchaseById(purchases[1..], id)
  }

  function InvoiceById(invoices: seq<Invoice>, id: nat): (r: Option<Invoice>)
    ensures r.Some? ==> r.value in invoices && r.value.id == id
    ensures r.None? ==> forall k :: 0 <= k < |invoices| ==> invoices[k].id != id
  {
    if invoices == [] then None
    else if invoices[0].id == id then Some(invoices[0])
    else InvoiceById(invoices[1..], id)
  }

  /** `whereHas('purchase', date < $before)` for an item of medicine `m`. */
  predicate BoughtBefore(purchases: seq<Purchase>, it: PurchaseItem, m: nat, before: int) {
    var p := PurchaseById(purchases, it.purchaseId);
    it.medicineId == m && p.Some? && p.value.date < before
  }

  predicate SoldBefore(invoices: seq<Invoice>, it: InvoiceItem, m: nat, before: int) {
    var inv := InvoiceById(invoices, it.invoiceId);
    it.medicineId == m && inv.Some? && inv.value.date < before
  }

  /** `$purchasesBefore`: the quantity of `m` bought on purchases dated before `before`. */
  function ReceivedBefore(purchases: seq<Purchase>, items: seq<PurchaseItem>, m: nat, before: int): (r: int)
    ensures (forall k :: 0 <= k < |items| ==> items[k].quantity >= 0) ==> 0 <= r <= ReceivedQty(items, m)
  {
    if items == [] then 0
    else
      var last := items[|items| - 1];
      ReceivedBefore(purchases, items[..|items| - 1], m, before)
        + (if BoughtBefore(purchases, last, m, before) then last.quantity else 0)
  }

  /** `$salesBefore`: the quantity of `m` sold on invoices dated before `before`. */
  function IssuedBefore(invoices: seq<Invoice>, items: seq<InvoiceItem>, m: nat, before: int): (r: int)
    ensures (forall k :: 0 <= k < |items| ==> items[k].quantity >= 0) ==> 0 <= r <= SoldQty(items, m)
  {
    if items == [] then 0
    else
      var last := items[|items| - 1];
      IssuedBefore(invoices, items[..|items| - 1], m, before)
        + (if SoldBefore(invoices, last, m, before) then last.quantity else 0)
  }

  datatype MovementKind = StockIn | StockOut

  /** One row of the stock card. */
  datatype Movement = Movement(date: int, ref: string, kind: MovementKind, qtyIn: int, qtyOut: int)

  /** What a movement adds to the balance. */
  function Flow(mv: Movement): int {
    mv.qtyIn - mv.qtyOut
  }

  /** The net change of a list of movements. */
  function NetFlow(mvs: seq<Movement>): int {
    SumOf(mvs, Flow)
  }

  /** The positions of the elements of `s` that `keep` selects, in table order. */
  function Selected<T>(s: seq<T>, keep: T -> bool): (r: seq<nat>)
    ensures Ascending(r)
    ensures forall k: nat :: k in r <==> k < |s| && keep(s[k])
    ensures forall t :: 0 <= t < |r| ==> r[t] < |s| && keep(s[r[t]])
  {
    if s == [] then []
    else
      var prefix := s[..|s| - 1];
      var rest := Selected(prefix, keep);
      assert forall k :: 0 <= k < |prefix| ==> prefix[k] == s[k];
      if keep(s[|s| - 1]) then rest + [|s| - 1] else rest
  }

  /** `where('medicine_id', m)->whereHas('purchase', whereBetween('date', …))`
      for one purchase item. */
  predicate BoughtWithin(purchases: seq<Purchase>, it: PurchaseItem, m: nat, start: int, end: int) {
    var p := PurchaseById(purchases, it.purchaseId);
    it.medicineId == m && p.Some? && InRange(p.value.date, start, end)
  }

  function BoughtWithinOf(purchases: seq<Purchase>, m: nat, start: int, end: int): PurchaseItem -> bool {
    it => BoughtWithin(purchases, it, m, start, end)
  }

  /** The same query on the invoice items. */
  predicate SoldWithin(invoices: seq<Invoice>, it: InvoiceItem, m: nat, start: int, end: int) {
    var inv := InvoiceById(invoices, it.invoiceId);
    it.medicineId == m && inv.Some? && InRange(inv.value.date, start, end)
  }

  function SoldWithinOf(invoices: seq<Invoice>, m: nat, start: int, end: int): InvoiceItem -> bool {
    it => SoldWithin(invoices, it, m, start, end)
  }

  /** `$item->purchase->invoice_no ?: 'PUR-' . $item->purchase_id`. */
  function PurchaseRef(p: Purchase, it: PurchaseItem): (ref: string)
    ensures ref != ""
    ensures !Falsy(p.invoiceNo) ==> ref == p.invoiceNo.value
    ensures Falsy(p.invoiceNo) ==> |ref| > 4 && ref[..4] == "PUR-" && ref[4..] == DecimalString(it.purchaseId)
  {
    if Falsy(p.invoiceNo) then "PUR-" + DecimalString(it.purchaseId) else p.invoiceNo.value
  }

  /** The `Stock In` rows: medicine `m`'s purchase items whose purchase is dated
      in the range, in table order. */
  function PurchaseMovements(purchases: seq<Purchase>, items: seq<PurchaseItem>, m: nat, start: int, end: int)
    : (r: seq<Movement>)
    ensures |r| <= |items|
    ensures forall t :: 0 <= t < |r| ==>
      && r[t].kind == StockIn && r[t].qtyOut == 0 && r[t].ref != "" && InRange(r[t].date, start, end)
  {
    if items == [] then []
    else
      var last := items[|items| - 1];
      var rest := PurchaseMovements(purchases, items[..|items| - 1], m, start, end);
      if BoughtWithin(purchases, last, m, start, end) then
        var p := PurchaseById(purchases, last.purchaseId).value;
        rest + [Movement(p.date, PurchaseRef(p, last), StockIn, last.quantity, 0)]
      else rest
  }

  /** The `Stock Out` rows: medicine `m`'s invoice items whose invoice is dated in
      the range, in table order. */
  function SaleMovements(invoices: seq<Invoice>, items: seq<InvoiceItem>, m: nat, start: int, end: int)
    : (r: seq<Movement>)
    ensures |r| <= |items|
    ensures forall t :: 0 <= t < |r| ==>
      && r[t].kind == StockOut && r[t].qtyIn == 0 && InRange(r[t].date, start, end)
  {
    if items == [] then []
    else
      var last := items[|items| - 1];
      var rest := SaleMovements(invoices, items[..|items| - 1], m, start, end);
      if SoldWithin(invoices, last, m, start, end) then
        var inv := InvoiceById(invoices, last.invoiceId).value;
        rest + [Movement(inv.date, inv.invoiceNo, StockOut, 0, last.quantity)]
      else rest
  }

  /** One `Stock In` row per selected purchase item, in table order: dated by its
      purchase, referenced by `PurchaseRef`, with the item's quantity in. */
  lemma {:induction false} PurchaseMovementsRows(purchases: seq<Purchase>, items: seq<PurchaseItem>, m: nat, start: int, end: int)
    ensures var r := PurchaseMovements(purchases, items, m, start, end);
      var ks := Selected(items, BoughtWithinOf(purchases, m, start, end));
      && |r| == |ks|
      && forall t :: 0 <= t < |r| ==>
           var it := items[ks[t]];
           var p := PurchaseById(purchases, it.purchaseId).value;
           r[t] == Movement(p.date, PurchaseRef(p, it), StockIn, it.quantity, 0)
  {
    if items != [] {
      PurchaseMovementsRows(purchases, items[..|items| - 1], m, start, end);
    }
  }

  /** One `Stock Out` row per selected invoice item, in table order: dated and
      referenced by its invoice, with the item's quantity out. */
  lemma {:induction false} SaleMovementsRows(invoices: seq<Invoice>, items: seq<InvoiceItem>, m: nat, start: int, end: int)
    ensures var r := SaleMovements(invoices, items, m, start, end);
      var ks := Selected(items, SoldWithinOf(invoices, m, start, end));
      && |r| == |ks|
      && forall t :: 0 <= t < |r| ==>
           var it := items[ks[t]];
           var inv := InvoiceById(invoices, it.invoiceId).value;
           r[t] == Movement(inv.date, inv.invoiceNo, StockOut, 0, it.quantity)
  {
    if items != [] {
      SaleMovementsRows(invoices, items[..|items| - 1], m, start, end);
    }
  }

  /** The sort key of `sortBy('date')`. */
  function DateKey(mv: Movement): Key {
    Key(mv.date, 0)
  }

  datatype StockCardResult =
    | MissingMedicine
    | Card(opening: int, movements: seq<Movement>)

  /** ReportController::stockCard: HTTP 400 without a medicine id; otherwise the
      balance before `start` and the range's purchases then sales, stably sorted
      by date. */
  function StockCard(medicineId: Option<nat>, start: int, end: int,
                     purchases: seq<Purchase>, purchaseItems: seq<PurchaseItem>,
                     invoices: seq<Invoice>, invoiceItems: seq<InvoiceItem>): (r: StockCardResult)
    ensures r.MissingMedicine? <==> medicineId.None? || medicineId.value == 0
  {
    if medicineId.None? || medicineId.value == 0 then MissingMedicine
    else
      var m := medicineId.value;
      var opening := ReceivedBefore(purchases, purchaseItems, m, start) - IssuedBefore(invoices, invoiceItems, m, start);
      var movements := PurchaseMovements(purchases, purchaseItems, m, start, end)
                     + SaleMovements(invoices, invoiceItems, m, start, end);
      Card(opening, SortBy(movements, DateKey))
  }

  /** The movements of a card are exactly the range's purchase rows and sale rows
      (so their count is the sum of the two), in ascending date order; on any one
      date the purchase rows come first, then the sale rows, each in table order. */
  lemma StockCardMovements(m: nat, start: int, end: int,
                           purchases: seq<Purchase>, purchaseItems: seq<PurchaseItem>,
                           invoices: seq<Invoice>, invoiceItems: seq<InvoiceItem>)
    requires m != 0
    ensures var card := StockCard(Some(m), start, end, purchases, purchaseItems, invoices, invoiceItems);
      var ins := PurchaseMovements(purchases, purchaseItems, m, start, end);
      var outs := SaleMovements(invoices, invoiceItems, m, start, end);
      && |card.movements| == |ins| + |outs|
      && multiset(card.movements) == multiset(ins) + multiset(outs)
      && SortedBy(card.movements, DateKey)
      && (forall d :: SameKey(card.movements, DateKey, Key(d, 0)) ==
            SameKey(ins, DateKey, Key(d, 0)) + SameKey(outs, DateKey, Key(d, 0)))
  {
    var ins := PurchaseMovements(purchases, purchaseItems, m, start, end);
    var outs := SaleMovements(invoices, invoiceItems, m, start, end);
    SortBySorted(ins + outs, DateKey);
    forall d ensures SameKey(SortBy(ins + outs, DateKey), DateKey, Key(d, 0)) ==
      SameKey(ins, DateKey, Key(d, 0)) + SameKey(outs, DateKey, Key(d, 0))
    {
      SortByStable(ins + outs, DateKey, Key(d, 0));
      SameKeyConcat(ins, outs, DateKey, Key(d, 0));
    }
  }

  /** Every movement on a card is dated inside the range. */
  lemma StockCardInRange(m: nat, start: int, end: int,
                         purchases: seq<Purchase>, purchaseItems: seq<PurchaseItem>,
                         invoices: seq<Invoice>, invoiceItems: seq<InvoiceItem>)
    requires m != 0
    ensures var card := StockCard(Some(m), start, end, purchases, purchaseItems, invoices, invoiceItems);
      forall t :: 0 <= t < |card.movements| ==> InRange(card.movements[t].date, start, end)
  {
    var ins := PurchaseMovements(purchases, purchaseItems, m, start, end);
    var outs := SaleMovements(invoices, invoiceItems, m, start, end);
    var card := StockCard(Some(m), start, end, purchases, purchaseItems, invoices, invoiceItems);
    SortByElems(ins + outs, DateKey);
    forall t | 0 <= t < |card.movements| ensures InRange(card.movements[t].date, start, end) {
      var mv := card.movements[t];
      assert mv in ins + outs;
      if mv in ins {
        var u :| 0 <= u < |ins| && ins[u] == mv;
      } else {
        var u :| 0 <= u < |outs| && outs[u] == mv;
      }
    }
  }

  lemma {:induction false} PurchaseFlowRolls(purchases: seq<Purchase>, items: seq<PurchaseItem>, m: nat, start: int, end: int)
    requires start <= end + 1
    ensures ReceivedBefore(purchases, items, m, end + 1) ==
      ReceivedBefore(purchases, items, m, start) + NetFlow(PurchaseMovements(purchases, items, m, start, end))
  {
    if items != [] {
      var prefix := items[..|items| - 1];
      var last := items[|items| - 1];
      PurchaseFlowRolls(purchases, prefix, m, start, end);
      var rest := PurchaseMovements(purchases, prefix, m, start, end);
      var p := PurchaseById(purchases, last.purchaseId);
      if last.medicineId == m && p.Some? && InRange(p.value.date, start, end) {
        var mv := Movement(p.value.date, PurchaseRef(p.value, last), StockIn, last.quantity, 0);
        SumOfConcat(rest, [mv], Flow);
        assert SumOf([mv], Flow) == last.quantity by {
          assert [mv][1..] == [];
        }
      }
    }
  }

  lemma {:induction false} SaleFlowRolls(invoices: seq<Invoice>, items: seq<InvoiceItem>, m: nat, start: int, end: int)
    requires start <= end + 1
    ensures IssuedBefore(invoices, items, m, end + 1) ==
      IssuedBefore(invoices, items, m, start) - NetFlow(SaleMovements(invoices, items, m, start, end))
  {
    if items != [] {
      var prefix := items[..|items| - 1];
      var last := items[|items| - 1];
      SaleFlowRolls(invoices, prefix, m, start, end);
      var rest := SaleMovements(invoices, prefix, m, start, end);
      var inv := InvoiceById(invoices, last.invoiceId);
      if last.medicineId == m && inv.Some? && InRange(inv.value.date, start, end) {
        var mv := Movement(inv.value.date, inv.value.invoiceNo, StockOut, 0, last.quantity);
        SumOfConcat(rest, [mv], Flow);
        assert SumOf([mv], Flow) == -last.quantity by {
          assert [mv][1..] == [];
        }
      }
    }
  }

  /** The card adds up: its opening balance plus the net flow of its movements is
      the opening balance of a card starting the day after its range ends. */
  lemma StockCardRollsForward(m: nat, start: int, end: int,
                              purchases: seq<Purchase>, purchaseItems: seq<PurchaseItem>,
                              invoices: seq<Invoice>, invoiceItems: seq<InvoiceItem>)
    requires m != 0 && start <= end + 1
    ensures var card := StockCard(Some(m), start, end, purchases, purchaseItems, invoices, invoiceItems);
      var next := StockCard(Some(m), end + 1, end + 1, purchases, purchaseItems, invoices, invoiceItems);
      card.opening + NetFlow(card.movements) == next.opening
  {
    var ins := PurchaseMovements(purchases, purchaseItems, m, start, end);
    var outs := SaleMovements(invoices, invoiceItems, m, start, end);
    PurchaseFlowRolls(purchases, purchaseItems, m, start, end);
    SaleFlowRolls(invoices, invoiceItems, m, start, end);
    SortBySum(ins + outs, DateKey, Flow);
    SumOfConcat(ins, outs, Flow);
  }

  /** One row of the inventory report. Price and value are in cents. */
  datatype InventoryRow = InventoryRow(name: string, sku: string, unit: string, stock: int, price: int, value: int)

  /** `$medicine->price ?: 0`. */
  function PriceOf(med: Medicine): int {
    if med.price.None? then 0 else med.price.value
  }

  /** ReportController::inventory: per medicine, in table order, its stock (the
      sum of its batches, 0 without any) and that stock valued at its price. */
  function Inventory(medicines: seq<Medicine>, bs: seq<Batch>): (r: seq<InventoryRow>)
    ensures |r| == |medicines|
    ensures forall k :: 0 <= k < |r| ==>
      && r[k].name == medicines[k].name && r[k].sku == medicines[k].sku && r[k].unit == medicines[k].unit
      && r[k].stock == StockOf(bs, medicines[k].id)
      && r[k].price == PriceOf(medicines[k])
      && r[k].value == r[k].stock * r[k].price
  {
    seq(|medicines|, k requires 0 <= k < |medicines| =>
      var med := medicines[k];
      var stock := StockOf(bs, med.id);
      InventoryRow(med.name, med.sku, med.unit, stock, PriceOf(med), stock * PriceOf(med)))
  }

  /** A medicine without batch rows shows stock 0. */
  lemma {:induction false} NoBatchesNoStock(bs: seq<Batch>, m: nat, i: nat)
    requires i <= |bs|
    requires forall j :: i <= j < |bs| ==> bs[j].medicineId != m
    ensures StockFrom(bs, m, i) == 0
    decreases |bs| - i
  {
    if i < |bs| {
      NoBatchesNoStock(bs, m, i + 1);
    }
  }

  /** On a balanced ledger the inventory shows, for each medicine, what was
      received minus what was sold, never a negative stock, and with a
      non-negative price a non-negative value. */
  lemma InventoryMatchesLedger(medicines: seq<Medicine>, bs: seq<Batch>,
                               received: seq<PurchaseItem>, sold: seq<InvoiceItem>, k: nat)
    requires k < |medicines| && NonNegative(bs)
    requires forall m: nat :: StockOf(bs, m) == ReceivedQty(received, m) - SoldQty(sold, m)
    ensures var row := Inventory(medicines, bs)[k];
      && row.stock == ReceivedQty(received, medicines[k].id) - SoldQty(sold, medicines[k].id)
      && row.stock >= 0
      && (row.price >= 0 ==> row.value >= 0)
  {
    StockOfNonNegative(bs, medicines[k].id);
  }

  /** `expiry_date > now() AND expiry_date <= threshold AND quantity > 0`; a null
      expiry date fails both comparisons. */
  predicate ExpiresWithin(b: Batch, now: int, threshold: int) {
    b.quantity > 0 && b.expiry.Some? && now < b.expiry.value <= threshold
  }

  function ExpiringRows(bs: seq<Batch>, now: int, threshold: int): (r: seq<Batch>)
    ensures forall b :: b in r <==> b in bs && ExpiresWithin(b, now, threshold)
  {
    if bs == [] then []
    else
      var rest := ExpiringRows(bs[..|bs| - 1], now, threshold);
      var last := bs[|bs| - 1];
      assert forall b :: b in bs <==> b in bs[..|bs| - 1] || b == last;
      if ExpiresWithin(last, now, threshold) then rest + [last] else rest
  }

  /** The sort key of `orderBy('expiry_date', 'asc')` on rows that all have a date. */
  function ExpiryDateKey(b: Batch): Key {
    Key(if b.expiry.Some? then b.expiry.value else 0, 0)
  }

  /** ReportController::expiry with `now()` and `now()->addMonths($months)` given
      as day numbers; equal dates keep table order. */
  function ExpiryReport(bs: seq<Batch>, now: int, threshold: int): (r: seq<Batch>)
    ensures multiset(r) == multiset(ExpiringRows(bs, now, threshold))
    ensures SortedBy(r, ExpiryDateKey)
  {
    SortBySorted(ExpiringRows(bs, now, threshold), ExpiryDateKey);
    SortBy(ExpiringRows(bs, now, threshold), ExpiryDateKey)
  }

  /** The expiry list holds exactly the in-stock rows expiring after now and no
      later than the threshold, soonest first. */
  lemma ExpiryReportCorrect(bs: seq<Batch>, now: int, threshold: int)
    ensures forall b :: b in ExpiryReport(bs, now, threshold) <==> b in bs && ExpiresWithin(b, now, threshold)
    ensures multiset(ExpiryReport(bs, now, threshold)) == multiset(ExpiringRows(bs, now, threshold))
    ensures var r := ExpiryReport(bs, now, threshold);
      && (forall t :: 0 <= t < |r| ==> r[t].expiry.Some?)
      && (forall i, j :: 0 <= i < j < |r| ==> r[i].expiry.value <= r[j].expiry.value)
  {
    var rows := ExpiringRows(bs, now, threshold);
    var r := ExpiryReport(bs, now, threshold);
    SortByElems(rows, ExpiryDateKey);
    SortBySorted(rows, ExpiryDateKey);
    forall t | 0 <= t < |r| ensures r[t].expiry.Some? {
      assert r[t] in r;
    }
    forall i, j | 0 <= i < j < |r| ensures r[i].expiry.value <= r[j].expiry.value {
      assert KeyLe(ExpiryDateKey(r[i]), ExpiryDateKey(r[j]));
    }
  }
}

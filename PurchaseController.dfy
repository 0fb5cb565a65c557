/** The purchase endpoint, PurchaseController::store: blank optional fields
    become null, the request is validated, the purchase and its items are
    recorded and, item by item, the stock row keyed on (medicine, batch number)
    is found and increased, or created. Also PurchaseController::destroy, which
    leaves stock alone. */
module PurchaseController {
  import opened Common
  import opened Tables

  /** One entry of the request's `items` array. Cost is in cents; the expiry
      date is already parsed, a blank one being None. */
  datatype PurchaseLine = PurchaseLine(
    medicineId: nat, quantity: int, costPrice: int, expiry: Option<int>, batchNo: Option<string>)

  datatype PurchaseRequest = PurchaseRequest(
    supplierId: nat, date: int, voucherNo: Option<string>, invoiceNo: Option<string>,
    paymentStatus: string, status: string, items: seq<PurchaseLine>)

  /** The validation rule a request breaks (HTTP 422, nothing changed). */
  datatype PurchaseRejection =
    | UnknownSupplier
    | MissingPaymentStatus
    | MissingStatus
    | NoItems
    | UnknownMedicine(line: nat)
    | QuantityBelowOne(line: nat)
    | NegativeCostPrice(line: nat)

  datatype PurchaseOutcome =
    | Recorded(purchase: Purchase, items: seq<PurchaseItem>)
    | Rejected(reason: PurchaseRejection)

  /** `!empty($item['batch_no']) ? $item['batch_no'] : null` on one line. */
  function NormalizeLine(l: PurchaseLine): PurchaseLine {
    l.(batchNo := NullIfFalsy(l.batchNo))
  }

  /** The `$request->merge` step: voucher and invoice numbers and every line's
      batch number lose their blank values; nothing else changes. */
  function Normalize(req: PurchaseRequest): (r: PurchaseRequest)
    ensures r.voucherNo.None? <==> Falsy(req.voucherNo)
    ensures r.invoiceNo.None? <==> Falsy(req.invoiceNo)
    ensures r.voucherNo.Some? ==> r.voucherNo == req.voucherNo
    ensures r.invoiceNo.Some? ==> r.invoiceNo == req.invoiceNo
    ensures |r.items| == |req.items|
    ensures forall k :: 0 <= k < |r.items| ==>
      && (r.items[k].batchNo.None? <==> Falsy(req.items[k].batchNo))
      && (r.items[k].batchNo.Some? ==> r.items[k].batchNo == req.items[k].batchNo && r.items[k].batchNo.value != "")
      && r.items[k].(batchNo := req.items[k].batchNo) == req.items[k]
    ensures r.(voucherNo := req.voucherNo, invoiceNo := req.invoiceNo, items := req.items) == req
  {
    req.(voucherNo := NullIfFalsy(req.voucherNo), invoiceNo := NullIfFalsy(req.invoiceNo),
         items := seq(|req.items|, k requires 0 <= k < |req.items| => NormalizeLine(req.items[k])))
  }

  /** Normalising twice is normalising once. */
  lemma NormalizeIdempotent(req: PurchaseRequest)
    ensures Normalize(Normalize(req)) == Normalize(req)
  {
    var n := Normalize(req);
    assert Normalize(n).items == n.items;
  }

  predicate LineValid(l: PurchaseLine, medicines: set<nat>) {
    l.medicineId in medicines && l.quantity >= 1 && l.costPrice >= 0
  }

  /** Everything `$request->validate` demands of a normalised purchase, given the
      ids of the existing suppliers and medicines. */
  predicate PurchaseRequestValid(req: PurchaseRequest, suppliers: set<nat>, medicines: set<nat>) {
    && req.supplierId in suppliers
    && !Blank(req.paymentStatus)
    && !Blank(req.status)
    && |req.items| >= 1
    && forall k :: 0 <= k < |req.items| ==> LineValid(req.items[k], medicines)
  }

  function LineRejection(items: seq<PurchaseLine>, medicines: set<nat>, from: nat): (r: Option<PurchaseRejection>)
    requires from <= |items|
    ensures r.None? <==> forall k :: from <= k < |items| ==> LineValid(items[k], medicines)
    decreases |items| - from
  {
    if from == |items| then None
    else
      var l := items[from];
      if l.medicineId !in medicines then Some(UnknownMedicine(from))
      else if l.quantity < 1 then Some(QuantityBelowOne(from))
      else if l.costPrice < 0 then Some(NegativeCostPrice(from))
      else LineRejection(items, medicines, from + 1)
  }

  /** The first validation rule the request breaks, None when it passes. */
  function PurchaseRejectionOf(req: PurchaseRequest, suppliers: set<nat>, medicines: set<nat>)
    : (r: Option<PurchaseRejection>)
    ensures r.None? <==> PurchaseRequestValid(req, suppliers, medicines)
  {
    if req.supplierId !in suppliers then Some(UnknownSupplier)
    else if Blank(req.paymentStatus) then Some(MissingPaymentStatus)
    else if Blank(req.status) then Some(MissingStatus)
    else if |req.items| == 0 then Some(NoItems)
    else LineRejection(req.items, medicines, 0)
  }

  /** `required` refuses a payment status or status that is blank after
      trimming, whatever the rest of the request holds. */
  lemma BlankFieldRejected(req: PurchaseRequest, suppliers: set<nat>, medicines: set<nat>)
    requires Blank(req.paymentStatus) || Blank(req.status)
    ensures PurchaseRejectionOf(req, suppliers, medicines).Some?
  {
  }

  /** `total_amount`: the sum of quantity × cost_price over the lines. */
  function PurchaseGross(items: seq<PurchaseLine>): int {
    if items == [] then 0
    else
      var last := items[|items| - 1];
      PurchaseGross(items[..|items| - 1]) + last.quantity * last.costPrice
  }

  /** The `foreach` that adds up `$totalAmount`. */
  method PurchaseTotal(items: seq<PurchaseLine>) returns (total: int)
    ensures total == PurchaseGross(items)
  {
    total := 0;
    var i := 0;
    while i < |items|
      invariant 0 <= i <= |items|
      invariant total == PurchaseGross(items[..i])
    {
      assert items[..i + 1][..i] == items[..i];
      total := total + items[i].quantity * items[i].costPrice;
      i := i + 1;
    }
    assert items[..i] == items;
  }

  /** The total of the lines for medicine `m`. */
  function Ordered(items: seq<PurchaseLine>, m: nat): int {
    if items == [] then 0
    else
      var last := items[|items| - 1];
      Ordered(items[..|items| - 1], m) + (if last.medicineId == m then last.quantity else 0)
  }

  /** The purchase_items row recorded for one line. */
  function ItemRow(purchaseId: nat, l: PurchaseLine): PurchaseItem {
    PurchaseItem(purchaseId, l.medicineId, l.quantity, l.costPrice, l.quantity * l.costPrice, l.expiry, l.batchNo)
  }

  /** The purchase_items rows a purchase records, one per line, in order. */
  function ItemRows(purchaseId: nat, items: seq<PurchaseLine>): (r: seq<PurchaseItem>)
    ensures |r| == |items|
    ensures forall k :: 0 <= k < |items| ==> r[k] == ItemRow(purchaseId, items[k])
  {
    if items == [] then []
    else ItemRows(purchaseId, items[..|items| - 1]) + [ItemRow(purchaseId, items[|items| - 1])]
  }

  function ItemsTotal(items: seq<PurchaseItem>): int {
    if items == [] then 0
    else ItemsTotal(items[..|items| - 1]) + items[|items| - 1].totalPrice
  }

  /** The purchase's `total_amount` is the sum of its items' `total_price`. */
  lemma {:induction false} ItemRowsTotal(purchaseId: nat, items: seq<PurchaseLine>)
    ensures ItemsTotal(ItemRows(purchaseId, items)) == PurchaseGross(items)
  {
    if items != [] {
      var r := ItemRows(purchaseId, items);
      ItemRowsTotal(purchaseId, items[..|items| - 1]);
      assert r[..|r| - 1] == ItemRows(purchaseId, items[..|items| - 1]);
    }
  }

  /** The items a purchase records for medicine `m` add up to what its lines ordered. */
  lemma {:induction false} ItemRowsReceived(purchaseId: nat, items: seq<PurchaseLine>, m: nat)
    ensures ReceivedQty(ItemRows(purchaseId, items), m) == Ordered(items, m)
  {
    if items != [] {
      var r := ItemRows(purchaseId, items);
      ItemRowsReceived(purchaseId, items[..|items| - 1], m);
      assert r[..|r| - 1] == ItemRows(purchaseId, items[..|items| - 1]);
    }
  }

  /** The row the stock query matches: same medicine and same batch number, a
      null batch number matching a null one (`where('batch_no', null)` is
      `whereNull`). */
  predicate Matches(b: Batch, m: nat, batchNo: Option<string>) {
    b.medicineId == m && b.batchNo == batchNo
  }

  function FindBatchFrom(bs: seq<Batch>, m: nat, batchNo: Option<string>, i: nat): (r: Option<nat>)
    requires i <= |bs|
    ensures r.Some? ==> i <= r.value < |bs| && Matches(bs[r.value], m, batchNo)
    ensures r.Some? ==> forall j :: i <= j < r.value ==> !Matches(bs[j], m, batchNo)
    ensures r.None? ==> forall j :: i <= j < |bs| ==> !Matches(bs[j], m, batchNo)
    decreases |bs| - i
  {
    if i == |bs| then None
    else if Matches(bs[i], m, batchNo) then Some(i)
    else FindBatchFrom(bs, m, batchNo, i + 1)
  }

  /** `->first()`: the first matching row, None when there is none. */
  function FindBatch(bs: seq<Batch>, m: nat, batchNo: Option<string>): (r: Option<nat>)
    ensures r.Some? ==> r.value < |bs| && Matches(bs[r.value], m, batchNo)
    ensures r.Some? ==> forall j :: 0 <= j < r.value ==> !Matches(bs[j], m, batchNo)
    ensures r.None? <==> forall j :: 0 <= j < |bs| ==> !Matches(bs[j], m, batchNo)
  {
    FindBatchFrom(bs, m, batchNo, 0)
  }

  /** The stock change one purchase line makes: the matching row gains the
      quantity, or a new row is appended. */
  function ReceiveLine(bs: seq<Batch>, l: PurchaseLine): (r: seq<Batch>)
    ensures |r| == |bs| <==> FindBatch(bs, l.medicineId, l.batchNo).Some?
    ensures |r| == |bs| || |r| == |bs| + 1
    ensures exists i :: 0 <= i < |r| && Matches(r[i], l.medicineId, l.batchNo)
    ensures forall i :: 0 <= i < |bs| ==> SameRow(r[i], bs[i])
    ensures forall i :: 0 <= i < |bs| && !Matches(bs[i], l.medicineId, l.batchNo) ==> r[i] == bs[i]
  {
    match FindBatch(bs, l.medicineId, l.batchNo)
    case Some(i) =>
      var r := bs[i := bs[i].(quantity := bs[i].quantity + l.quantity)];
      assert Matches(r[i], l.medicineId, l.batchNo);
      r
    case None =>
      var r := bs + [Batch(l.medicineId, l.batchNo, l.expiry, l.quantity)];
      assert Matches(r[|bs|], l.medicineId, l.batchNo);
      r
  }

  /** An existing batch gains the quantity and keeps its expiry date even when the
      line carries another one; every other row is unchanged. */
  lemma ReceiveExisting(bs: seq<Batch>, l: PurchaseLine, i: nat)
    requires i < |bs| && Matches(bs[i], l.medicineId, l.batchNo) && UniqueBatchKeys(bs)
    ensures |ReceiveLine(bs, l)| == |bs|
    ensures ReceiveLine(bs, l)[i] == bs[i].(quantity := bs[i].quantity + l.quantity)
    ensures forall j :: 0 <= j < |bs| && j != i ==> ReceiveLine(bs, l)[j] == bs[j]
  {
  }

  /** With no matching row exactly one row is added, carrying the line's batch
      number, expiry date and quantity. */
  lemma ReceiveNew(bs: seq<Batch>, l: PurchaseLine)
    requires forall j :: 0 <= j < |bs| ==> !Matches(bs[j], l.medicineId, l.batchNo)
    ensures ReceiveLine(bs, l) == bs + [Batch(l.medicineId, l.batchNo, l.expiry, l.quantity)]
  {
  }

  /** A line raises its medicine's stock by its quantity and no other medicine's. */
  lemma ReceiveLineStock(bs: seq<Batch>, l: PurchaseLine, m: nat)
    ensures StockOf(ReceiveLine(bs, l), m) == StockOf(bs, m) + (if m == l.medicineId then l.quantity else 0)
  {
    match FindBatch(bs, l.medicineId, l.batchNo)
    case Some(i) =>
      StockOfUpdate(bs, i, bs[i].(quantity := bs[i].quantity + l.quantity), m);
    case None =>
      StockOfAppend(bs, Batch(l.medicineId, l.batchNo, l.expiry, l.quantity), m);
  }

  /** Receiving a positive quantity keeps every row non-negative and the
      (medicine, batch number) keys unique. */
  lemma ReceiveLineValid(bs: seq<Batch>, l: PurchaseLine)
    requires NonNegative(bs) && UniqueBatchKeys(bs) && l.quantity >= 1
    ensures NonNegative(ReceiveLine(bs, l)) && UniqueBatchKeys(ReceiveLine(bs, l))
  {
    var r := ReceiveLine(bs, l);
    if FindBatch(bs, l.medicineId, l.batchNo).None? {
      forall i, j | 0 <= i < j < |r| ensures r[i].medicineId != r[j].medicineId || r[i].batchNo != r[j].batchNo {
        if j == |bs| {
          assert !Matches(bs[i], l.medicineId, l.batchNo);
        }
      }
    }
  }

  /** The lines received one after another. */
  function ReceiveAll(bs: seq<Batch>, items: seq<PurchaseLine>): (r: seq<Batch>)
    ensures |bs| <= |r| <= |bs| + |items|
    ensures forall i :: 0 <= i < |bs| ==> SameRow(r[i], bs[i])
  {
    if items == [] then bs
    else ReceiveLine(ReceiveAll(bs, items[..|items| - 1]), items[|items| - 1])
  }

  predicate QuantitiesPositive(items: seq<PurchaseLine>) {
    forall k :: 0 <= k < |items| ==> items[k].quantity >= 1
  }

  /** A whole purchase raises each medicine's stock by what its lines ordered,
      and keeps the batch table valid. */
  lemma {:induction false} ReceiveAllStock(bs: seq<Batch>, items: seq<PurchaseLine>)
    requires NonNegative(bs) && UniqueBatchKeys(bs) && QuantitiesPositive(items)
    ensures NonNegative(ReceiveAll(bs, items)) && UniqueBatchKeys(ReceiveAll(bs, items))
    ensures forall m: nat :: StockOf(ReceiveAll(bs, items), m) == StockOf(bs, m) + Ordered(items, m)
  {
    if items != [] {
      var prefix := items[..|items| - 1];
      var last := items[|items| - 1];
      ReceiveAllStock(bs, prefix);
      ReceiveLineValid(ReceiveAll(bs, prefix), last);
      forall m: nat ensures StockOf(ReceiveAll(bs, items), m) == StockOf(bs, m) + Ordered(items, m) {
        ReceiveLineStock(ReceiveAll(bs, prefix), last, m);
      }
    }
  }

  /** Receiving a purchase keeps the ledger balanced: stock = received - sold. */
  lemma PurchaseKeepsLedger(bs: seq<Batch>, received: seq<PurchaseItem>, sold: seq<InvoiceItem>,
                            purchaseId: nat, items: seq<PurchaseLine>)
    requires NonNegative(bs) && UniqueBatchKeys(bs) && QuantitiesPositive(items)
    requires forall m: nat :: StockOf(bs, m) == ReceivedQty(received, m) - SoldQty(sold, m)
    ensures forall m: nat ::
      StockOf(ReceiveAll(bs, items), m) == ReceivedQty(received + ItemRows(purchaseId, items), m) - SoldQty(sold, m)
  {
    ReceiveAllStock(bs, items);
    forall m: nat ensures ReceivedQty(received + ItemRows(purchaseId, items), m) == ReceivedQty(received, m) + Ordered(items, m) {
      ReceivedQtyConcat(received, ItemRows(purchaseId, items), m);
      ItemRowsReceived(purchaseId, items, m);
    }
  }

  /** Taking one more line. */
  lemma NextLine(bs: seq<Batch>, items: seq<PurchaseLine>, k: nat, purchaseId: nat)
    requires k < |items|
    ensures ReceiveAll(bs, items[..k + 1]) == ReceiveLine(ReceiveAll(bs, items[..k]), items[k])
    ensures ItemRows(purchaseId, items[..k + 1]) == ItemRows(purchaseId, items[..k]) + [ItemRow(purchaseId, items[k])]
  {
    assert items[..k + 1][..k] == items[..k];
  }

  /** `$existingStock->increment(...)` or `MedicineStock::create(...)`. */
  method ReceiveStock(db: Database, l: PurchaseLine)
    modifies db`batches
    ensures db.batches == ReceiveLine(old(db.batches), l)
  {
    var existingStock := FindBatch(db.batches, l.medicineId, l.batchNo);
    if existingStock.Some? {
      var i := existingStock.value;
      db.batches := db.batches[i := db.batches[i].(quantity := db.batches[i].quantity + l.quantity)];
    } else {
      db.batches := db.batches + [Batch(l.medicineId, l.batchNo, l.expiry, l.quantity)];
    }
  }

  /** The `foreach ($validated['items'] as $item)` loop inside the transaction:
      each line is recorded as a purchase item and then received into stock. */
  method ReceiveLines(db: Database, purchaseId: nat, items: seq<PurchaseLine>)
    modifies db`batches, db`purchaseItems
    ensures db.batches == ReceiveAll(old(db.batches), items)
    ensures db.purchaseItems == old(db.purchaseItems) + ItemRows(purchaseId, items)
  {
    var k := 0;
    while k < |items|
      invariant 0 <= k <= |items|
      invariant db.batches == ReceiveAll(old(db.batches), items[..k])
      invariant db.purchaseItems == old(db.purchaseItems) + ItemRows(purchaseId, items[..k])
    {
      var item := items[k];
      NextLine(old(db.batches), items, k, purchaseId);
      db.purchaseItems := db.purchaseItems + [ItemRow(purchaseId, item)];
      ReceiveStock(db, item);
      k := k + 1;
    }
    assert items[..k] == items;
  }

  /** The purchase row a valid, normalised request creates. */
  function NewPurchase(req: PurchaseRequest, id: nat): (r: Purchase)
    ensures r.id == id && r.supplierId == req.supplierId && r.date == req.date
    ensures r.voucherNo == req.voucherNo && r.invoiceNo == req.invoiceNo
    ensures r.totalAmount == ItemsTotal(ItemRows(id, req.items))
  {
    ItemRowsTotal(id, req.items);
    Purchase(id, req.supplierId, req.date, req.voucherNo, req.invoiceNo, req.paymentStatus, req.status,
             PurchaseGross(req.items))
  }

  /** A new purchase with the next id keeps the ids ascending. */
  lemma AppendPurchase(purchases: seq<Purchase>, next: nat, purchase: Purchase)
    requires PurchaseIdsBelow(purchases, next) && purchase.id == next
    ensures PurchaseIdsBelow(purchases + [purchase], next + 1)
  {
  }

  /** The `DB::transaction` closure of PurchaseController::store, run on a
      validated, normalised request: the purchase is created, then each line's
      item is recorded and its stock received. Nothing in it can fail, so there
      is no rollback path. */
  method Record(db: Database, n: PurchaseRequest) returns (outcome: PurchaseOutcome)
    requires db.Valid() && QuantitiesPositive(n.items)
    modifies db
    ensures db.Valid()
    ensures old(db.Balanced()) ==> db.Balanced()
    ensures db.invoices == old(db.invoices) && db.invoiceItems == old(db.invoiceItems)
    ensures db.nextInvoiceId == old(db.nextInvoiceId)
    ensures var purchase := NewPurchase(n, old(db.nextPurchaseId));
      && outcome == Recorded(purchase, ItemRows(purchase.id, n.items))
      && db.purchases == old(db.purchases) + [purchase]
      && db.purchaseItems == old(db.purchaseItems) + ItemRows(purchase.id, n.items)
      && db.batches == ReceiveAll(old(db.batches), n.items)
      && db.nextPurchaseId == old(db.nextPurchaseId) + 1
  {
    var totalAmount := PurchaseTotal(n.items);
    var purchase := Purchase(db.nextPurchaseId, n.supplierId, n.date, n.voucherNo, n.invoiceNo,
                             n.paymentStatus, n.status, totalAmount);
    AppendPurchase(db.purchases, db.nextPurchaseId, purchase);
    db.purchases := db.purchases + [purchase];
    db.nextPurchaseId := db.nextPurchaseId + 1;

    ReceiveLines(db, purchase.id, n.items);
    outcome := Recorded(purchase, ItemRows(purchase.id, n.items));
    ReceiveAllStock(old(db.batches), n.items);
    if old(db.Balanced()) {
      PurchaseKeepsLedger(old(db.batches), old(db.purchaseItems), db.invoiceItems, purchase.id, n.items);
    }
  }

  /** PurchaseController::store. The ids of the existing suppliers and medicines
      stand for the `exists:` rules. */
  method Store(db: Database, req: PurchaseRequest, suppliers: set<nat>, medicines: set<nat>)
    returns (outcome: PurchaseOutcome)
    requires db.Valid()
    modifies db
    ensures db.Valid()
    ensures old(db.Balanced()) ==> db.Balanced()
    ensures db.invoices == old(db.invoices) && db.invoiceItems == old(db.invoiceItems)
    ensures db.nextInvoiceId == old(db.nextInvoiceId)
    ensures var n := Normalize(req);
      var rejection := PurchaseRejectionOf(n, suppliers, medicines);
      && (rejection.Some? ==>
            && outcome == Rejected(rejection.value)
            && db.batches == old(db.batches) && db.purchases == old(db.purchases)
            && db.purchaseItems == old(db.purchaseItems) && db.nextPurchaseId == old(db.nextPurchaseId))
      && (rejection.None? ==>
            var purchase := NewPurchase(n, old(db.nextPurchaseId));
            && outcome == Recorded(purchase, ItemRows(purchase.id, n.items))
            && db.purchases == old(db.purchases) + [purchase]
            && db.purchaseItems == old(db.purchaseItems) + ItemRows(purchase.id, n.items)
            && db.batches == ReceiveAll(old(db.batches), n.items)
            && db.nextPurchaseId == old(db.nextPurchaseId) + 1)
  {
    var n := Normalize(req);
    var rejection := PurchaseRejectionOf(n, suppliers, medicines);
    if rejection.Some? {
      return Rejected(rejection.value);
    }
    outcome := Record(db, n);
  }

  /** The purchases left after deleting the one with id `id`, in their order. */
  function WithoutPurchase(purchases: seq<Purchase>, id: nat): seq<Purchase> {
    if purchases == [] then []
    else if purchases[0].id == id then WithoutPurchase(purchases[1..], id)
    else [purchases[0]] + WithoutPurchase(purchases[1..], id)
  }

  /** Deleting removes exactly the purchases with that id. */
  lemma {:induction false} WithoutPurchaseMembers(purchases: seq<Purchase>, id: nat)
    ensures forall x :: x in WithoutPurchase(purchases, id) <==> x in purchases && x.id != id
  {
    if purchases != [] {
      WithoutPurchaseMembers(purchases[1..], id);
      assert forall x :: x in purchases <==> x == purchases[0] || x in purchases[1..];
    }
  }

  lemma HeadBeforeRest(purchases: seq<Purchase>, id: nat, next: nat)
    requires PurchaseIdsBelow(purchases, next) && purchases != []
    ensures forall t :: 0 <= t < |WithoutPurchase(purchases[1..], id)| ==>
      purchases[0].id < WithoutPurchase(purchases[1..], id)[t].id
  {
    var tail := purchases[1..];
    var rest := WithoutPurchase(tail, id);
    WithoutPurchaseMembers(tail, id);
    forall t | 0 <= t < |rest| ensures purchases[0].id < rest[t].id {
      assert rest[t] in tail;
      var u :| 0 <= u < |tail| && tail[u] == rest[t];
      assert purchases[u + 1] == rest[t];
    }
  }

  /** Deleting a purchase keeps the ids ascending and below the next id. */
  lemma {:induction false} WithoutPurchaseKeepsOrder(purchases: seq<Purchase>, id: nat, next: nat)
    requires PurchaseIdsBelow(purchases, next)
    ensures PurchaseIdsBelow(WithoutPurchase(purchases, id), next)
  {
    if purchases != [] {
      var rest := WithoutPurchase(purchases[1..], id);
      WithoutPurchaseKeepsOrder(purchases[1..], id, next);
      HeadBeforeRest(purchases, id, next);
      if purchases[0].id != id {
        var r := [purchases[0]] + rest;
        assert r == WithoutPurchase(purchases, id);
        forall k, l | 0 <= k < l < |r| ensures r[k].id < r[l].id {
          assert r[l] == rest[l - 1];
          if k > 0 {
            assert r[k] == rest[k - 1];
          }
        }
      }
    }
  }

  /** PurchaseController::destroy: the purchase row is deleted and no batch changes. */
  method Destroy(db: Database, purchaseId: nat) returns (found: bool)
    requires db.Valid()
    modifies db`purchases
    ensures db.Valid()
    ensures found <==> exists k :: 0 <= k < |old(db.purchases)| && old(db.purchases)[k].id == purchaseId
    ensures db.purchases == if found then WithoutPurchase(old(db.purchases), purchaseId) else old(db.purchases)
    ensures db.batches == old(db.batches)
  {
    found := exists k :: 0 <= k < |db.purchases| && db.purchases[k].id == purchaseId;
    if found {
      WithoutPurchaseKeepsOrder(db.purchases, purchaseId, db.nextPurchaseId);
      db.purchases := WithoutPurchase(db.purchases, purchaseId);
    }
  }
}

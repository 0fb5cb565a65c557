/** The sale endpoint, InvoiceController::store: request normalisation and
    validation, the invoice totals, and the transaction that creates the invoice
    and then, line by line in the order submitted, deducts the line's quantity
    from the medicine's batches first-expire-first-out and creates the invoice
    item. Insufficient stock for any line throws, and the transaction puts every
    table back as it was. Also InvoiceController::destroy, which leaves stock alone. */
module InvoiceController {
  import opened Common
  import opened Tables
  import opened Sorting
  import opened Fefo

  /** One entry of the request's `items` array. Prices are in cents. */
  datatype SaleLine = SaleLine(medicineId: nat, quantity: int, unitPrice: int)

  /** The request body. A missing or empty `discount` is None. */
  datatype SaleRequest = SaleRequest(
    customerId: nat, date: int, invoiceNo: string, paymentMethod: string,
    discount: Option<int>, items: seq<SaleLine>)

  /** The validation rule a request breaks (HTTP 422, nothing changed). */
  datatype Rejection =
    | UnknownCustomer
    | MissingInvoiceNo
    | DuplicateInvoiceNo
    | MissingPaymentMethod
    | NegativeDiscount
    | NoItems
    | UnknownMedicine(line: nat)
    | QuantityBelowOne(line: nat)
    | NegativeUnitPrice(line: nat)

  datatype SaleOutcome =
    | Created(invoice: Invoice, items: seq<InvoiceItem>)
    | Rejected(reason: Rejection)
    | InsufficientStock(medicineId: nat)

  /** `$request->discount ?: 0`: a missing or empty discount counts as 0. */
  function DiscountOf(d: Option<int>): int {
    if d.None? then 0 else d.value
  }

  predicate InvoiceNoTaken(invoices: seq<Invoice>, no: string) {
    exists k :: 0 <= k < |invoices| && invoices[k].invoiceNo == no
  }

  predicate LineValid(l: SaleLine, medicines: set<nat>) {
    l.medicineId in medicines && l.quantity >= 1 && l.unitPrice >= 0
  }

  /** Everything `$request->validate` demands of a sale, given the ids of the
      existing customers and medicines. */
  predicate SaleRequestValid(req: SaleRequest, invoices: seq<Invoice>, customers: set<nat>, medicines: set<nat>) {
    && req.customerId in customers
    && !Blank(req.invoiceNo)
    && !InvoiceNoTaken(invoices, req.invoiceNo)
    && !Blank(req.paymentMethod)
    && DiscountOf(req.discount) >= 0
    && |req.items| >= 1
    && forall k :: 0 <= k < |req.items| ==> LineValid(req.items[k], medicines)
  }

  /** The first bad line at or after position `from`. */
  function LineRejection(items: seq<SaleLine>, medicines: set<nat>, from: nat): (r: Option<Rejection>)
    requires from <= |items|
    ensures r.None? <==> forall k :: from <= k < |items| ==> LineValid(items[k], medicines)
    decreases |items| - from
  {
    if from == |items| then None
    else
      var l := items[from];
      if l.medicineId !in medicines then Some(UnknownMedicine(from))
      else if l.quantity < 1 then Some(QuantityBelowOne(from))
      else if l.unitPrice < 0 then Some(NegativeUnitPrice(from))
      else LineRejection(items, medicines, from + 1)
  }

  /** The first validation rule the request breaks, None when it passes. */
  function SaleRejection(req: SaleRequest, invoices: seq<Invoice>, customers: set<nat>, medicines: set<nat>)
    : (r: Option<Rejection>)
    ensures r.None? <==> SaleRequestValid(req, invoices, customers, medicines)
  {
    if req.customerId !in customers then Some(UnknownCustomer)
    else if Blank(req.invoiceNo) then Some(MissingInvoiceNo)
    else if InvoiceNoTaken(invoices, req.invoiceNo) then Some(DuplicateInvoiceNo)
    else if Blank(req.paymentMethod) then Some(MissingPaymentMethod)
    else if DiscountOf(req.discount) < 0 then Some(NegativeDiscount)
    else if |req.items| == 0 then Some(NoItems)
    else LineRejection(req.items, medicines, 0)
  }

  /** `required` refuses an invoice number or payment method that is blank
      after trimming, whatever the rest of the request holds. */
  lemma BlankFieldRejected(req: SaleRequest, invoices: seq<Invoice>, customers: set<nat>, medicines: set<nat>)
    requires Blank(req.invoiceNo) || Blank(req.paymentMethod)
    ensures SaleRejection(req, invoices, customers, medicines).Some?
  {
  }

  /** `total_amount`: the sum of quantity × unit_price over the lines. */
  function GrossTotal(items: seq<SaleLine>): int {
    if items == [] then 0
    else
      var last := items[|items| - 1];
      GrossTotal(items[..|items| - 1]) + last.quantity * last.unitPrice
  }

  /** The total of the lines for medicine `m`. */
  function Requested(items: seq<SaleLine>, m: nat): int {
    if items == [] then 0
    else
      var last := items[|items| - 1];
      Requested(items[..|items| - 1], m) + (if last.medicineId == m then last.quantity else 0)
  }

  /** The invoice_items row created for one line. */
  function ItemRow(invoiceId: nat, l: SaleLine): InvoiceItem {
    InvoiceItem(invoiceId, l.medicineId, l.quantity, l.unitPrice, l.quantity * l.unitPrice)
  }

  /** The invoice_items rows a sale creates, one per line in the order submitted. */
  function ItemRows(invoiceId: nat, items: seq<SaleLine>): (r: seq<InvoiceItem>)
    ensures |r| == |items|
    ensures forall k :: 0 <= k < |items| ==> r[k] == ItemRow(invoiceId, items[k])
  {
    if items == [] then []
    else ItemRows(invoiceId, items[..|items| - 1]) + [ItemRow(invoiceId, items[|items| - 1])]
  }

  /** The sum of `total_price` over invoice items. */
  function ItemsTotal(items: seq<InvoiceItem>): int {
    if items == [] then 0
    else ItemsTotal(items[..|items| - 1]) + items[|items| - 1].totalPrice
  }

  /** The invoice's `total_amount` is the sum of its items' `total_price`, and
      each line's `total_price` is its quantity × unit_price. */
  lemma {:induction false} ItemRowsTotal(invoiceId: nat, items: seq<SaleLine>)
    ensures ItemsTotal(ItemRows(invoiceId, items)) == GrossTotal(items)
    ensures forall k :: 0 <= k < |items| ==>
      ItemRows(invoiceId, items)[k].totalPrice == items[k].quantity * items[k].unitPrice
  {
    if items != [] {
      var r := ItemRows(invoiceId, items);
      ItemRowsTotal(invoiceId, items[..|items| - 1]);
      assert r[..|r| - 1] == ItemRows(invoiceId, items[..|items| - 1]);
    }
  }

  /** The items a sale records for medicine `m` add up to what its lines requested. */
  lemma {:induction false} ItemRowsSold(invoiceId: nat, items: seq<SaleLine>, m: nat)
    ensures SoldQty(ItemRows(invoiceId, items), m) == Requested(items, m)
  {
    if items != [] {
      var r := ItemRows(invoiceId, items);
      ItemRowsSold(invoiceId, items[..|items| - 1], m);
      assert r[..|r| - 1] == ItemRows(invoiceId, items[..|items| - 1]);
    }
  }

  /** With valid prices the gross total is never negative. */
  lemma {:induction false} GrossTotalNonNegative(items: seq<SaleLine>)
    requires forall k :: 0 <= k < |items| ==> items[k].quantity >= 1 && items[k].unitPrice >= 0
    ensures GrossTotal(items) >= 0
  {
    if items != [] {
      GrossTotalNonNegative(items[..|items| - 1]);
      var last := items[|items| - 1];
      assert last.quantity * last.unitPrice >= 0;
    }
  }

  /** The `foreach` that adds up `$totalAmount`. */
  method SaleTotal(items: seq<SaleLine>) returns (total: int)
    ensures total == GrossTotal(items)
  {
    total := 0;
    var i := 0;
    while i < |items|
      invariant 0 <= i <= |items|
      invariant total == GrossTotal(items[..i])
    {
      assert items[..i + 1][..i] == items[..i];
      total := total + items[i].quantity * items[i].unitPrice;
      i := i + 1;
    }
    assert items[..i] == items;
  }

  /** What allocating a whole sale's lines does to the batch table. */
  datatype Allocation = Allocated(batches: seq<Batch>) | ShortOf(medicineId: nat)

  /** The lines deducted one after another, each against the table the previous
      ones left behind; the first line that cannot be covered stops the sale. */
  function Allocate(bs: seq<Batch>, items: seq<SaleLine>, nulls: NullOrder): Allocation {
    if items == [] then Allocated(bs)
    else
      var last := items[|items| - 1];
      match Allocate(bs, items[..|items| - 1], nulls)
      case ShortOf(m) => ShortOf(m)
      case Allocated(cur) =>
        match Deduction(cur, last.medicineId, last.quantity, nulls)
        case None => ShortOf(last.medicineId)
        case Some(next) => Allocated(next)
  }

  predicate QuantitiesPositive(items: seq<SaleLine>) {
    forall k :: 0 <= k < |items| ==> items[k].quantity >= 1
  }

  /** A sale that goes through takes from each medicine exactly what its lines
      requested, leaves no batch negative, and changes no batch number or expiry
      date. */
  lemma {:induction false} AllocateConserves(bs: seq<Batch>, items: seq<SaleLine>, nulls: NullOrder)
    requires NonNegative(bs) && QuantitiesPositive(items)
    ensures Allocate(bs, items, nulls).Allocated? ==>
      var r := Allocate(bs, items, nulls).batches;
      && |r| == |bs|
      && NonNegative(r)
      && (forall i :: 0 <= i < |bs| ==> SameRow(r[i], bs[i]))
      && (forall m: nat :: StockOf(r, m) == StockOf(bs, m) - Requested(items, m))
  {
    if items != [] {
      var prefix := items[..|items| - 1];
      var last := items[|items| - 1];
      AllocateConserves(bs, prefix, nulls);
      var a := Allocate(bs, prefix, nulls);
      if a.Allocated? {
        var cur := a.batches;
        DeductionCorrect(cur, last.medicineId, last.quantity, nulls);
        if Deduction(cur, last.medicineId, last.quantity, nulls).Some? {
          var r := Deduction(cur, last.medicineId, last.quantity, nulls).value;
          forall m: nat ensures StockOf(r, m) == StockOf(bs, m) - Requested(items, m) {
            if m != last.medicineId {
              DeductionOtherMedicines(cur, last.medicineId, last.quantity, nulls, m);
            }
          }
        }
      }
    }
  }

  lemma {:induction false} RequestedMonotone(items: seq<SaleLine>, m: nat)
    requires QuantitiesPositive(items) && items != []
    ensures Requested(items[..|items| - 1], m) <= Requested(items, m)
  {
  }

  /** No oversell, in both directions: a sale goes through exactly when, for every
      medicine, the lines asking for it together ask for no more than its stock,
      repeated lines for one medicine drawing on the same stock. When it fails,
      the medicine it names is one whose lines together ask for more than there is. */
  lemma {:induction false} AllocateSucceedsIff(bs: seq<Batch>, items: seq<SaleLine>, nulls: NullOrder)
    requires NonNegative(bs) && QuantitiesPositive(items)
    ensures Allocate(bs, items, nulls).Allocated? <==>
      forall m: nat :: Requested(items, m) <= StockOf(bs, m)
    ensures Allocate(bs, items, nulls).ShortOf? ==>
      Requested(items, Allocate(bs, items, nulls).medicineId) > StockOf(bs, Allocate(bs, items, nulls).medicineId)
  {
    AllocateConserves(bs, items, nulls);
    if Allocate(bs, items, nulls).Allocated? {
      var r := Allocate(bs, items, nulls).batches;
      forall m: nat ensures Requested(items, m) <= StockOf(bs, m) {
        StockOfNonNegative(r, m);
      }
    }
    if items != [] {
      var prefix := items[..|items| - 1];
      var last := items[|items| - 1];
      AllocateSucceedsIff(bs, prefix, nulls);
      AllocateConserves(bs, prefix, nulls);
      forall m: nat ensures Requested(prefix, m) <= Requested(items, m) {
        RequestedMonotone(items, m);
      }
      var a := Allocate(bs, prefix, nulls);
      if a.Allocated? {
        DeductionCorrect(a.batches, last.medicineId, last.quantity, nulls);
      }
      if (forall m: nat :: Requested(items, m) <= StockOf(bs, m)) {
        assert Requested(items, last.medicineId) <= StockOf(bs, last.medicineId);
      }
    }
  }

  /** Once a prefix of the lines runs short, the whole sale fails naming the same medicine. */
  lemma {:induction false} AllocateShortPersists(bs: seq<Batch>, items: seq<SaleLine>, k: nat, nulls: NullOrder)
    requires k <= |items|
    requires Allocate(bs, items[..k], nulls).ShortOf?
    ensures Allocate(bs, items, nulls) == Allocate(bs, items[..k], nulls)
    decreases |items| - k
  {
    if k < |items| {
      assert items[..|items| - 1][..k] == items[..k];
      AllocateShortPersists(bs, items[..|items| - 1], k, nulls);
      assert items[..|items| - 1][..k] == items[..k];
    } else {
      assert items[..k] == items;
    }
  }

  /** Two lines of 6 against one batch of 10: the first would leave 4, the second
      runs short, so the whole sale fails. */
  lemma RepeatedMedicineOversold(nulls: NullOrder)
    ensures Allocate([Batch(1, Some("B1"), Some(100), 10)],
                     [SaleLine(1, 6, 500), SaleLine(1, 6, 500)], nulls) == ShortOf(1)
  {
    var bs := [Batch(1, Some("B1"), Some(100), 10)];
    var items := [SaleLine(1, 6, 500), SaleLine(1, 6, 500)];
    assert StockOf(bs, 1) == 10;
    assert items[..1][..0] == [];
    assert Requested(items, 1) == 12;
    AllocateSucceedsIff(bs, items, nulls);
  }

  /** The rows listed from position `i` on still hold what was fetched. */
  ghost predicate Unsaved(cur: seq<Batch>, fetched: seq<Batch>, stocks: seq<nat>, i: nat) {
    && |cur| == |fetched|
    && (forall t :: 0 <= t < |stocks| ==> stocks[t] < |fetched|)
    && i <= |stocks|
    && forall t :: i <= t < |stocks| ==> cur[stocks[t]] == fetched[stocks[t]]
  }

  lemma SaveOne(cur: seq<Batch>, fetched: seq<Batch>, stocks: seq<nat>, i: nat, need: int, b: Batch, rest: int)
    requires Unsaved(cur, fetched, stocks, i) && Distinct(stocks) && i < |stocks| && need > 0
    requires b == fetched[stocks[i]].(quantity := if fetched[stocks[i]].quantity >= need then fetched[stocks[i]].quantity - need else 0)
    requires rest == if fetched[stocks[i]].quantity >= need then 0 else need - fetched[stocks[i]].quantity
    ensures Unsaved(cur[stocks[i] := b], fetched, stocks, i + 1)
    ensures Drain(cur, stocks[i..], need) == Drain(cur[stocks[i] := b], stocks[i + 1..], rest)
  {
    assert stocks[i..][0] == stocks[i] && stocks[i..][1..] == stocks[i + 1..];
    DrainStep(cur, stocks[i..], need, b, rest);
    forall t | i < t < |stocks| ensures cur[stocks[i] := b][stocks[t]] == fetched[stocks[t]] {
      assert stocks[t] != stocks[i];
    }
  }

  /** The `foreach ($stocks as $stock)` loop: walks the fetched rows in the order
      listed, emptying each one and cutting the last by what is still needed, and
      stops once nothing is needed. */
  method DrainStocks(db: Database, stocks: seq<nat>, need: int)
    requires forall t :: 0 <= t < |stocks| ==> stocks[t] < |db.batches|
    requires Distinct(stocks)
    modifies db`batches
    ensures db.batches == Drain(old(db.batches), stocks, need)
  {
    var fetched := db.batches;
    var qtyNeeded := need;
    var i := 0;
    while i < |stocks|
      invariant 0 <= i <= |stocks|
      invariant Unsaved(db.batches, fetched, stocks, i)
      invariant Drain(db.batches, stocks[i..], qtyNeeded) == Drain(fetched, stocks, need)
    {
      if qtyNeeded <= 0 {
        break;
      }
      var idx := stocks[i];
      var stock := fetched[idx];
      ghost var before, needBefore := db.batches, qtyNeeded;
      if stock.quantity >= qtyNeeded {
        db.batches := db.batches[idx := stock.(quantity := stock.quantity - qtyNeeded)];
        qtyNeeded := 0;
      } else {
        qtyNeeded := qtyNeeded - stock.quantity;
        db.batches := db.batches[idx := stock.(quantity := 0)];
      }
      SaveOne(before, fetched, stocks, i, needBefore, db.batches[idx], qtyNeeded);
      i := i + 1;
    }
  }

  /** One line's part of the transaction: the FEFO query, the availability check
      and the deduction loop. Returns false, changing nothing, where the source
      throws. */
  method DeductStock(db: Database, medicineId: nat, need: int, nulls: NullOrder) returns (ok: bool)
    modifies db`batches
    ensures ok <==> Deduction(old(db.batches), medicineId, need, nulls).Some?
    ensures db.batches ==
      if ok then Deduction(old(db.batches), medicineId, need, nulls).value else old(db.batches)
  {
    var stocks := FefoOrder(db.batches, medicineId, nulls);
    FefoOrderListsEligible(db.batches, medicineId, nulls);
    var availableQty := SumQty(db.batches, stocks);
    if availableQty < need {
      return false;
    }
    DrainStocks(db, stocks, need);
    ok := true;
  }

  /** Taking one more line: its deduction runs on the table the earlier lines left. */
  lemma NextLine(bs: seq<Batch>, items: seq<SaleLine>, k: nat, nulls: NullOrder, invoiceId: nat, cur: seq<Batch>)
    requires k < |items| && Allocate(bs, items[..k], nulls) == Allocated(cur)
    ensures var d := Deduction(cur, items[k].medicineId, items[k].quantity, nulls);
      Allocate(bs, items[..k + 1], nulls) == if d.Some? then Allocated(d.value) else ShortOf(items[k].medicineId)
    ensures ItemRows(invoiceId, items[..k + 1]) == ItemRows(invoiceId, items[..k]) + [ItemRow(invoiceId, items[k])]
  {
    assert items[..k + 1][..k] == items[..k];
  }

  /** One pass of the per-line loop: line `k` is deducted from the table the
      earlier lines left (`bs` is the table before the first line) and, when it
      is covered, recorded as an invoice item; when it is not, the whole sale
      runs short of its medicine. */
  method SellOne(db: Database, invoiceId: nat, items: seq<SaleLine>, k: nat, nulls: NullOrder,
                 ghost bs: seq<Batch>, ghost recorded: seq<InvoiceItem>)
    returns (ok: bool)
    requires k < |items|
    requires Allocate(bs, items[..k], nulls) == Allocated(db.batches)
    requires db.invoiceItems == recorded + ItemRows(invoiceId, items[..k])
    modifies db`batches, db`invoiceItems
    ensures ok ==> Allocate(bs, items[..k + 1], nulls) == Allocated(db.batches)
    ensures ok ==> db.invoiceItems == recorded + ItemRows(invoiceId, items[..k + 1])
    ensures !ok ==> Allocate(bs, items, nulls) == ShortOf(items[k].medicineId)
  {
    var line := items[k];
    NextLine(bs, items, k, nulls, invoiceId, db.batches);
    ok := DeductStock(db, line.medicineId, line.quantity, nulls);
    if !ok {
      AllocateShortPersists(bs, items, k + 1, nulls);
      return;
    }
    var item := InvoiceItem(invoiceId, line.medicineId, line.quantity, line.unitPrice,
                            line.quantity * line.unitPrice);
    db.invoiceItems := db.invoiceItems + [item];
  }

  /** The `foreach ($request->items as $item)` loop inside the transaction: each
      line is deducted from the table the earlier lines left and then recorded as
      an invoice item. Returns the medicine of the first line that cannot be
      covered, where the source throws; the caller rolls back. */
  method SellLines(db: Database, invoiceId: nat, items: seq<SaleLine>, nulls: NullOrder)
    returns (shortOf: Option<nat>)
    modifies db`batches, db`invoiceItems
    ensures shortOf.Some? ==> Allocate(old(db.batches), items, nulls) == ShortOf(shortOf.value)
    ensures shortOf.None? ==> Allocate(old(db.batches), items, nulls) == Allocated(db.batches)
    ensures shortOf.None? ==> db.invoiceItems == old(db.invoiceItems) + ItemRows(invoiceId, items)
  {
    ghost var bs, recorded := db.batches, db.invoiceItems;
    var k := 0;
    while k < |items|
      invariant 0 <= k <= |items|
      invariant Allocate(bs, items[..k], nulls) == Allocated(db.batches)
      invariant db.invoiceItems == recorded + ItemRows(invoiceId, items[..k])
    {
      var ok := SellOne(db, invoiceId, items, k, nulls, bs, recorded);
      if !ok {
        return Some(items[k].medicineId);
      }
      k := k + 1;
    }
    assert items[..k] == items;
    shortOf := None;
  }

  /** Recording a sale that went through keeps the batch table valid and the
      ledger balanced: stock = received - sold, for every medicine. */
  lemma SaleKeepsLedger(bs: seq<Batch>, received: seq<PurchaseItem>, sold: seq<InvoiceItem>,
                        invoiceId: nat, items: seq<SaleLine>, nulls: NullOrder)
    requires NonNegative(bs) && UniqueBatchKeys(bs) && QuantitiesPositive(items)
    requires Allocate(bs, items, nulls).Allocated?
    ensures var r := Allocate(bs, items, nulls).batches;
      && NonNegative(r) && UniqueBatchKeys(r)
      && ((forall m: nat :: StockOf(bs, m) == ReceivedQty(received, m) - SoldQty(sold, m)) ==>
          (forall m: nat :: StockOf(r, m) == ReceivedQty(received, m) - SoldQty(sold + ItemRows(invoiceId, items), m)))
  {
    var r := Allocate(bs, items, nulls).batches;
    AllocateConserves(bs, items, nulls);
    forall m: nat ensures SoldQty(sold + ItemRows(invoiceId, items), m) == SoldQty(sold, m) + Requested(items, m) {
      SoldQtyConcat(sold, ItemRows(invoiceId, items), m);
      ItemRowsSold(invoiceId, items, m);
    }
    forall i, j | 0 <= i < j < |r|
      ensures r[i].medicineId != r[j].medicineId || r[i].batchNo != r[j].batchNo
    {
      assert SameRow(r[i], bs[i]) && SameRow(r[j], bs[j]);
    }
  }

  /** A new invoice with the next id and an unused number keeps the ids ascending
      and the numbers unique. */
  lemma AppendInvoice(invoices: seq<Invoice>, next: nat, invoice: Invoice)
    requires InvoiceIdsBelow(invoices, next) && UniqueInvoiceNos(invoices)
    requires invoice.id == next && !InvoiceNoTaken(invoices, invoice.invoiceNo)
    ensures InvoiceIdsBelow(invoices + [invoice], next + 1)
    ensures UniqueInvoiceNos(invoices + [invoice])
  {
  }

  /** The invoice row a valid sale creates. */
  function NewInvoice(req: SaleRequest, id: nat): (r: Invoice)
    ensures r.id == id && r.customerId == req.customerId && r.invoiceNo == req.invoiceNo
    ensures r.totalAmount == ItemsTotal(ItemRows(id, req.items))
    ensures req.discount.None? ==> r.discount == 0
    ensures req.discount.Some? ==> r.discount == req.discount.value
    ensures r.netTotal == r.totalAmount - r.discount
  {
    ItemRowsTotal(id, req.items);
    var gross := GrossTotal(req.items);
    var discount := DiscountOf(req.discount);
    Invoice(id, req.customerId, req.date, req.invoiceNo, gross, discount, gross - discount, req.paymentMethod)
  }

  /** The `DB::transaction` closure of InvoiceController::store, run on a request
      that passed validation: a line the stock cannot cover rolls every table back;
      otherwise the invoice, its items and the drawn-down batches are committed. */
  method Transact(db: Database, req: SaleRequest, nulls: NullOrder) returns (outcome: SaleOutcome)
    requires db.Valid()
    requires QuantitiesPositive(req.items) && !InvoiceNoTaken(db.invoices, req.invoiceNo)
    modifies db
    ensures db.Valid()
    ensures old(db.Balanced()) ==> db.Balanced()
    ensures db.purchases == old(db.purchases) && db.purchaseItems == old(db.purchaseItems)
    ensures db.nextPurchaseId == old(db.nextPurchaseId)
    ensures var alloc := Allocate(old(db.batches), req.items, nulls);
      && (alloc.ShortOf? ==>
            && outcome == InsufficientStock(alloc.medicineId)
            && db.batches == old(db.batches) && db.invoices == old(db.invoices)
            && db.invoiceItems == old(db.invoiceItems) && db.nextInvoiceId == old(db.nextInvoiceId))
      && (alloc.Allocated? ==>
            var invoice := NewInvoice(req, old(db.nextInvoiceId));
            && outcome == Created(invoice, ItemRows(invoice.id, req.items))
            && db.batches == alloc.batches
            && db.invoices == old(db.invoices) + [invoice]
            && db.invoiceItems == old(db.invoiceItems) + ItemRows(invoice.id, req.items)
            && db.nextInvoiceId == old(db.nextInvoiceId) + 1)
  {
    // What a rollback restores.
    var savedBatches, savedInvoices, savedItems, savedNextId :=
      db.batches, db.invoices, db.invoiceItems, db.nextInvoiceId;

    var totalAmount := SaleTotal(req.items);
    var discount := DiscountOf(req.discount);
    var invoice := Invoice(db.nextInvoiceId, req.customerId, req.date, req.invoiceNo,
                           totalAmount, discount, totalAmount - discount, req.paymentMethod);
    assert invoice == NewInvoice(req, savedNextId);
    db.invoices := db.invoices + [invoice];
    db.nextInvoiceId := db.nextInvoiceId + 1;

    var shortOf := SellLines(db, invoice.id, req.items, nulls);
    if shortOf.Some? {
      // The exception unwinds the transaction.
      db.batches, db.invoices, db.invoiceItems, db.nextInvoiceId :=
        savedBatches, savedInvoices, savedItems, savedNextId;
      return InsufficientStock(shortOf.value);
    }
    outcome := Created(invoice, ItemRows(invoice.id, req.items));
    SaleKeepsLedger(savedBatches, db.purchaseItems, savedItems, invoice.id, req.items, nulls);
    AppendInvoice(savedInvoices, savedNextId, invoice);
  }

  /** InvoiceController::store. The ids of the existing customers and medicines
      stand for the `exists:` rules; `nulls` is the database's placement of null
      expiry dates. */
  method Store(db: Database, req: SaleRequest, customers: set<nat>, medicines: set<nat>, nulls: NullOrder)
    returns (outcome: SaleOutcome)
    requires db.Valid()
    modifies db
    ensures db.Valid()
    ensures old(db.Balanced()) ==> db.Balanced()
    ensures db.purchases == old(db.purchases) && db.purchaseItems == old(db.purchaseItems)
    ensures db.nextPurchaseId == old(db.nextPurchaseId)
    ensures !outcome.Created? ==>
      && db.batches == old(db.batches) && db.invoices == old(db.invoices)
      && db.invoiceItems == old(db.invoiceItems) && db.nextInvoiceId == old(db.nextInvoiceId)
    ensures SaleRejection(req, old(db.invoices), customers, medicines).Some? ==>
      outcome == Rejected(SaleRejection(req, old(db.invoices), customers, medicines).value)
    ensures SaleRejection(req, old(db.invoices), customers, medicines).None? ==>
      var alloc := Allocate(old(db.batches), req.items, nulls);
      && (alloc.ShortOf? ==> outcome == InsufficientStock(alloc.medicineId))
      && (alloc.Allocated? ==>
            var invoice := NewInvoice(req, old(db.nextInvoiceId));
            && outcome == Created(invoice, ItemRows(invoice.id, req.items))
            && db.batches == alloc.batches
            && db.invoices == old(db.invoices) + [invoice]
            && db.invoiceItems == old(db.invoiceItems) + ItemRows(invoice.id, req.items)
            && db.nextInvoiceId == old(db.nextInvoiceId) + 1)
  {
    var rejection := SaleRejection(req, db.invoices, customers, medicines);
    if rejection.Some? {
      return Rejected(rejection.value);
    }
    outcome := Transact(db, req, nulls);
  }

  /** The invoices left after deleting the one with id `id`, in their order. */
  function WithoutInvoice(invoices: seq<Invoice>, id: nat): seq<Invoice> {
    if invoices == [] then []
    else if invoices[0].id == id then WithoutInvoice(invoices[1..], id)
    else [invoices[0]] + WithoutInvoice(invoices[1..], id)
  }

  /** Deleting removes exactly the invoices with that id. */
  lemma {:induction false} WithoutInvoiceMembers(invoices: seq<Invoice>, id: nat)
    ensures forall x :: x in WithoutInvoice(invoices, id) <==> x in invoices && x.id != id
  {
    if invoices != [] {
      WithoutInvoiceMembers(invoices[1..], id);
      assert forall x :: x in invoices <==> x == invoices[0] || x in invoices[1..];
    }
  }

  lemma HeadBeforeRest(invoices: seq<Invoice>, id: nat, next: nat)
    requires InvoiceIdsBelow(invoices, next) && UniqueInvoiceNos(invoices) && invoices != []
    ensures forall t :: 0 <= t < |WithoutInvoice(invoices[1..], id)| ==>
      && invoices[0].id < WithoutInvoice(invoices[1..], id)[t].id
      && invoices[0].invoiceNo != WithoutInvoice(invoices[1..], id)[t].invoiceNo
  {
    var tail := invoices[1..];
    var rest := WithoutInvoice(tail, id);
    WithoutInvoiceMembers(tail, id);
    forall t | 0 <= t < |rest|
      ensures invoices[0].id < rest[t].id && invoices[0].invoiceNo != rest[t].invoiceNo
    {
      assert rest[t] in tail;
      var u :| 0 <= u < |tail| && tail[u] == rest[t];
      assert invoices[u + 1] == rest[t];
    }
  }

  /** Deleting an invoice keeps the ids ascending and below the next id, and the
      invoice numbers unique. */
  lemma {:induction false} WithoutInvoiceKeepsOrder(invoices: seq<Invoice>, id: nat, next: nat)
    requires InvoiceIdsBelow(invoices, next) && UniqueInvoiceNos(invoices)
    ensures InvoiceIdsBelow(WithoutInvoice(invoices, id), next)
    ensures UniqueInvoiceNos(WithoutInvoice(invoices, id))
  {
    if invoices != [] {
      var tail := invoices[1..];
      var rest := WithoutInvoice(tail, id);
      WithoutInvoiceKeepsOrder(tail, id, next);
      HeadBeforeRest(invoices, id, next);
      if invoices[0].id != id {
        var r := [invoices[0]] + rest;
        assert r == WithoutInvoice(invoices, id);
        forall k, l | 0 <= k < l < |r| ensures r[k].id < r[l].id && r[k].invoiceNo != r[l].invoiceNo {
          if k > 0 {
            assert r[k] == rest[k - 1] && r[l] == rest[l - 1];
          } else {
            assert r[l] == rest[l - 1];
          }
        }
      }
    }
  }

  /** InvoiceController::destroy: the invoice row is deleted and no batch changes. */
  method Destroy(db: Database, invoiceId: nat) returns (found: bool)
    requires db.Valid()
    modifies db`invoices
    ensures db.Valid()
    ensures found <==> exists k :: 0 <= k < |old(db.invoices)| && old(db.invoices)[k].id == invoiceId
    ensures db.invoices == if found then WithoutInvoice(old(db.invoices), invoiceId) else old(db.invoices)
    ensures db.batches == old(db.batches)
  {
    found := exists k :: 0 <= k < |db.invoices| && db.invoices[k].id == invoiceId;
    if found {
      WithoutInvoiceKeepsOrder(db.invoices, invoiceId, db.nextInvoiceId);
      db.invoices := WithoutInvoice(db.invoices, invoiceId);
    }
  }
}

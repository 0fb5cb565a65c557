/** The rows of the tables the core reads and writes (medicine_stocks, invoices,
    invoice_items, purchases, purchase_items, medicines), the per-medicine sums over
    them, and the database object that holds the tables. Money is in integer cents,
    dates are integer day numbers. */
module Tables {
  import opened Common

  /** A medicine_stocks row: one batch of one medicine. */
  datatype Batch = Batch(medicineId: nat, batchNo: Option<string>, expiry: Option<int>, quantity: int)

  datatype Invoice = Invoice(
    id: nat, customerId: nat, date: int, invoiceNo: string,
    totalAmount: int, discount: int, netTotal: int, paymentMethod: string)

  datatype InvoiceItem = InvoiceItem(
    invoiceId: nat, medicineId: nat, quantity: int, unitPrice: int, totalPrice: int)

  datatype Purchase = Purchase(
    id: nat, supplierId: nat, date: int, voucherNo: Option<string>, invoiceNo: Option<string>,
    paymentStatus: string, status: string, totalAmount: int)

  datatype PurchaseItem = PurchaseItem(
    purchaseId: nat, medicineId: nat, quantity: int, costPrice: int, totalPrice: int,
    expiry: Option<int>, batchNo: Option<string>)

  datatype Medicine = Medicine(id: nat, name: string, sku: string, unit: string, price: Option<int>)

  /** The quantity that row `b` contributes to medicine `m`'s stock. */
  function Share(b: Batch, m: nat): int {
    if b.medicineId == m then b.quantity else 0
  }

  function StockFrom(bs: seq<Batch>, m: nat, i: nat): int
    requires i <= |bs|
    decreases |bs| - i
  {
    if i == |bs| then 0 else Share(bs[i], m) + StockFrom(bs, m, i + 1)
  }

  /** `SUM(quantity)` over medicine `m`'s batch rows, 0 when it has none. */
  function StockOf(bs: seq<Batch>, m: nat): int {
    StockFrom(bs, m, 0)
  }

  /** No batch quantity is negative. */
  predicate NonNegative(bs: seq<Batch>) {
    forall i :: 0 <= i < |bs| ==> bs[i].quantity >= 0
  }

  /** At most one row per (medicine_id, batch_no), a null batch number being a key like any other. */
  predicate UniqueBatchKeys(bs: seq<Batch>) {
    forall i, j :: 0 <= i < j < |bs| ==>
      bs[i].medicineId != bs[j].medicineId || bs[i].batchNo != bs[j].batchNo
  }

  lemma {:induction false} StockFromNonNegative(bs: seq<Batch>, m: nat, i: nat)
    requires i <= |bs| && NonNegative(bs)
    ensures StockFrom(bs, m, i) >= 0
    decreases |bs| - i
  {
    if i < |bs| {
      StockFromNonNegative(bs, m, i + 1);
    }
  }

  /** With no negative rows, no medicine has negative stock. */
  lemma StockOfNonNegative(bs: seq<Batch>, m: nat)
    requires NonNegative(bs)
    ensures StockOf(bs, m) >= 0
  {
    StockFromNonNegative(bs, m, 0);
  }

  lemma {:induction false} StockFromUpdate(bs: seq<Batch>, j: nat, b: Batch, m: nat, i: nat)
    requires i <= j < |bs|
    ensures StockFrom(bs[j := b], m, i) == StockFrom(bs, m, i) - Share(bs[j], m) + Share(b, m)
    decreases |bs| - i
  {
    if i < j {
      StockFromUpdate(bs, j, b, m, i + 1);
    } else {
      StockFromFrame(bs, bs[j := b], m, i + 1);
    }
  }

  /** Rewriting one row changes a medicine's stock by the difference of that row's shares. */
  lemma StockOfUpdate(bs: seq<Batch>, j: nat, b: Batch, m: nat)
    requires j < |bs|
    ensures StockOf(bs[j := b], m) == StockOf(bs, m) - Share(bs[j], m) + Share(b, m)
  {
    StockFromUpdate(bs, j, b, m, 0);
  }

  lemma {:induction false} StockFromAppend(bs: seq<Batch>, b: Batch, m: nat, i: nat)
    requires i <= |bs|
    ensures StockFrom(bs + [b], m, i) == StockFrom(bs, m, i) + Share(b, m)
    decreases |bs| - i
  {
    if i < |bs| {
      StockFromAppend(bs, b, m, i + 1);
    }
  }

  /** Appending a row adds that row's share. */
  lemma StockOfAppend(bs: seq<Batch>, b: Batch, m: nat)
    ensures StockOf(bs + [b], m) == StockOf(bs, m) + Share(b, m)
  {
    StockFromAppend(bs, b, m, 0);
  }

  lemma {:induction false} StockFromFrame(bs: seq<Batch>, cs: seq<Batch>, m: nat, i: nat)
    requires |bs| == |cs| && i <= |bs|
    requires forall k :: i <= k < |bs| ==> Share(bs[k], m) == Share(cs[k], m)
    ensures StockFrom(bs, m, i) == StockFrom(cs, m, i)
    decreases |bs| - i
  {
    if i < |bs| {
      StockFromFrame(bs, cs, m, i + 1);
    }
  }

  /** Two tables whose rows give `m` the same shares give it the same stock. */
  lemma StockOfFrame(bs: seq<Batch>, cs: seq<Batch>, m: nat)
    requires |bs| == |cs|
    requires forall k :: 0 <= k < |bs| ==> Share(bs[k], m) == Share(cs[k], m)
    ensures StockOf(bs, m) == StockOf(cs, m)
  {
    StockFromFrame(bs, cs, m, 0);
  }

  /** `SUM(quantity)` of medicine `m`'s invoice items. */
  function SoldQty(items: seq<InvoiceItem>, m: nat): int {
    if items == [] then 0
    else
      var last := items[|items| - 1];
      SoldQty(items[..|items| - 1], m) + (if last.medicineId == m then last.quantity else 0)
  }

  lemma {:induction false} SoldQtyConcat(a: seq<InvoiceItem>, b: seq<InvoiceItem>, m: nat)
    ensures SoldQty(a + b, m) == SoldQty(a, m) + SoldQty(b, m)
    decreases |b|
  {
    if b == [] {
      assert a + b == a;
    } else {
      assert (a + b)[..|a + b| - 1] == a + b[..|b| - 1];
      SoldQtyConcat(a, b[..|b| - 1], m);
    }
  }

  /** `SUM(quantity)` of medicine `m`'s purchase items. */
  function ReceivedQty(items: seq<PurchaseItem>, m: nat): int {
    if items == [] then 0
    else
      var last := items[|items| - 1];
      ReceivedQty(items[..|items| - 1], m) + (if last.medicineId == m then last.quantity else 0)
  }

  lemma {:induction false} ReceivedQtyConcat(a: seq<PurchaseItem>, b: seq<PurchaseItem>, m: nat)
    ensures ReceivedQty(a + b, m) == ReceivedQty(a, m) + ReceivedQty(b, m)
    decreases |b|
  {
    if b == [] {
      assert a + b == a;
    } else {
      assert (a + b)[..|a + b| - 1] == a + b[..|b| - 1];
      ReceivedQtyConcat(a, b[..|b| - 1], m);
    }
  }

  /** Auto-increment ids: ascending in insertion order and below the next id to hand out. */
  predicate InvoiceIdsBelow(invoices: seq<Invoice>, next: nat) {
    && (forall k :: 0 <= k < |invoices| ==> invoices[k].id < next)
    && (forall k, l :: 0 <= k < l < |invoices| ==> invoices[k].id < invoices[l].id)
  }

  predicate PurchaseIdsBelow(purchases: seq<Purchase>, next: nat) {
    && (forall k :: 0 <= k < |purchases| ==> purchases[k].id < next)
    && (forall k, l :: 0 <= k < l < |purchases| ==> purchases[k].id < purchases[l].id)
  }

  /** The unique index on invoices.invoice_no. */
  predicate UniqueInvoiceNos(invoices: seq<Invoice>) {
    forall k, l :: 0 <= k < l < |invoices| ==> invoices[k].invoiceNo != invoices[l].invoiceNo
  }

  /** Rows `b` and `c` differ at most in their quantity. */
  predicate SameRow(b: Batch, c: Batch) {
    b.medicineId == c.medicineId && b.batchNo == c.batchNo && b.expiry == c.expiry
  }

  /** The database: the tables the controllers change, each a sequence of rows
      in insertion order, and the next auto-increment ids. */
  class Database {
    var batches: seq<Batch>
    var invoices: seq<Invoice>
    var invoiceItems: seq<InvoiceItem>
    var purchases: seq<Purchase>
    var purchaseItems: seq<PurchaseItem>
    var nextInvoiceId: nat
    var nextPurchaseId: nat

    ghost predicate Valid()
      reads this
    {
      && NonNegative(batches)
      && UniqueBatchKeys(batches)
      && InvoiceIdsBelow(invoices, nextInvoiceId)
      && UniqueInvoiceNos(invoices)
      && PurchaseIdsBelow(purchases, nextPurchaseId)
    }

    /** Stock is conserved: every medicine holds what was received minus what was sold. */
    ghost predicate Balanced()
      reads this
    {
      forall m: nat :: StockOf(batches, m) == ReceivedQty(purchaseItems, m) - SoldQty(invoiceItems, m)
    }

    constructor ()
      ensures Valid() && Balanced()
      ensures batches == [] && invoices == [] && invoiceItems == []
      ensures purchases == [] && purchaseItems == []
      ensures nextInvoiceId == 1 && nextPurchaseId == 1
    {
      batches, invoices, invoiceItems := [], [], [];
      purchases, purchaseItems := [], [];
      nextInvoiceId, nextPurchaseId := 1, 1;
    }
  }
}

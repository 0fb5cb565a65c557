# Pharmacy stock ledger, modelled in Dafny

This project models the stock ledger at the centre of a Laravel pharmacy
inventory backend, and the reports built on it.

- **Sale** (`InvoiceController::store`). The request is validated and the
  invoice totals are computed. Inside one database transaction the invoice is
  created. Then each line, in the order submitted, re-reads its medicine's
  batches that still hold stock, sorted by expiry date. The line fails when
  those batches hold less than it asks for. Otherwise it empties batches in
  that order and cuts the last one by the remainder, and its invoice item is
  created. A failing line throws, and the transaction puts every table back.
- **Purchase** (`PurchaseController::store`). Blank voucher numbers, invoice
  numbers and batch numbers become null. The request is validated and the
  total is computed. The purchase is recorded. Then, line by line, the
  line's purchase item is created and the stock row for its (medicine, batch
  number) pair is increased, or created when there is none.
- **Deletion** (`destroy` on either controller) removes the parent row and
  leaves stock alone.
- **Reports** (`ReportController`). These are the sales and purchases lists
  for a date range, and the stock card of one medicine: its opening balance
  and its dated stock-in and stock-out movements. They also include the
  inventory valuation and the list of batches about to expire.
- **Running balance** on the Reports page (`frontend/src/pages/Reports.jsx`),
  printed beside each stock-card row.

The database is the class `Tables.Database`. It has one `seq` field per table,
in insertion order, plus the next auto-increment ids. The controllers' actions
are methods that change it:

- `InvoiceController.Store` and `PurchaseController.Store` state the new
  contents of every table. Their loops are separate methods with loop
  invariants: `SaleTotal`, `SellLines` and `DrainStocks` for a sale,
  `PurchaseTotal` and `ReceiveLines` for a purchase.
- A sale that runs short restores a snapshot taken when the transaction
  began (`InvoiceController.Transact`, the body of `DB::transaction`).
- Both `Store` methods keep `Database.Valid()`: no negative batch, one row
  per (medicine, batch number), ascending ids and unique invoice numbers.
- Both `Store` methods also keep `Database.Balanced()`: every medicine's
  stock equals what was received minus what was sold.

Each loop is proved against a specification function:

- `Fefo.Drain` for the FEFO loop, with `Fefo.Deduction` for a whole line;
- `InvoiceController.Allocate` for the per-line loop;
- `PurchaseController.ReceiveLine` / `ReceiveAll` for the receipt loop.

The lemmas beside them say what the source promises.

Conventions:

- Money is integer cents and dates are integer day numbers.
- "Now", the expiry threshold and the report date defaults are parameters.
- PHP's `?:` and `empty()` treat null, `""` and `"0"` alike (`Common.Falsy`).

Three places where the code's behaviour is easy to misread. The model
follows the code:

- **Null batch numbers merge.** `where('batch_no', null)` is a null test,
  so a receipt with no batch number adds to an existing row of the same
  medicine that has no batch number. It does not create a second such row.
- **Null expiry dates have no fixed place.** The sale query orders by
  `expiry_date` alone, so where rows without an expiry date fall depends on
  the database, and the code does not guarantee "nulls last". The model
  makes the placement a parameter, `Fefo.NullOrder`.
- **Ties between equal expiry dates.** The code has no tie-breaker. The model
  breaks ties by row position in the table. That gives a strict total order,
  which is the one assumption the FEFO lemmas rest on.

## Model

| member | source | states |
|---|---|---|
| Common.NullIfFalsy | backend/app/Http/Controllers/PurchaseController.php:22-25 | the value becomes null exactly when PHP reads it as falsy (null, empty, "0"); any other value is kept and is non-empty |
| Common.DecimalString | backend/app/Http/Controllers/ReportController.php:69 | the id is written as a non-empty string of decimal digits with no leading zero, and those digits denote the id |
| Sorting.SortBySorted | backend/app/Http/Controllers/ReportController.php:93 | `sortBy` yields ascending key order |
| Sorting.SortByStable | backend/app/Http/Controllers/ReportController.php:93 | elements with equal keys keep their input order |
| Sorting.SortBySum | backend/app/Http/Controllers/ReportController.php:93 | sorting leaves any sum over the elements unchanged |
| Sorting.SortByRanked | backend/app/Http/Controllers/InvoiceController.php:60-63 | sorting row positions that start in table order ranks them by key, then by position |
| Fefo.FefoOrder | backend/app/Http/Controllers/InvoiceController.php:60-63 | the query lists exactly the medicine's rows with quantity > 0 |
| Fefo.FefoOrderListsEligible | backend/app/Http/Controllers/InvoiceController.php:60-65 | those rows are in expiry order (with the database's null placement, then table position), none twice, and their sum is the available quantity |
| Fefo.AvailableIsStock | backend/app/Http/Controllers/InvoiceController.php:65 | with no negative row, the available sum is the medicine's whole stock |
| Fefo.DrainFrame | backend/app/Http/Controllers/InvoiceController.php:71-81 | the drain changes only quantities, and leaves every row it does not list unchanged |
| Fefo.DrainNonNegative | backend/app/Http/Controllers/InvoiceController.php:71-81 | draining at most what the listed rows hold leaves no row negative |
| Fefo.DrainRemovesNeed | backend/app/Http/Controllers/InvoiceController.php:71-81 | the drain removes exactly the quantity needed from the listed rows and from the medicine's stock |
| Fefo.DeductionCorrect | backend/app/Http/Controllers/InvoiceController.php:65-81 | a line succeeds exactly when the stock covers it; then the stock drops by the quantity, no row goes negative or grows, batch numbers and expiry dates are kept, other medicines' rows are untouched |
| Fefo.DeductionOtherMedicines | backend/app/Http/Controllers/InvoiceController.php:60-81 | a deduction leaves every other medicine's stock as it was |
| Fefo.DeductionFefoShape | backend/app/Http/Controllers/InvoiceController.php:71-81 | in the order drawn, every row before the last one touched is emptied, that row is cut by the remainder, and every later row is untouched |
| Fefo.EarlierExpiryDrawnFirst | backend/app/Http/Controllers/InvoiceController.php:62 | a row is drawn from only when every eligible row expiring strictly earlier has been emptied |
| InvoiceController.LineRejection | backend/app/Http/Controllers/InvoiceController.php:32-34 | no rejection exactly when every line has an existing medicine, quantity ≥ 1 and unit price ≥ 0 |
| InvoiceController.SaleRejection | backend/app/Http/Controllers/InvoiceController.php:21-35 | a request is rejected exactly when it breaks a rule: unknown customer, blank (empty after trimming) or taken invoice number, blank payment method, negative discount, no lines, bad line |
| InvoiceController.BlankFieldRejected | backend/app/Http/Controllers/InvoiceController.php:28-29 | an invoice number or payment method that is empty after trimming is always rejected |
| InvoiceController.SaleTotal | backend/app/Http/Controllers/InvoiceController.php:38-41 | the loop computes the sum of quantity × unit price over the lines |
| InvoiceController.ItemRows | backend/app/Http/Controllers/InvoiceController.php:83-89 | one invoice item per line, in order, with the line's medicine, quantity and unit price |
| InvoiceController.ItemRowsTotal | backend/app/Http/Controllers/InvoiceController.php:38-41 | the invoice total equals the sum of its items' total prices, each being quantity × unit price |
| InvoiceController.GrossTotalNonNegative | backend/app/Http/Controllers/InvoiceController.php:33-34 | with valid quantities and prices the total is never negative |
| InvoiceController.ItemRowsSold | backend/app/Http/Controllers/InvoiceController.php:83-89 | the items recorded for a medicine add up to what the lines asked for |
| InvoiceController.AllocateConserves | backend/app/Http/Controllers/InvoiceController.php:56-90 | a sale that goes through takes from each medicine exactly what its lines asked for, leaves no batch negative, and keeps every batch number and expiry date |
| InvoiceController.AllocateSucceedsIff | backend/app/Http/Controllers/InvoiceController.php:56-69 | no oversell: a sale succeeds exactly when, for each medicine, all its lines together ask for no more than its stock; the medicine named on failure is over-asked |
| InvoiceController.AllocateShortPersists | backend/app/Http/Controllers/InvoiceController.php:56-69 | once an earlier line runs short, the whole sale fails naming the same medicine |
| InvoiceController.RepeatedMedicineOversold | backend/app/Http/Controllers/InvoiceController.php:56-69 | two lines of 6 against one batch of 10 fail, because each line re-reads the stock the previous one left |
| InvoiceController.DrainStocks | backend/app/Http/Controllers/InvoiceController.php:71-81 | the loop leaves the batch table exactly as the FEFO drain specifies |
| InvoiceController.DeductStock | backend/app/Http/Controllers/InvoiceController.php:57-81 | the line succeeds exactly when the deduction is defined; the table becomes the deduction's result, or stays unchanged when the line throws |
| InvoiceController.SellLines | backend/app/Http/Controllers/InvoiceController.php:56-90 | the per-line loop either reports the medicine the allocation runs short of, or leaves the allocated batches plus one recorded item per line |
| InvoiceController.SaleKeepsLedger | backend/app/Http/Controllers/InvoiceController.php:56-90 | a completed sale keeps the batch table valid and stock = received − sold for every medicine |
| InvoiceController.AppendInvoice | backend/app/Http/Controllers/InvoiceController.php:46-54 | a new invoice with the next id and an unused number keeps ids ascending and numbers unique |
| InvoiceController.NewInvoice | backend/app/Http/Controllers/InvoiceController.php:43-54 | the invoice row has the next id, the request's customer and number, total_amount equal to the sum of its items' total prices, a missing discount as 0, and net = total − discount |
| InvoiceController.Transact | backend/app/Http/Controllers/InvoiceController.php:37-93 | on a validated request: a line the stock cannot cover restores every table and reports that medicine; otherwise the invoice (net = total − discount), one item per line and the allocated batches are committed; validity and ledger balance are kept |
| InvoiceController.Store | backend/app/Http/Controllers/InvoiceController.php:18-94 | rejection or a short line leaves every table as it was; success appends the invoice (net = total − discount, missing discount 0), its items and the allocated batches; validity and ledger balance are kept |
| InvoiceController.WithoutInvoiceMembers | backend/app/Http/Controllers/InvoiceController.php:104 | deleting removes exactly the invoice with that id |
| InvoiceController.WithoutInvoiceKeepsOrder | backend/app/Http/Controllers/InvoiceController.php:104 | deleting keeps ids ascending and invoice numbers unique |
| InvoiceController.Destroy | backend/app/Http/Controllers/InvoiceController.php:101-106 | the invoice row is removed and no batch changes |
| PurchaseController.Normalize | backend/app/Http/Controllers/PurchaseController.php:21-29 | voucher, invoice and batch numbers become null exactly when falsy; nothing else in the request changes |
| PurchaseController.NormalizeIdempotent | backend/app/Http/Controllers/PurchaseController.php:21-29 | normalising twice is normalising once |
| PurchaseController.PurchaseRejectionOf | backend/app/Http/Controllers/PurchaseController.php:31-44 | a request is rejected exactly when it breaks a rule: unknown supplier, blank (empty after trimming) payment status or status, no lines, unknown medicine, quantity < 1, negative cost |
| PurchaseController.BlankFieldRejected | backend/app/Http/Controllers/PurchaseController.php:36-37 | a payment status or status that is empty after trimming is always rejected |
| PurchaseController.PurchaseTotal | backend/app/Http/Controllers/PurchaseController.php:47-50 | the loop computes the sum of quantity × cost price over the lines |
| PurchaseController.ItemRows | backend/app/Http/Controllers/PurchaseController.php:62-73 | one purchase item per line, in order, carrying the line's fields |
| PurchaseController.ItemRowsTotal | backend/app/Http/Controllers/PurchaseController.php:47-50 | the purchase total equals the sum of its items' total prices |
| PurchaseController.ItemRowsReceived | backend/app/Http/Controllers/PurchaseController.php:65-73 | the items recorded for a medicine add up to what its lines ordered |
| PurchaseController.FindBatch | backend/app/Http/Controllers/PurchaseController.php:77-79 | finds the first row with the same medicine and the same batch number (null matching null), and reports None exactly when there is none |
| PurchaseController.ReceiveLine | backend/app/Http/Controllers/PurchaseController.php:77-90 | find-or-create: afterwards a row with the line's (medicine, batch number) exists; a row is appended exactly when none matched; rows with another key are unchanged and no row changes anything but its quantity |
| PurchaseController.ReceiveExisting | backend/app/Http/Controllers/PurchaseController.php:81-82 | a matching row gains the quantity and keeps its expiry date; every other row is unchanged |
| PurchaseController.ReceiveNew | backend/app/Http/Controllers/PurchaseController.php:83-90 | with no matching row, exactly one row is appended with the line's batch number, expiry date and quantity |
| PurchaseController.ReceiveLineStock | backend/app/Http/Controllers/PurchaseController.php:77-90 | a line raises its medicine's stock by its quantity and no other medicine's |
| PurchaseController.ReceiveLineValid | backend/app/Http/Controllers/PurchaseController.php:77-90 | receiving keeps rows non-negative and (medicine, batch number) keys unique |
| PurchaseController.ReceiveAll | backend/app/Http/Controllers/PurchaseController.php:62-91 | receiving a purchase adds at most one row per line and changes no existing row's medicine, batch number or expiry date |
| PurchaseController.ReceiveAllStock | backend/app/Http/Controllers/PurchaseController.php:62-91 | a purchase raises each medicine's stock by what its lines ordered |
| PurchaseController.PurchaseKeepsLedger | backend/app/Http/Controllers/PurchaseController.php:62-91 | a purchase keeps stock = received − sold for every medicine |
| PurchaseController.ReceiveStock | backend/app/Http/Controllers/PurchaseController.php:77-90 | the increment-or-create step leaves the table as the receipt function specifies |
| PurchaseController.ReceiveLines | backend/app/Http/Controllers/PurchaseController.php:62-91 | the loop records one item per line and receives every line in order |
| PurchaseController.NewPurchase | backend/app/Http/Controllers/PurchaseController.php:52-60 | the purchase row has the next id, the request's supplier, date, voucher and invoice numbers, and total_amount equal to the sum of its items' total prices |
| PurchaseController.Record | backend/app/Http/Controllers/PurchaseController.php:46-94 | on a validated request: the purchase, one item per line and the received stock are committed; invoices are untouched; validity and ledger balance are kept |
| PurchaseController.Store | backend/app/Http/Controllers/PurchaseController.php:18-95 | a rejection changes nothing; otherwise the purchase, its items and the received stock are appended; validity and ledger balance are kept |
| PurchaseController.WithoutPurchaseKeepsOrder | backend/app/Http/Controllers/PurchaseController.php:105 | deleting a purchase keeps ids ascending |
| PurchaseController.Destroy | backend/app/Http/Controllers/PurchaseController.php:102-106 | the purchase row is removed and no batch changes |
| ReportController.SalesReport | backend/app/Http/Controllers/ReportController.php:17-24 | exactly the invoices dated within the inclusive range, and of the given customer when a non-zero one is given |
| ReportController.SalesReportCustomerNarrows | backend/app/Http/Controllers/ReportController.php:20-22 | the customer filter is the unfiltered list with other customers' invoices removed, order kept |
| ReportController.PurchasesReport | backend/app/Http/Controllers/ReportController.php:32-34 | exactly the purchases dated within the inclusive range |
| ReportController.PurchaseById | backend/app/Http/Controllers/ReportController.php:61-65 | an item's parent is found when it exists; an orphan has none |
| ReportController.InvoiceById | backend/app/Http/Controllers/ReportController.php:79-85 | an item's invoice is found when it exists; an orphan has none |
| ReportController.ReceivedBefore | backend/app/Http/Controllers/ReportController.php:47-51 | with non-negative quantities, the quantity bought before the start date is between 0 and all that was ever received of the medicine |
| ReportController.IssuedBefore | backend/app/Http/Controllers/ReportController.php:53-56 | with non-negative quantities, the quantity sold before the start date is between 0 and all that was ever sold of the medicine |
| ReportController.PurchaseRef | backend/app/Http/Controllers/ReportController.php:69 | the reference is the supplier invoice number, or "PUR-" and the purchase id when that is blank; never empty |
| ReportController.PurchaseMovements | backend/app/Http/Controllers/ReportController.php:61-75 | every purchase row is Stock In with out = 0, a non-empty reference and a date in range |
| ReportController.SaleMovements | backend/app/Http/Controllers/ReportController.php:77-91 | every sale row is Stock Out with in = 0 and a date in range |
| ReportController.PurchaseMovementsRows | backend/app/Http/Controllers/ReportController.php:61-75 | one row per purchase item of the medicine whose purchase is dated in range, in table order, each dated by its purchase, referenced by `PurchaseRef`, with in = the item's quantity |
| ReportController.SaleMovementsRows | backend/app/Http/Controllers/ReportController.php:77-91 | one row per invoice item of the medicine whose invoice is dated in range, in table order, each dated by its invoice, with ref = its invoice_no and out = the item's quantity |
| ReportController.StockCard | backend/app/Http/Controllers/ReportController.php:43-45 | the card is refused exactly when no medicine id is given |
| ReportController.StockCardMovements | backend/app/Http/Controllers/ReportController.php:93 | the movements are the purchase rows and the sale rows and nothing else (count = sum of both), ascending by date, and on one date the purchases come first, each group in table order |
| ReportController.StockCardInRange | backend/app/Http/Controllers/ReportController.php:61-91 | every movement on the card is dated inside the range |
| ReportController.PurchaseFlowRolls | backend/app/Http/Controllers/ReportController.php:47-51 | purchases before the day after the range = purchases before its start + the range's stock-in |
| ReportController.SaleFlowRolls | backend/app/Http/Controllers/ReportController.php:53-56 | sales before the day after the range = sales before its start + the range's stock-out |
| ReportController.StockCardRollsForward | backend/app/Http/Controllers/ReportController.php:47-58 | opening balance + net movement of the card = opening balance of the card starting the next day |
| ReportController.Inventory | backend/app/Http/Controllers/ReportController.php:103-114 | one row per medicine: stock is the sum of its batches, price is its price or 0, and value = stock × price |
| ReportController.NoBatchesNoStock | backend/app/Http/Controllers/ReportController.php:110 | a medicine without batches shows stock 0 |
| ReportController.InventoryMatchesLedger | backend/app/Http/Controllers/ReportController.php:110-112 | on a balanced ledger, each medicine's stock is received − sold and never negative, and its value is non-negative at a non-negative price |
| ReportController.ExpiringRows | backend/app/Http/Controllers/ReportController.php:122-125 | exactly the rows with quantity > 0 whose expiry date is after now and no later than the threshold |
| ReportController.ExpiryReport | backend/app/Http/Controllers/ReportController.php:122-127 | the report is a permutation of the expiring rows, sorted by expiry date |
| ReportController.ExpiryReportCorrect | backend/app/Http/Controllers/ReportController.php:122-127 | the expiry list holds exactly those rows, each with a date, soonest first |
| ReportsPage.NetFlowStep | frontend/src/pages/Reports.jsx:96 | each row moves the balance by its in minus its out |
| ReportsPage.WithBalances | frontend/src/pages/Reports.jsx:94-98 | one balance per row, each equal to the opening balance plus the net flow up to that row; the last equals the opening balance plus the card's net flow |

## Left out

- `ReportController::profit` is left out: a floating-point 30 % placeholder with no ledger logic.
- The `index` and `show` endpoints are left out: plain reads with eager-loaded relations.
- Concurrency and isolation are left out. The source takes no row locks, so each transaction is modelled as sequential snapshot and restore.
- The `exists:` rules become sets of existing customer, supplier and medicine ids passed in. `required` on a string means not blank after trimming (`Common.Blank`). `date` and `numeric` parsing is replaced by integer day numbers and integer cents.
- Floating-point casts and decimal money are left out. The inventory price and value use integer cents.
- `now()`, `startOfMonth`/`endOfMonth` defaults and `addMonths($months)` are clocks and calendar arithmetic, so they are parameters (`start`, `end`, `now`, `threshold`).
- The movement `description` text and the eager-loaded customer, supplier and medicine records in responses are presentation only.
- HTTP status codes and the exception message are outcome datatypes (`Rejected`, `InsufficientStock`, `MissingMedicine`).
- Whether deleting an invoice or purchase cascades to its items depends on a schema this model does not include. `Destroy` removes the parent row only, and the reports skip items whose parent is gone, as `whereHas` does.
- After a rollback the model hands out the same invoice id again. A database may skip that auto-increment value; ids stay unique either way.
- The expiry date of a purchase line is an already parsed `Option<int>`, so its blank-to-null normalisation is the parse itself.
- PurchaseController.Matches: batch numbers are compared by exact string equality. The database's collation decides `where('batch_no', …)`; a case-insensitive or space-trimming collation would merge batch numbers such as "B1" and "b1 " that the model keeps apart. Request strings are also compared untrimmed (see the middleware line below).
- InvoiceController.InvoiceNoTaken: the `unique:invoices,invoice_no` rule is modelled as exact string equality. The database's collation may treat more invoice numbers as equal. Request strings are also compared untrimmed (see the middleware line below).
- Laravel's default request middleware (TrimStrings, ConvertEmptyStringsToNull) is not part of this model. Request strings reach the model as sent: `" B1"` and `"B1"` are different batch numbers, and a blank batch, voucher or invoice number stays a string unless PHP reads it as falsy. The framework would trim them and turn blank ones into null first.
- `Tables.Database.Valid`: the one-row-per-(medicine, batch number) rule is an invariant the purchase receipt keeps, not a database constraint.

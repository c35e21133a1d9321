# Inventory stock ledger, modelled in Dafny

This project models the stock-adjustment ledger of the inventory backend. The backend
keeps two collections. The product collection holds one document per product: a name,
a unique SKU, a stock counter that may not go below zero, and creation and update
timestamps. The transaction collection is an append-only log of stock movements: a
product reference, a type (`INCREASE` or `DECREASE`), a quantity and a timestamp.

Six request handlers work on the two collections:

- `createProduct` inserts a product with its initial stock and writes no transaction.
- `increaseStock` and `decreaseStock` check the quantity, look the product up and, for a
  decrease, check that there is enough stock. They then change the stock and append one
  matching record.
- `getProductSummary` reports the stored stock and the sums of the product's increases
  and decreases.
- `getTransactions` lists one product's records, newest first.
- `listProducts` lists all products, newest first.

Module by module:

- `ProductModel` (product_model.dfy): the product document and the collection's
  constraints. Name and SKU are required, the SKU is unique, stock is at least 0, and
  timestamps never run backwards.
- `TransactionModel` (transaction_model.dfy): the transaction document, the closed type
  enum and the clock order of the log.
- `Ordering` (ordering.dfy): the strict orders that `sort({field: -1})` produces, and the
  fact that such a sort has exactly one result when no two keys tie.
- `LedgerQueries` (ledger_queries.dfy): the read side. This is the filter and reduce of
  the summary and the two newest-first listings. It also holds the ledger-replay lemmas
  that each write step relies on.
- `ProductController` (product_controller.dfy): the class `Ledger`, whose fields are the
  two collections plus a logical clock and an id counter. Its methods are the three
  writing handlers and its functions are the three reading handlers. The class invariant
  `Valid()` (built from the module's `Consistent`) says, for every product:
  - its stock is non-negative;
  - its stock equals its opening stock plus its increases minus its decreases.

  Every handler keeps `Valid()`. Three client methods (`CreationWalkthrough`,
  `AdjustmentWalkthrough`, `SummaryWalkthrough`) use the contracts alone to follow a
  product through its life. They create Laptop (SKU LP101) with stock 20, raise it by 5
  and lower it by 10, and check the rejections: a second LP101, a negative initial stock,
  a zero quantity, an unknown id, and a decrease larger than the stock.

Choices made in the model:

- Opening balance: the initial stock is the replay baseline. `createProduct` writes no
  opening transaction (backend/src/controllers/product.controller.js:18-22). The ghost
  field `Ledger.opening` records each product's initial stock, and the replay equation is
  stated against it.
- Time: `Date.now` and the schema's automatic timestamps are a logical clock. Every
  successful write reads the clock and then advances it. So no two products share a
  creation time, and the log's timestamps strictly increase. That makes the two
  newest-first sorts total and their results unique.
- Failures: the handlers' own rejections are `BadRequest(message)` (status 400) and
  `NotFound(message)` (status 404), with the source's messages. A missing name or SKU
  (`ValidationFailed`) and a taken SKU (`DuplicateSku`) are raised by `Product.create`.
  They are answered by an error handler that is not part of this model, so their status
  codes are not modelled. Every failure leaves both collections and the clock unchanged.
- Check order: each handler checks in the source's order. The quantity comes first, then
  existence, then sufficiency. For creation, the initial-stock check comes first, then the
  schema's required fields, then the unique index.

Three behaviours of the code that a reader might expect to be otherwise:

- `getTransactions` never looks the product up
  (backend/src/controllers/product.controller.js:95-101). For an unknown id it returns an
  empty list rather than 404, and so does `Ledger.GetTransactions`.
- `createProduct` writes no opening record
  (backend/src/controllers/product.controller.js:18-22), so replay starts from the stored
  initial stock.
- The stock `save()` and the `Transaction.create` are neither one atomic write nor
  locked per product (see Left out). The model treats each handler as one sequential
  step.

## Model

| member | source | states |
|---|---|---|
| ProductModel.OneProductPerSku | backend/src/models/product.model.js:8-12 | under the unique SKU index a SKU that is in use belongs to exactly one product, and a free SKU to none |
| TransactionModel.KindName | backend/src/models/transaction.model.js:9-13 | the name stored for each kind passes the enum check and reads back as that same kind |
| TransactionModel.AcceptsExactlyKindNames | backend/src/models/transaction.model.js:9-13 | the type enum accepts a string exactly when it is the stored name of some kind, and the kind it yields has that string as its name |
| Ordering.Reverse | backend/src/controllers/product.controller.js:98 | the reversal has the same length and puts element i at position length-1-i |
| Ordering.ReverseOrder | backend/src/controllers/product.controller.js:98 | reversing a sequence in increasing key order yields the same elements in strictly decreasing key order |
| Ordering.DescendingUnique | backend/src/controllers/product.controller.js:95-101 | two strictly descending sequences with the same elements are equal, so a sort with no tied keys has one result |
| LedgerQueries.ForProduct | backend/src/controllers/product.controller.js:77 | the lookup by product keeps a record if and only if it is in the log and refers to that product |
| LedgerQueries.OfKind | backend/src/controllers/product.controller.js:79-80 | the type filter keeps a record if and only if it has that type |
| LedgerQueries.ReduceShift | backend/src/controllers/product.controller.js:81 | starting the quantity reduce from acc gives acc plus the sum started from 0 |
| LedgerQueries.SumConcat | backend/src/controllers/product.controller.js:79-85 | the sum of quantities over a concatenation is the sum of the two sums |
| LedgerQueries.ForProductConcat | backend/src/controllers/product.controller.js:77 | the lookup by product distributes over concatenation of logs |
| LedgerQueries.OfKindConcat | backend/src/controllers/product.controller.js:79-85 | the type filter distributes over concatenation |
| LedgerQueries.TotalAppend | backend/src/controllers/product.controller.js:39-43 | appending one record raises the total of exactly its own product and type by its quantity and leaves every other total unchanged |
| LedgerQueries.SumNonNegative | backend/src/controllers/product.controller.js:79-85 | a sum of positive quantities is non-negative |
| LedgerQueries.TotalNonNegative | backend/src/controllers/product.controller.js:79-85 | totalIncreased and totalDecreased are non-negative when every logged quantity is positive |
| LedgerQueries.ForProductUnreferenced | backend/src/controllers/product.controller.js:77 | a product that no record refers to has no records |
| LedgerQueries.TotalUnreferenced | backend/src/controllers/product.controller.js:18-22 | a product that no record refers to, such as a newly created one, has both totals zero |
| LedgerQueries.AdjustKeepsBalance | backend/src/controllers/product.controller.js:36-43 | changing one product's stock by a quantity and appending the matching record keeps every product's stock equal to its opening stock plus increases minus decreases |
| LedgerQueries.CreateKeepsBalance | backend/src/controllers/product.controller.js:18-22 | inserting a product with no record and with its initial stock as its baseline keeps every product balanced |
| LedgerQueries.ForProductChronological | backend/src/controllers/product.controller.js:96-98 | one product's records keep the log's strictly increasing timestamp order |
| LedgerQueries.NewestFirst | backend/src/controllers/product.controller.js:96-98 | the listing holds exactly the product's records, in strictly decreasing timestamp order |
| LedgerQueries.NewestFirstIsTheSort | backend/src/controllers/product.controller.js:96-98 | any newest-first arrangement of exactly the product's records equals NewestFirst |
| LedgerQueries.NewestExists | backend/src/controllers/product.controller.js:5 | every non-empty set of stored products has one created last |
| LedgerQueries.PrependNewest | backend/src/controllers/product.controller.js:5 | putting the newest product in front of a newest-first listing of the others lists them all, newest first |
| LedgerQueries.NewestOf | backend/src/controllers/product.controller.js:5 | lists the products under a set of ids, each once, in strictly decreasing creation order |
| LedgerQueries.ByNewest | backend/src/controllers/product.controller.js:5 | lists every stored product exactly once, in strictly decreasing creation order |
| LedgerQueries.ByNewestIsTheSort | backend/src/controllers/product.controller.js:5 | any newest-first arrangement of exactly the stored products equals ByNewest |
| ProductController.LedgerReplay | backend/src/controllers/product.controller.js:9-71 | in every consistent state each product's stock is non-negative and equals its initial stock plus its increases minus its decreases |
| ProductController.InsertKeepsStoreValid | backend/src/models/product.model.js:4-18 | inserting a conforming product with a free SKU under a fresh id at the current instant keeps the product constraints |
| ProductController.AdjustKeepsStoreValid | backend/src/models/product.model.js:13-18 | an adjustment that never drives stock below zero keeps the product constraints and stamps the update time |
| ProductController.AppendKeepsLogValid | backend/src/models/transaction.model.js:4-21 | appending a positive-quantity record for a stored product at the current instant keeps every record referenced, positive and in clock order |
| ProductController.CreatePreserves | backend/src/controllers/product.controller.js:18-22 | a successful insert keeps all collection invariants, including the replay equation |
| ProductController.RecordPreserves | backend/src/controllers/product.controller.js:36-43 | a stock change with its matching record keeps all collection invariants, including non-negative stock and the replay equation |
| ProductController.Ledger.CreateProduct | backend/src/controllers/product.controller.js:9-25 | negative initial stock fails with 400 and its message, then a missing name or SKU fails, then a taken SKU fails, each with nothing written; otherwise exactly one new product with stock equal to initialStock is stored and no transaction is appended |
| ProductController.Ledger.Record | backend/src/controllers/product.controller.js:36-43 | the stock of exactly one product changes by the quantity and exactly one matching record, stamped now, is appended |
| ProductController.Ledger.IncreaseStock | backend/src/controllers/product.controller.js:27-46 | quantity <= 0 fails with 400, then an unknown id fails with 404, each with nothing changed; otherwise the stock grows by the quantity, one INCREASE record is appended, and the returned stock is the stored one |
| ProductController.Ledger.DecreaseStock | backend/src/controllers/product.controller.js:48-71 | quantity <= 0 fails with 400, an unknown id with 404, and stock below the quantity with 400 "Insufficient stock", each with nothing changed; otherwise the stock shrinks by the quantity and stays >= 0, and one DECREASE record is appended |
| ProductController.Ledger.GetProductSummary | backend/src/controllers/product.controller.js:73-93 | fails with 404 exactly for an unknown id. Otherwise it reports the stored product and its stock, and the sums of its INCREASE and DECREASE quantities. These are non-negative and replay to the stored stock |
| ProductController.Ledger.GetTransactions | backend/src/controllers/product.controller.js:95-101 | returns exactly the product's records, strictly newest first; an unknown id gives an empty list |
| ProductController.Ledger.ListProducts | backend/src/controllers/product.controller.js:4-7 | returns every stored product exactly once, strictly newest created first |
| ProductController.TwoRecordTotals | backend/src/controllers/product.controller.js:79-85 | an increase of 5 followed by a decrease of 10 of one product sum to totals 5 and 10 |

## Left out

- Concurrency: the handlers read, modify and `save()` a product with no lock
  (backend/src/controllers/product.controller.js:33-37, 54-62). Concurrent adjustments
  can therefore lose an update, or pass the sufficiency check on stale stock. The model
  runs each handler as one sequential step, so it does not capture this race.
- Partial failure: the stock `save()` and the `Transaction.create` are two separate
  writes (backend/src/controllers/product.controller.js:37-43, 62-68). A storage fault
  between them would leave the stock changed with no record. `Ledger.Record` performs the
  pair as one step.
- Storage faults, timeouts and the backend's generic 500 responses are not modelled.
- Dynamic typing: `quantity` and `initialStock` are modelled as integers. In the source
  a missing or non-numeric value slips past the `<= 0` and `< 0` comparisons. Fractional
  numbers are not modelled either.
- Number precision: in the source `stock` and `quantity` are double-precision numbers,
  which hold integers exactly only up to 2^53. Above that, `product.stock += quantity`
  (backend/src/controllers/product.controller.js:36) rounds, and the summary's sums
  (lines 79-85) round too. The model's integers are unbounded. So `Ledger.IncreaseStock`,
  `Ledger.DecreaseStock`, `Ledger.GetProductSummary` and the replay equation in `Valid()`
  match the source only while every stock, quantity and sum stays below 2^53. For example,
  an increase of 1 on a stock of 2^53 leaves the source's stock unchanged but is logged,
  so the source's summary no longer replays; the model stores 2^53 + 1.
- Ids: a product id is a natural number handed out by a counter. A malformed id string,
  which makes the store throw a cast error, is not modelled. A transaction's own `_id`
  is not modelled; a record is identified by its place in the log.
- Error status codes: the status codes of `ValidationFailed` and `DuplicateSku`
  are not modelled. They are chosen by an error handler, and the middleware is not part
  of this model.
- The `min: 0` check that the schema applies on `save()` is modelled as the invariant
  that stock is non-negative. Its failure path is not modelled, because the handlers'
  own checks mean it is never taken.
- Timestamp ties: two writes in the same millisecond get equal timestamps, and the
  store's order between tied records is unspecified. The logical clock never ties, so
  this case is not modelled.
- HTTP and server plumbing: routing (backend/src/routes/product.route.js,
  backend/src/app.js), the CORS allow-list, database connection and start-up
  (backend/src/database/db.js, backend/src/index.js). These are I/O and configuration.
- The seed script (backend/seedata.js) is a one-off I/O script and is not modelled. It
  does write an opening INCREASE record for each product it inserts
  (backend/seedata.js:34-45), which `createProduct` does not. After seeding, the
  summary's totals therefore count the opening stock once more than the replay from the
  initial stock would.
- The React front end (inventory/src) is user-interface state, fetch calls and date
  formatting, with no ledger logic.

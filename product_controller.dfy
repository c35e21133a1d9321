/** The stock-adjustment ledger of backend/src/controllers/product.controller.js: the
    product collection and the transaction collection as the state of one object, the
    three writing handlers as methods and the three reading handlers as functions. */
module ProductController {
  import opened Ordering
  import opened ProductModel
  import opened TransactionModel
  import opened LedgerQueries

  const NegativeStockMessage := "Initial stock cannot be negative"
  const BadQuantityMessage := "Quantity must be greater than 0"
  const NotFoundMessage := "Product not found"
  const InsufficientMessage := "Insufficient stock"

  /** How a handler fails. The first two are the handlers' own responses; the last two are
      raised by `Product.create` and answered by an error handler that is not part of this
      model, so their status code is not modelled. */
  datatype Failure =
    | BadRequest(message: string)  // status 400
    | NotFound(message: string)    // status 404
    | ValidationFailed             // the schema rejects a missing `name` or `sku`
    | DuplicateSku                 // the unique index on `sku` rejects the insert

  datatype Result<T> = Ok(value: T) | Err(failure: Failure)

  /** The product collection: every product conforms to its schema under its own id and a
      unique SKU, was created at its own instant, and carries clock readings from the past. */
  ghost predicate StoreValid(products: map<ProductId, Product>, clock: nat, nextId: nat) {
    && StoreConforms(products)
    && SkusUnique(products)
    && CreatedDistinct(products)
    && (forall k :: k in products ==> k < nextId && products[k].updatedAt < clock)
  }

  /** The transaction collection: every record refers to a stored product, moves a positive
      quantity, was stamped in the past, and the records are in clock order. */
  ghost predicate LogValid(products: map<ProductId, Product>, log: seq<Transaction>, clock: nat) {
    && (forall t :: t in log ==> t.productId in products && t.quantity > 0 && t.timestamp < clock)
    && Chronological(log)
  }

  /** Every product has a non-negative opening balance from which its records replay to its
      stock. */
  ghost predicate Replayable(products: map<ProductId, Product>, opening: map<ProductId, int>, log: seq<Transaction>) {
    && opening.Keys == products.Keys
    && (forall k :: k in opening ==> opening[k] >= 0)
    && Balanced(products, opening, log)
  }

  /** What the two collections guarantee between requests. */
  ghost predicate Consistent(
    products: map<ProductId, Product>, log: seq<Transaction>, clock: nat, nextId: nat,
    opening: map<ProductId, int>)
  {
    StoreValid(products, clock, nextId) && LogValid(products, log, clock) && Replayable(products, opening, log)
  }

  /** The ledger's central property, in any consistent state: every product's stock is
      non-negative and equals its initial stock plus its increases minus its decreases. */
  lemma LedgerReplay(
    products: map<ProductId, Product>, log: seq<Transaction>, clock: nat, nextId: nat,
    opening: map<ProductId, int>, id: ProductId)
    requires Consistent(products, log, clock, nextId, opening)
    requires id in products
    ensures products[id].stock >= 0
    ensures products[id].stock == opening[id] + Total(log, id, Increase) - Total(log, id, Decrease)
  {
    assert products[id].stock == Replay(opening, log, id);
  }

  /** Inserting a product with both required fields, a free SKU and a non-negative stock
      under a fresh id at the current instant keeps the product collection valid. */
  lemma InsertKeepsStoreValid(products: map<ProductId, Product>, clock: nat, nextId: nat, p: Product)
    requires StoreValid(products, clock, nextId)
    requires p.id == nextId && p.createdAt == p.updatedAt == clock && Conforms(p)
    requires !SkuTaken(products, p.sku)
    ensures StoreValid(products[nextId := p], clock + 1, nextId + 1)
  {
  }

  /** Adjusting one product's stock, never below zero, at the current instant keeps the
      product collection valid. */
  lemma AdjustKeepsStoreValid(
    products: map<ProductId, Product>, clock: nat, nextId: nat,
    id: ProductId, kind: Kind, quantity: int)
    requires StoreValid(products, clock, nextId)
    requires id in products && quantity > 0
    requires kind == Decrease ==> products[id].stock >= quantity
    ensures StoreValid(products[id := Adjusted(products[id], kind, quantity, clock)], clock + 1, nextId)
  {
  }

  /** Appending a record for a stored product with a positive quantity, stamped with the
      current instant, keeps the transaction collection valid. */
  lemma AppendKeepsLogValid(products: map<ProductId, Product>, log: seq<Transaction>, clock: nat, t: Transaction)
    requires LogValid(products, log, clock)
    requires t.productId in products && t.quantity > 0 && t.timestamp == clock
    ensures LogValid(products, log + [t], clock + 1)
  {
    assert forall u :: u in log + [t] ==> u in log || u == t;
  }

  /** Inserting a product under a fresh id, with its initial stock as opening balance and no
      record, keeps the collections consistent. */
  lemma CreatePreserves(
    products: map<ProductId, Product>, log: seq<Transaction>, clock: nat, nextId: nat,
    opening: map<ProductId, int>, name: string, sku: string, initialStock: int)
    requires Consistent(products, log, clock, nextId, opening)
    requires name != [] && sku != [] && initialStock >= 0 && !SkuTaken(products, sku)
    ensures var p := Product(nextId, name, sku, initialStock, clock, clock);
            Consistent(products[nextId := p], log, clock + 1, nextId + 1, opening[nextId := initialStock])
  {
    var p := Product(nextId, name, sku, initialStock, clock, clock);
    InsertKeepsStoreValid(products, clock, nextId, p);
    assert forall t :: t in log ==> t.productId != nextId;
    CreateKeepsBalance(products, opening, log, p);
  }

  /** Adjusting one stored product's stock, never below zero, and appending the matching
      record stamped with the current instant keeps the collections consistent. */
  lemma RecordPreserves(
    products: map<ProductId, Product>, log: seq<Transaction>, clock: nat, nextId: nat,
    opening: map<ProductId, int>, id: ProductId, kind: Kind, quantity: int)
    requires Consistent(products, log, clock, nextId, opening)
    requires id in products && quantity > 0
    requires kind == Decrease ==> products[id].stock >= quantity
    ensures Consistent(products[id := Adjusted(products[id], kind, quantity, clock)],
                       log + [Transaction(id, kind, quantity, clock)], clock + 1, nextId, opening)
  {
    var t := Transaction(id, kind, quantity, clock);
    AdjustKeepsStoreValid(products, clock, nextId, id, kind, quantity);
    AppendKeepsLogValid(products, log, clock, t);
    AdjustKeepsBalance(products, opening, log, id, kind, quantity, clock);
  }

  /** The body of a successful getProductSummary response. */
  datatype Summary = Summary(product: Product, currentStock: int, totalIncreased: int, totalDecreased: int)

  /** The two collections the handlers share. Each handler runs as one step: the source
      neither locks a product between its read and its `save()` nor makes the `save()` and
      the `Transaction.create` one atomic write. */
  class Ledger {
    /** The product collection, keyed by `_id`. */
    var products: map<ProductId, Product>
    /** The transaction collection, in insertion order. */
    var log: seq<Transaction>
    /** Stands in for `Date.now`: every write reads it and then advances it. */
    var clock: nat
    /** The next `_id` the store hands out. */
    var nextId: nat
    /** Each product's `initialStock`: the baseline that replaying its records starts from. */
    ghost var opening: map<ProductId, int>

    /** What the two collections guarantee between requests. */
    ghost predicate Valid()
      reads this
    {
      Consistent(products, log, clock, nextId, opening)
    }

    /** Two empty collections. */
    constructor ()
      ensures Valid()
      ensures products == map[] && log == [] && opening == map[] && clock == 0
    {
      products, log, clock, nextId := map[], [], 0, 0;
      opening := map[];
    }

    /** createProduct: reject a negative `initialStock` with 400, otherwise let the store
        insert `{name, sku, stock: initialStock}`, which fails on a missing field or a taken
        SKU. No transaction is written for the opening balance. */
    method CreateProduct(name: string, sku: string, initialStock: int) returns (r: Result<Product>)
      requires Valid()
      modifies this
      ensures Valid()
      ensures initialStock < 0 ==> r == Err(BadRequest(NegativeStockMessage))
      ensures initialStock >= 0 && (name == [] || sku == []) ==> r == Err(ValidationFailed)
      ensures initialStock >= 0 && name != [] && sku != [] && SkuTaken(old(products), sku)
              ==> r == Err(DuplicateSku)
      ensures r.Err? ==> unchanged(this)
      ensures r.Ok? <==> initialStock >= 0 && name != [] && sku != [] && !SkuTaken(old(products), sku)
      ensures r.Ok? ==>
                && r.value.id !in old(products)
                && r.value.name == name && r.value.sku == sku && r.value.stock == initialStock
                && r.value.createdAt == r.value.updatedAt == old(clock)
                && products == old(products)[r.value.id := r.value]
                && log == old(log)
                && opening == old(opening)[r.value.id := initialStock]
                && clock == old(clock) + 1
    {
      if initialStock < 0 {
        return Err(BadRequest(NegativeStockMessage));
      }
      if name == [] || sku == [] {
        return Err(ValidationFailed);
      }
      if SkuTaken(products, sku) {
        return Err(DuplicateSku);
      }
      var p := Product(nextId, name, sku, initialStock, clock, clock);
      CreatePreserves(products, log, clock, nextId, opening, name, sku, initialStock);
      products := products[p.id := p];
      opening := opening[p.id := initialStock];
      nextId := nextId + 1;
      clock := clock + 1;
      r := Ok(p);
    }

    /** The shared tail of increaseStock and decreaseStock: change the stock, `save()` the
        product and append the matching record, as one step. */
    method Record(id: ProductId, kind: Kind, quantity: int)
      requires Valid()
      requires id in products && quantity > 0
      requires kind == Decrease ==> products[id].stock >= quantity
      modifies this
      ensures Valid()
      ensures products == old(products)[id := Adjusted(old(products[id]), kind, quantity, old(clock))]
      ensures log == old(log) + [Transaction(id, kind, quantity, old(clock))]
      ensures opening == old(opening) && nextId == old(nextId) && clock == old(clock) + 1
    {
      var t := Transaction(id, kind, quantity, clock);
      RecordPreserves(products, log, clock, nextId, opening, id, kind, quantity);
      products := products[id := Adjusted(products[id], kind, quantity, clock)];
      log := log + [t];
      clock := clock + 1;
    }

    /** increaseStock: quantity first (400), then existence (404); on success the stock
        grows by `quantity` and one INCREASE record is appended. */
    method IncreaseStock(id: ProductId, quantity: int) returns (r: Result<int>)
      requires Valid()
      modifies this
      ensures Valid()
      ensures quantity <= 0 ==> r == Err(BadRequest(BadQuantityMessage))
      ensures quantity > 0 && id !in old(products) ==> r == Err(NotFound(NotFoundMessage))
      ensures r.Err? ==> unchanged(this)
      ensures r.Ok? <==> quantity > 0 && id in old(products)
      ensures r.Ok? ==>
                && products == old(products)[id := Adjusted(old(products[id]), Increase, quantity, old(clock))]
                && r.value == products[id].stock == old(products[id].stock) + quantity
                && log == old(log) + [Transaction(id, Increase, quantity, old(clock))]
                && opening == old(opening)
                && nextId == old(nextId)
                && clock == old(clock) + 1
    {
      if quantity <= 0 {
        return Err(BadRequest(BadQuantityMessage));
      }
      if id !in products {
        return Err(NotFound(NotFoundMessage));
      }
      Record(id, Increase, quantity);
      r := Ok(products[id].stock);
    }

    /** decreaseStock: quantity first (400), then existence (404), then sufficiency (400);
        on success the stock shrinks by `quantity`, never below zero, and one DECREASE
        record is appended. */
    method DecreaseStock(id: ProductId, quantity: int) returns (r: Result<int>)
      requires Valid()
      modifies this
      ensures Valid()
      ensures quantity <= 0 ==> r == Err(BadRequest(BadQuantityMessage))
      ensures quantity > 0 && id !in old(products) ==> r == Err(NotFound(NotFoundMessage))
      ensures quantity > 0 && id in old(products) && old(products[id].stock) < quantity
              ==> r == Err(BadRequest(InsufficientMessage))
      ensures r.Err? ==> unchanged(this)
      ensures r.Ok? <==> quantity > 0 && id in old(products) && old(products[id].stock) >= quantity
      ensures r.Ok? ==>
                && r.value >= 0
                && products == old(products)[id := Adjusted(old(products[id]), Decrease, quantity, old(clock))]
                && r.value == products[id].stock == old(products[id].stock) - quantity
                && log == old(log) + [Transaction(id, Decrease, quantity, old(clock))]
                && opening == old(opening)
                && nextId == old(nextId)
                && clock == old(clock) + 1
    {
      if quantity <= 0 {
        return Err(BadRequest(BadQuantityMessage));
      }
      if id !in products {
        return Err(NotFound(NotFoundMessage));
      }
      if products[id].stock < quantity {
        return Err(BadRequest(InsufficientMessage));
      }
      Record(id, Decrease, quantity);
      r := Ok(products[id].stock);
    }

    /** getProductSummary: 404 for an unknown id; otherwise the stored stock and the two
        sums over the product's records, which replay to that stock. Changes nothing. */
    function GetProductSummary(id: ProductId): (r: Result<Summary>)
      reads this
      requires Valid()
      ensures r.Err? <==> id !in products
      ensures r.Err? ==> r.failure == NotFound(NotFoundMessage)
      ensures r.Ok? ==> r.value.product == products[id] && r.value.currentStock == products[id].stock
      ensures r.Ok? ==> (r.value.totalIncreased == Total(log, id, Increase)
                         && r.value.totalDecreased == Total(log, id, Decrease))
      ensures r.Ok? ==> r.value.currentStock >= 0 && r.value.totalIncreased >= 0 && r.value.totalDecreased >= 0
      ensures r.Ok? ==> r.value.currentStock == opening[id] + r.value.totalIncreased - r.value.totalDecreased
    {
      if id !in products then Err(NotFound(NotFoundMessage))
      else
        var product := products[id];
        var mine := ForProduct(log, id);
        TotalNonNegative(log, id, Increase);
        TotalNonNegative(log, id, Decrease);
        LedgerReplay(products, log, clock, nextId, opening, id);
        Ok(Summary(product, product.stock, SumQuantities(OfKind(mine, Increase)), SumQuantities(OfKind(mine, Decrease))))
    }

    /** getTransactions: the product's records, newest first; an empty list (not 404) when
        the id is unknown or has no records. Changes nothing. */
    function GetTransactions(id: ProductId): (r: seq<Transaction>)
      reads this
      requires Valid()
      ensures forall t :: t in r <==> t in log && t.productId == id
      ensures Descending(r, Stamp)
      ensures id !in products ==> r == []
    {
      var r := NewestFirst(log, id);
      assert r != [] ==> r[0] in r;
      r
    }

    /** listProducts: every stored product, each once, newest first. Changes nothing. */
    function ListProducts(): (r: seq<Product>)
      reads this
      requires Valid()
      ensures |r| == |products|
      ensures forall p :: p in r <==> p in products.Values
      ensures Descending(r, CreatedAt)
    {
      ByNewest(products)
    }
  }

  /** The totals of an increase by 5 followed by a decrease by 10 of the same product. */
  lemma TwoRecordTotals(increased: Transaction, decreased: Transaction)
    requires increased.productId == decreased.productId
    requires increased.kind == Increase && increased.quantity == 5
    requires decreased.kind == Decrease && decreased.quantity == 10
    ensures Total([increased, decreased], increased.productId, Increase) == 5
    ensures Total([increased, decreased], increased.productId, Decrease) == 10
  {
    var id := increased.productId;
    assert [] + [increased] == [increased];
    assert [increased] + [decreased] == [increased, decreased];
    TotalAppend([], increased, id, Increase);
    TotalAppend([], increased, id, Decrease);
    TotalAppend([increased], decreased, id, Increase);
    TotalAppend([increased], decreased, id, Decrease);
  }

  /** A client: creation records no opening transaction, a second product with a taken
      SKU is refused, leaving one product, and an unknown id is 404 for an adjustment and an
      empty list for the history. */
  method CreationWalkthrough() {
    var ledger := new Ledger();
    var created := ledger.CreateProduct("Laptop", "LP101", 20);
    assert created.Ok? && created.value.stock == 20;
    var id := created.value.id;
    assert ledger.products == map[id := created.value] && ledger.log == [];

    var again := ledger.CreateProduct("Laptop Pro", "LP101", 5);
    assert SkuTaken(ledger.products, "LP101");
    assert again == Err(DuplicateSku);
    assert ledger.products.Keys == {id};

    var negative := ledger.CreateProduct("Mouse", "WM202", -1);
    assert negative == Err(BadRequest(NegativeStockMessage));

    var unknown := ledger.IncreaseStock(id + 1, 1);
    assert unknown == Err(NotFound(NotFoundMessage));
    assert ledger.GetTransactions(id + 1) == [];
  }

  /** A client: an increase is logged once; rejected decreases change nothing. */
  method AdjustmentWalkthrough() {
    var ledger := new Ledger();
    var created := ledger.CreateProduct("Laptop", "LP101", 20);
    var id := created.value.id;
    var up := ledger.IncreaseStock(id, 5);
    assert up == Ok(25);
    assert ledger.log == [Transaction(id, Increase, 5, 1)];
    var history := ledger.GetTransactions(id);
    assert forall t :: t in history <==> t == Transaction(id, Increase, 5, 1);

    var tooMany := ledger.DecreaseStock(id, 30);
    assert tooMany == Err(BadRequest(InsufficientMessage));
    assert ledger.products[id].stock == 25 && |ledger.log| == 1;
    var zero := ledger.DecreaseStock(id, 0);
    assert zero == Err(BadRequest(BadQuantityMessage));
  }

  /** A client: the summary after +5 and -10 on an opening stock of 20. */
  method SummaryWalkthrough() {
    var ledger := new Ledger();
    var created := ledger.CreateProduct("Laptop", "LP101", 20);
    var id := created.value.id;
    var up := ledger.IncreaseStock(id, 5);
    var down := ledger.DecreaseStock(id, 10);
    assert down == Ok(15);

    var summary := ledger.GetProductSummary(id);
    var increased, decreased := Transaction(id, Increase, 5, 1), Transaction(id, Decrease, 10, 2);
    assert ledger.log == [increased, decreased];
    TwoRecordTotals(increased, decreased);
    assert summary == Ok(Summary(ledger.products[id], 15, 5, 10));
  }
}

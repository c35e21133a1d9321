/** The product document of backend/src/models/product.model.js and the constraints the
    product collection enforces on it. */
module ProductModel {

  /** A product's `_id`: handed out by the store at creation and never reused. */
  type ProductId = nat

  /** One product document. `createdAt` and `updatedAt` come from the schema's
      `timestamps` option; their values are readings of the ledger's logical clock. */
  datatype Product = Product(
    id: ProductId,
    name: string,
    sku: string,
    stock: int,
    createdAt: nat,
    updatedAt: nat)

  /** The field constraints of one document: `name` and `sku` are required strings (a
      required string rejects ""), `stock` is required with `min: 0`, and the store's
      timestamps never run backwards. */
  predicate Conforms(p: Product) {
    p.name != [] && p.sku != [] && p.stock >= 0 && p.createdAt <= p.updatedAt
  }

  /** Some stored product already carries `sku`. */
  predicate SkuTaken(store: map<ProductId, Product>, sku: string) {
    exists k :: k in store && store[k].sku == sku
  }

  /** The unique index on `sku`: no two stored products share one. */
  predicate SkusUnique(store: map<ProductId, Product>) {
    forall a, b :: a in store && b in store && a != b ==> store[a].sku != store[b].sku
  }

  /** No two products were created at the same instant, so "newest first" is a total order. */
  predicate CreatedDistinct(store: map<ProductId, Product>) {
    forall a, b :: a in store && b in store && a != b ==> store[a].createdAt != store[b].createdAt
  }

  /** Every stored document conforms to the schema and is filed under its own id. */
  predicate StoreConforms(store: map<ProductId, Product>) {
    forall k :: k in store ==> store[k].id == k && Conforms(store[k])
  }

  /** The sort key of the product listing. */
  function CreatedAt(p: Product): int {
    p.createdAt
  }

  /** The ids of the stored products that carry `sku`. */
  function OwnersOf(store: map<ProductId, Product>, sku: string): set<ProductId> {
    set k | k in store && store[k].sku == sku
  }

  /** Under the unique index a taken SKU belongs to exactly one product, and a free one to none. */
  lemma OneProductPerSku(store: map<ProductId, Product>, sku: string)
    requires SkusUnique(store)
    ensures SkuTaken(store, sku) ==> |OwnersOf(store, sku)| == 1
    ensures !SkuTaken(store, sku) ==> OwnersOf(store, sku) == {}
  {
    if SkuTaken(store, sku) {
      var k :| k in store && store[k].sku == sku;
      assert OwnersOf(store, sku) == {k};
    }
  }
}

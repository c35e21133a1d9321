/** The read side of backend/src/controllers/product.controller.js (the summary's
    filter/reduce sums and the two newest-first listings) and the ledger-replay facts the
    write side relies on. */
module LedgerQueries {
  import opened Ordering
  import opened ProductModel
  import opened TransactionModel

  // ---------------------------------------------------------------------------
  // Filters and the reduce of getProductSummary
  // ---------------------------------------------------------------------------

  /** `Transaction.find({productId: id})`: the records of one product, in log order. */
  function ForProduct(log: seq<Transaction>, id: ProductId): (r: seq<Transaction>)
    ensures |r| <= |log|
    ensures forall t :: t in r <==> t in log && t.productId == id
  {
    if log == [] then []
    else (if log[0].productId == id then [log[0]] else []) + ForProduct(log[1..], id)
  }

  /** `.filter((t) => t.type === kind)`. */
  function OfKind(ts: seq<Transaction>, kind: Kind): (r: seq<Transaction>)
    ensures |r| <= |ts|
    ensures forall t :: t in r <==> t in ts && t.kind == kind
  {
    if ts == [] then []
    else (if ts[0].kind == kind then [ts[0]] else []) + OfKind(ts[1..], kind)
  }

  /** `.reduce((sum, t) => sum + t.quantity, acc)`: a left fold. */
  function Reduce(ts: seq<Transaction>, acc: int): int {
    if ts == [] then acc else Reduce(ts[1..], acc + ts[0].quantity)
  }

  /** The reduce as getProductSummary starts it, from 0. */
  function SumQuantities(ts: seq<Transaction>): int {
    Reduce(ts, 0)
  }

  /** `totalIncreased` (kind Increase) or `totalDecreased` (kind Decrease) of one product. */
  function Total(log: seq<Transaction>, id: ProductId, kind: Kind): int {
    SumQuantities(OfKind(ForProduct(log, id), kind))
  }

  /** The fold's accumulator only shifts the result. */
  lemma {:induction false} ReduceShift(ts: seq<Transaction>, acc: int)
    ensures Reduce(ts, acc) == acc + SumQuantities(ts)
    decreases |ts|
  {
    if ts != [] {
      ReduceShift(ts[1..], acc + ts[0].quantity);
      ReduceShift(ts[1..], ts[0].quantity);
    }
  }

  /** The sum of a concatenation is the sum of the sums. */
  lemma {:induction false} SumConcat(a: seq<Transaction>, b: seq<Transaction>)
    ensures SumQuantities(a + b) == SumQuantities(a) + SumQuantities(b)
    decreases |a|
  {
    if a == [] {
      assert a + b == b;
    } else {
      assert (a + b)[1..] == a[1..] + b;
      ReduceShift(a[1..] + b, a[0].quantity);
      ReduceShift(a[1..], a[0].quantity);
      SumConcat(a[1..], b);
    }
  }

  /** Filtering by product distributes over concatenation. */
  lemma {:induction false} ForProductConcat(a: seq<Transaction>, b: seq<Transaction>, id: ProductId)
    ensures ForProduct(a + b, id) == ForProduct(a, id) + ForProduct(b, id)
    decreases |a|
  {
    if a == [] {
      assert a + b == b;
    } else {
      assert (a + b)[1..] == a[1..] + b;
      ForProductConcat(a[1..], b, id);
    }
  }

  /** Filtering by kind distributes over concatenation. */
  lemma {:induction false} OfKindConcat(a: seq<Transaction>, b: seq<Transaction>, kind: Kind)
    ensures OfKind(a + b, kind) == OfKind(a, kind) + OfKind(b, kind)
    decreases |a|
  {
    if a == [] {
      assert a + b == b;
    } else {
      assert (a + b)[1..] == a[1..] + b;
      OfKindConcat(a[1..], b, kind);
    }
  }

  /** Appending one record adds its quantity to exactly the one total it belongs to. */
  lemma TotalAppend(log: seq<Transaction>, t: Transaction, id: ProductId, kind: Kind)
    ensures Total(log + [t], id, kind)
         == Total(log, id, kind) + (if t.productId == id && t.kind == kind then t.quantity else 0)
  {
    assert [t][1..] == [];
    var one := ForProduct([t], id);
    assert one == if t.productId == id then [t] else [];
    var picked := OfKind(one, kind);
    assert picked == if t.productId == id && t.kind == kind then [t] else [];
    assert Reduce([t], 0) == Reduce([], t.quantity);
    assert SumQuantities(picked) == if t.productId == id && t.kind == kind then t.quantity else 0;
    ForProductConcat(log, [t], id);
    OfKindConcat(ForProduct(log, id), one, kind);
    SumConcat(OfKind(ForProduct(log, id), kind), picked);
  }

  /** A sum of positive quantities is never negative. */
  lemma {:induction false} SumNonNegative(ts: seq<Transaction>)
    requires forall t :: t in ts ==> t.quantity > 0
    ensures SumQuantities(ts) >= 0
    decreases |ts|
  {
    if ts != [] {
      assert ts[0] in ts;
      assert forall t :: t in ts[1..] ==> t in ts;
      SumNonNegative(ts[1..]);
      ReduceShift(ts[1..], ts[0].quantity);
    }
  }

  /** Both totals of a product are non-negative when every logged quantity is positive. */
  lemma TotalNonNegative(log: seq<Transaction>, id: ProductId, kind: Kind)
    requires forall t :: t in log ==> t.quantity > 0
    ensures Total(log, id, kind) >= 0
  {
    SumNonNegative(OfKind(ForProduct(log, id), kind));
  }

  /** A product that no record refers to has no records. */
  lemma {:induction false} ForProductUnreferenced(log: seq<Transaction>, id: ProductId)
    requires forall t :: t in log ==> t.productId != id
    ensures ForProduct(log, id) == []
    decreases |log|
  {
    if log != [] {
      assert log[0] in log;
      assert forall t :: t in log[1..] ==> t in log;
      ForProductUnreferenced(log[1..], id);
    }
  }

  /** A product that no record refers to has zero totals. */
  lemma TotalUnreferenced(log: seq<Transaction>, id: ProductId, kind: Kind)
    requires forall t :: t in log ==> t.productId != id
    ensures Total(log, id, kind) == 0
  {
    ForProductUnreferenced(log, id);
  }

  // ---------------------------------------------------------------------------
  // Ledger replay
  // ---------------------------------------------------------------------------

  /** The stock a product must have by replaying its records over its opening balance. */
  function Replay(opening: map<ProductId, int>, log: seq<Transaction>, id: ProductId): int
    requires id in opening
  {
    opening[id] + Total(log, id, Increase) - Total(log, id, Decrease)
  }

  /** Every stored product's stock equals its replayed stock. (The trigger keeps the
      replay of a product from being unfolded until some proof asks for it.) */
  predicate Balanced(products: map<ProductId, Product>, opening: map<ProductId, int>, log: seq<Transaction>) {
    && products.Keys <= opening.Keys
    && forall k {:trigger Replay(opening, log, k)} ::
         k in products ==> products[k].stock == Replay(opening, log, k)
  }

  /** `product.stock += quantity` or `product.stock -= quantity`, then `save()`, which
      stamps `updatedAt`. */
  function Adjusted(p: Product, kind: Kind, quantity: int, now: nat): Product {
    p.(stock := if kind == Increase then p.stock + quantity else p.stock - quantity,
       updatedAt := now)
  }

  /** A stock adjustment together with its matching record keeps every product balanced. */
  lemma AdjustKeepsBalance(
    products: map<ProductId, Product>, opening: map<ProductId, int>, log: seq<Transaction>,
    id: ProductId, kind: Kind, quantity: int, now: nat)
    requires Balanced(products, opening, log) && id in products
    ensures Balanced(products[id := Adjusted(products[id], kind, quantity, now)], opening,
                     log + [Transaction(id, kind, quantity, now)])
  {
    var t := Transaction(id, kind, quantity, now);
    var after := products[id := Adjusted(products[id], kind, quantity, now)];
    forall k | k in after
      ensures k in opening && after[k].stock == Replay(opening, log + [t], k)
    {
      assert products[k].stock == Replay(opening, log, k);
      TotalAppend(log, t, k, Increase);
      TotalAppend(log, t, k, Decrease);
    }
  }

  /** Creating a product with no record keeps the ledger balanced when its opening balance
      is its initial stock: creation writes no opening transaction. */
  lemma CreateKeepsBalance(
    products: map<ProductId, Product>, opening: map<ProductId, int>, log: seq<Transaction>,
    p: Product)
    requires Balanced(products, opening, log)
    requires p.id !in products
    requires forall t :: t in log ==> t.productId != p.id
    ensures Balanced(products[p.id := p], opening[p.id := p.stock], log)
  {
    var after, opening' := products[p.id := p], opening[p.id := p.stock];
    forall k | k in after
      ensures k in opening' && after[k].stock == Replay(opening', log, k)
    {
      if k == p.id {
        TotalUnreferenced(log, k, Increase);
        TotalUnreferenced(log, k, Decrease);
      } else {
        assert products[k].stock == Replay(opening, log, k);
      }
    }
  }

  // ---------------------------------------------------------------------------
  // The two listings
  // ---------------------------------------------------------------------------

  /** The records of one product keep the log's clock order. */
  lemma {:induction false} ForProductChronological(log: seq<Transaction>, id: ProductId)
    requires Chronological(log)
    ensures Chronological(ForProduct(log, id))
    decreases |log|
  {
    if log != [] {
      var rest := ForProduct(log[1..], id);
      ForProductChronological(log[1..], id);
      forall t | t in rest
        ensures log[0].timestamp < t.timestamp
      {
        var i :| 0 <= i < |log[1..]| && log[1..][i] == t;
        assert log[i + 1] == t;
      }
    }
  }

  /** `Transaction.find({productId: id}).sort({timestamp: -1})`. */
  function NewestFirst(log: seq<Transaction>, id: ProductId): (r: seq<Transaction>)
    requires Chronological(log)
    ensures forall t :: t in r <==> t in log && t.productId == id
    ensures Descending(r, Stamp)
  {
    ForProductChronological(log, id);
    ReverseOrder(ForProduct(log, id), Stamp);
    Reverse(ForProduct(log, id))
  }

  /** Any sequence holding exactly one product's records, newest first, is NewestFirst's. */
  lemma NewestFirstIsTheSort(log: seq<Transaction>, id: ProductId, s: seq<Transaction>)
    requires Chronological(log)
    requires Descending(s, Stamp)
    requires forall t :: t in s <==> t in log && t.productId == id
    ensures s == NewestFirst(log, id)
  {
    DescendingUnique(s, NewestFirst(log, id), Stamp);
  }

  /** Among the products filed under a non-empty set of ids, one was created last. */
  lemma {:induction false} NewestExists(m: map<ProductId, Product>, ids: set<ProductId>)
    requires ids != {} && ids <= m.Keys
    ensures exists k :: k in ids && forall j :: j in ids ==> m[j].createdAt <= m[k].createdAt
    decreases ids
  {
    var k0 :| k0 in ids;
    if ids == {k0} {
      assert forall j :: j in ids ==> j == k0;
    } else {
      var rest := ids - {k0};
      NewestExists(m, rest);
      var k1 :| k1 in rest && forall j :: j in rest ==> m[j].createdAt <= m[k1].createdAt;
      if m[k0].createdAt <= m[k1].createdAt {
        assert forall j :: j in ids ==> m[j].createdAt <= m[k1].createdAt;
      } else {
        assert forall j :: j in ids ==> m[j].createdAt <= m[k0].createdAt;
      }
    }
  }

  /** `r` lists the products filed under `ids`, each once, newest first. */
  ghost predicate ListsNewestFirst(m: map<ProductId, Product>, ids: set<ProductId>, r: seq<Product>)
    requires ids <= m.Keys
  {
    && |r| == |ids|
    && (forall p :: p in r <==> p.id in ids && m[p.id] == p)
    && Descending(r, CreatedAt)
  }

  /** Putting the newest product in front of a listing of the others lists them all. */
  lemma PrependNewest(m: map<ProductId, Product>, ids: set<ProductId>, k: ProductId, r: seq<Product>)
    requires StoreConforms(m) && CreatedDistinct(m)
    requires ids <= m.Keys && k in ids
    requires forall j :: j in ids ==> m[j].createdAt <= m[k].createdAt
    requires ListsNewestFirst(m, ids - {k}, r)
    ensures ListsNewestFirst(m, ids, [m[k]] + r)
  {
    forall p | p in r
      ensures p.createdAt < m[k].createdAt
    {
      assert p.id in ids && p.id != k;
    }
    var s := [m[k]] + r;
    forall i, j | 0 <= i < j < |s|
      ensures CreatedAt(s[i]) > CreatedAt(s[j])
    {
      assert s[j] == r[j - 1];
      assert r[j - 1] in r;
      if i > 0 {
        assert s[i] == r[i - 1];
      }
    }
  }

  /** The products filed under `ids`, newest first. */
  function NewestOf(m: map<ProductId, Product>, ids: set<ProductId>): (r: seq<Product>)
    requires StoreConforms(m) && CreatedDistinct(m) && ids <= m.Keys
    ensures ListsNewestFirst(m, ids, r)
    decreases ids
  {
    if ids == {} then []
    else
      NewestExists(m, ids);
      var k :| k in ids && forall j :: j in ids ==> m[j].createdAt <= m[k].createdAt;
      var tail := NewestOf(m, ids - {k});
      PrependNewest(m, ids, k, tail);
      [m[k]] + tail
  }

  /** `Product.find({}).sort({createdAt: -1})`: every stored product, each once, newest first. */
  function ByNewest(m: map<ProductId, Product>): (r: seq<Product>)
    requires StoreConforms(m) && CreatedDistinct(m)
    ensures |r| == |m|
    ensures forall p :: p in r <==> p in m.Values
    ensures Descending(r, CreatedAt)
  {
    var r := NewestOf(m, m.Keys);
    assert forall p :: p in m.Values ==> p.id in m && m[p.id] == p;
    r
  }

  /** Any sequence holding exactly the stored products, newest first, is ByNewest's. */
  lemma ByNewestIsTheSort(m: map<ProductId, Product>, s: seq<Product>)
    requires StoreConforms(m) && CreatedDistinct(m)
    requires Descending(s, CreatedAt)
    requires forall p :: p in s <==> p in m.Values
    ensures s == ByNewest(m)
  {
    DescendingUnique(s, ByNewest(m), CreatedAt);
  }
}

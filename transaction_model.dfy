/** The transaction document of backend/src/models/transaction.model.js: one stock movement,
    written once and never changed. */
module TransactionModel {
  import opened Ordering
  import opened ProductModel

  datatype Option<T> = None | Some(value: T)

  /** The closed `type` enum: the schema admits no other kind. */
  datatype Kind = Increase | Decrease

  /** The string the document stores for a kind. */
  function KindName(k: Kind): (s: string)
    ensures ParseKind(s) == Some(k)
  {
    match k
    case Increase => "INCREASE"
    case Decrease => "DECREASE"
  }

  /** The schema's enum check: a stored `type` is one of the two names, and nothing else
      is accepted. */
  function ParseKind(s: string): Option<Kind> {
    if s == "INCREASE" then Some(Increase)
    else if s == "DECREASE" then Some(Decrease)
    else None
  }

  /** The enum check accepts exactly the names the model stores for its kinds, and a name it
      accepts is the stored name of the kind it yields. Together with `KindName`'s contract
      this makes the kinds and the accepted strings two views of one closed set. */
  lemma AcceptsExactlyKindNames(s: string)
    ensures ParseKind(s).Some? <==> exists k :: s == KindName(k)
    ensures forall k :: ParseKind(s) == Some(k) ==> KindName(k) == s
  {
    if ParseKind(s).Some? {
      assert s == KindName(ParseKind(s).value);
    }
  }

  /** One transaction document. `productId` is required and refers to a product;
      `quantity` is required but the schema sets no bound on it; `timestamp` is the clock
      reading when the document was created. The document's own `_id` is not modelled:
      a record is identified by its place in the log. */
  datatype Transaction = Transaction(
    productId: ProductId,
    kind: Kind,
    quantity: int,
    timestamp: nat)

  /** The sort key of the transaction listing. */
  function Stamp(t: Transaction): int {
    t.timestamp
  }

  /** The log was appended to in clock order: timestamps strictly increase along it. */
  predicate Chronological(log: seq<Transaction>) {
    Ascending(log, Stamp)
  }
}

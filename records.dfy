/**
 * The Payment and Lead collections of the document store, and the two
 * store operations the payment controller uses on them: saving a new
 * document and `findOneAndUpdate` on an exact `orderId` match.
 */
module Records {
  import opened Wrappers
  import opened Fields

  /**
   * A Payment document. It is created with the order, customer and amount
   * only; the callback later overwrites the transaction fields, each with
   * whatever the gateway sent, possibly nothing.
   */
  datatype Payment = Payment(
    orderId: string,
    customerId: string,
    amount: Option<string>,
    transactionId: Option<string>,
    paymentStatus: Option<string>,
    paymentMode: Option<string>,
    transactionDate: Option<string>)

  /**
   * A Lead document. The lead collection belongs to the rest of the
   * application; `details` stands for its other fields, which the payment
   * controller never reads or writes.
   */
  datatype Lead = Lead(orderId: string, paymentStatus: Option<string>, details: Fields)

  function PaymentOrderId(p: Payment): string { p.orderId }

  function LeadOrderId(l: Lead): string { l.orderId }

  /** The index of the first document whose key is `id`, if there is one. */
  function FirstMatch<R>(s: seq<R>, key: R -> string, id: string): (r: Option<nat>)
    ensures r.Some? ==> r.value < |s| && key(s[r.value]) == id
    ensures r.Some? ==> forall j :: 0 <= j < r.value ==> key(s[j]) != id
    ensures r.None? ==> forall j :: 0 <= j < |s| ==> key(s[j]) != id
  {
    if s == [] then None
    else if key(s[0]) == id then Some(0)
    else match FirstMatch(s[1..], key, id)
      case None => None
      case Some(j) => Some(j + 1)
  }

  /**
   * The documents after `findOneAndUpdate` with filter `key == id`: the
   * scan stops at the first match, which alone is rewritten by `f`.
   */
  function UpdateFirst<R>(s: seq<R>, key: R -> string, id: string, f: R -> R): (r: seq<R>)
    ensures |r| == |s|
    ensures FirstMatch(s, key, id).None? ==> r == s
    ensures FirstMatch(s, key, id).Some? ==>
      var i := FirstMatch(s, key, id).value;
      r[i] == f(s[i]) && forall j :: 0 <= j < |s| && j != i ==> r[j] == s[j]
  {
    if s == [] then []
    else if key(s[0]) == id then [f(s[0])] + s[1..]
    else [s[0]] + UpdateFirst(s[1..], key, id, f)
  }

  /**
   * Updating with a rewrite that keeps the key and gives the same document
   * when applied twice, twice in a row, is the same as updating once.
   */
  lemma UpdateFirstIdempotent<R>(s: seq<R>, key: R -> string, id: string, f: R -> R)
    requires forall x :: key(f(x)) == key(x) && f(f(x)) == f(x)
    ensures UpdateFirst(UpdateFirst(s, key, id, f), key, id, f) == UpdateFirst(s, key, id, f)
  {
  }

  /** One collection of documents, held in insertion order. */
  class Collection<R> {
    var records: seq<R>

    constructor (records: seq<R>)
      ensures this.records == records
    {
      this.records := records;
    }

    /** `new Model(doc).save()`: the document is added after the existing ones. */
    method Save(doc: R)
      modifies this
      ensures records == old(records) + [doc]
    {
      records := records + [doc];
    }

    /** The scan `findOne` performs: the position of the first match. */
    method FindFirst(key: R -> string, id: string) returns (i: Option<nat>)
      ensures i == FirstMatch(records, key, id)
    {
      var n := 0;
      while n < |records| && key(records[n]) != id
        invariant 0 <= n <= |records|
        invariant forall j :: 0 <= j < n ==> key(records[j]) != id
      {
        n := n + 1;
      }
      if n == |records| {
        i := None;
      } else {
        i := Some(n);
      }
    }

    /**
     * `findOneAndUpdate(filter, update, { new: true })`: rewrites the first
     * matching document and returns it as updated, or returns nothing and
     * changes nothing when no document matches.
     */
    method FindOneAndUpdate(key: R -> string, id: string, f: R -> R) returns (updated: Option<R>)
      modifies this
      ensures records == UpdateFirst(old(records), key, id, f)
      ensures updated.None? <==> FirstMatch(old(records), key, id).None?
      ensures updated.Some? ==> updated.value == f(old(records)[FirstMatch(old(records), key, id).value])
    {
      var i := FindFirst(key, id);
      if i.None? {
        updated := None;
      } else {
        var doc := f(records[i.value]);
        records := records[i.value := doc];
        updated := Some(doc);
      }
    }
  }
}

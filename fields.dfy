/**
 * A plain JavaScript object whose properties are strings, as the request
 * bodies and the gateway parameter object are: a sequence of key/value
 * entries in insertion order.
 */
module Fields {
  import opened Wrappers

  datatype Field = Field(key: string, value: string)

  type Fields = seq<Field>

  /** The keys of `d`, in insertion order (what `Object.keys` returns). */
  function Keys(d: Fields): (ks: seq<string>)
    ensures |ks| == |d|
    ensures forall i :: 0 <= i < |d| ==> ks[i] == d[i].key
  {
    if d == [] then [] else [d[0].key] + Keys(d[1..])
  }

  /** Property access `d[k]`: the value stored under `k`, or absent. */
  function Lookup(d: Fields, k: string): (r: Option<string>)
    ensures r.None? <==> forall i :: 0 <= i < |d| ==> d[i].key != k
  {
    if d == [] then None
    else if d[0].key == k then Some(d[0].value)
    else Lookup(d[1..], k)
  }

  /** The entry at position `i` is the one a lookup of its key finds, when no earlier entry has that key. */
  lemma {:induction false} LookupAt(d: Fields, i: nat)
    requires i < |d|
    requires forall j :: 0 <= j < i ==> d[j].key != d[i].key
    ensures Lookup(d, d[i].key) == Some(d[i].value)
  {
    if i > 0 {
      LookupAt(d[1..], i - 1);
    }
  }

  /**
   * Property assignment `d[k] = v`: the key takes the new value, other keys
   * are unaffected, and a key not yet present is added at the end.
   */
  function Assign(d: Fields, k: string, v: string): (r: Fields)
    ensures Lookup(r, k) == Some(v)
    ensures forall k' :: k' != k ==> Lookup(r, k') == Lookup(d, k')
    ensures Lookup(d, k).None? ==> r == d + [Field(k, v)]
  {
    if d == [] then [Field(k, v)]
    else if d[0].key == k then
      var r := [Field(k, v)] + d[1..];
      assert r[1..] == d[1..];
      r
    else
      var r := [d[0]] + Assign(d[1..], k, v);
      assert r[1..] == Assign(d[1..], k, v);
      r
  }

  /** The `delete d[k]` statement: drops the entry for `k`, keeps every other entry. */
  function Delete(d: Fields, k: string): (r: Fields)
    ensures Lookup(r, k) == None
    ensures forall k' :: k' != k ==> Lookup(r, k') == Lookup(d, k')
    ensures forall f :: f in r <==> f in d && f.key != k
  {
    if d == [] then []
    else if d[0].key == k then Delete(d[1..], k)
    else [d[0]] + Delete(d[1..], k)
  }
}

/** The key-value namespace bound as `env.VISITORS`: text keys to text values, possibly unbound. */
module Kv {
  import opened Wrappers

  /** The namespace's contents. */
  type Store = map<string, string>

  /** `env.VISITORS`: `None` when no namespace is bound to the worker. */
  type Env = Option<Store>

  const VisitorPrefix: string := "visitor:"
  const TotalVisitors: string := "total_visitors"
  const TotalVisits: string := "total_visits"

  /** Why a request's handling throws: a listed key has no value, or a visitor value is not a record. */
  datatype Error = MissingValue(key: string) | NotARecord(key: string)

  /** `key.startsWith('visitor:')`. */
  predicate IsVisitorKey(k: string) {
    VisitorPrefix <= k
  }

  /** The key of the record for fingerprint `fp`; never one of the two counter keys. */
  function VisitorKey(fp: string): (k: string)
    ensures IsVisitorKey(k) && k != TotalVisitors && k != TotalVisits
    ensures k[|VisitorPrefix|..] == fp
  {
    var k := VisitorPrefix + fp;
    assert k[0] == 'v' && TotalVisitors[0] == 't' && TotalVisits[0] == 't';
    k
  }

  /** `await store.get(k)`: the text, or null. */
  function Get(st: Store, k: string): (v: Option<string>)
    ensures v.Some? <==> k in st
    ensures v.Some? ==> v.value == st[k]
  {
    if k in st then Some(st[k]) else None
  }

  /** JavaScript truthiness of a `get` result: null and the empty text are falsy. */
  predicate Truthy(v: Option<string>) {
    v.Some? && v.value != ""
  }

  /** The counters live outside the `visitor:` key space. */
  lemma CounterKeysAreNotVisitorKeys()
    ensures !IsVisitorKey(TotalVisitors) && !IsVisitorKey(TotalVisits)
  {
    assert TotalVisitors[0] != VisitorPrefix[0];
    assert TotalVisits[0] != VisitorPrefix[0];
  }

  /** Writing a key inside `w` changes nothing outside `w`. */
  lemma PutInside(st: Store, k: string, v: string, w: set<string>)
    requires k in w
    ensures st[k := v] - w == st - w
  {
  }
}

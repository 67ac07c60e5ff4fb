/** `getStats`: both counters, and the first ten visitor records in listing order, each cut down
    to `{ip, ua (first 50 characters), count}`. */
module Statistics {
  import opened Wrappers
  import opened JsString
  import opened JsNumber
  import opened Kv
  import opened RecordJson
  import opened Counters
  import opened Tracker

  const MaxEntries: nat := 10
  const UaWidth: nat := 50

  /** One row of the `ips` list. */
  datatype Entry = Entry(ip: string, ua: string, count: nat)

  /** The JSON body of `/api/stats`. */
  datatype Stats = Stats(visitors: Num, visits: Num, ips: seq<Entry>)

  /** `{ip: data.ip, ua: data.ua.substring(0, 50), count: data.count}`. */
  function Project(r: VisitorRecord): (e: Entry)
    ensures e.ip == r.ip && e.count == r.count
    ensures |e.ua| == Min(UaWidth, |r.ua|) && e.ua <= r.ua
  {
    Entry(r.ip, JsSubstring(r.ua, 0, UaWidth), r.count)
  }

  /** `JSON.parse(await get(k))`: a missing value and a text that is not a record both throw. */
  function Lookup(st: Store, k: string): (r: Result<VisitorRecord, Error>)
    ensures r.Success? <==> k in st && Parse(st[k]).Some?
    ensures r.Success? ==> r.value == Parse(st[k]).value
  {
    if k !in st then Failure(MissingValue(k))
    else match Parse(st[k])
      case None => Failure(NotARecord(k))
      case Some(rec) => Success(rec)
  }

  /** The listed keys that start with `visitor:`, in listing order. */
  function VisitorKeys(keys: seq<string>): (r: seq<string>)
    ensures |r| <= |keys|
    ensures forall k :: k in r <==> k in keys && IsVisitorKey(k)
  {
    if |keys| == 0 then []
    else
      var init := VisitorKeys(keys[..|keys| - 1]);
      assert forall k :: k in keys <==> k in keys[..|keys| - 1] || k == keys[|keys| - 1] by {
        assert keys == keys[..|keys| - 1] + [keys[|keys| - 1]];
      }
      if IsVisitorKey(keys[|keys| - 1]) then init + [keys[|keys| - 1]] else init
  }

  /** Selecting visitor keys commutes with concatenating listings, so relative order is kept. */
  lemma {:induction false} VisitorKeysAppend(a: seq<string>, b: seq<string>)
    ensures VisitorKeys(a + b) == VisitorKeys(a) + VisitorKeys(b)
    decreases |b|
  {
    if |b| == 0 {
      assert a + b == a;
    } else {
      var n := |b| - 1;
      assert (a + b)[..|a + b| - 1] == a + b[..n];
      assert (a + b)[|a + b| - 1] == b[n];
      VisitorKeysAppend(a, b[..n]);
    }
  }

  /** The body of the `for (const key of list.keys)` loop over a listing: every visitor key is
      loaded and projected; the first one that fails to load makes the whole call throw. */
  function Collect(st: Store, keys: seq<string>): (r: Result<seq<Entry>, Error>)
    ensures r.Success? ==> |r.value| == |VisitorKeys(keys)|
    ensures r.Failure? ==> IsVisitorKey(r.error.key) && r.error.key in keys
  {
    if |keys| == 0 then Success([])
    else
      var init :- Collect(st, keys[..|keys| - 1]);
      var k := keys[|keys| - 1];
      if IsVisitorKey(k) then
        var rec :- Lookup(st, k);
        Success(init + [Project(rec)])
      else Success(init)
  }

  /** Every listed visitor key loads. */
  ghost predicate AllLoad(st: Store, vk: seq<string>) {
    forall i :: 0 <= i < |vk| ==> Lookup(st, vk[i]).Success?
  }

  /** Splitting off the last listed key. */
  lemma VisitorKeysSnoc(keys: seq<string>)
    requires |keys| > 0
    ensures var init := keys[..|keys| - 1];
      var k := keys[|keys| - 1];
      VisitorKeys(keys) == VisitorKeys(init) + (if IsVisitorKey(k) then [k] else [])
  {
  }

  /** The walk succeeds exactly when every listed visitor key loads, and then the entries are the
      projections of the listed visitor records, in listing order. */
  lemma {:induction false} CollectSpec(st: Store, keys: seq<string>)
    ensures var vk := VisitorKeys(keys);
      && (Collect(st, keys).Success? <==> AllLoad(st, vk))
      && (Collect(st, keys).Success? ==>
            |Collect(st, keys).value| == |vk|
            && forall i :: 0 <= i < |vk| ==> Collect(st, keys).value[i] == Project(Lookup(st, vk[i]).value))
  {
    if |keys| > 0 {
      var init := keys[..|keys| - 1];
      var k := keys[|keys| - 1];
      CollectSpec(st, init);
      VisitorKeysSnoc(keys);
      var vk0 := VisitorKeys(init);
      var vk := VisitorKeys(keys);
      if IsVisitorKey(k) {
        assert vk == vk0 + [k];
        assert AllLoad(st, vk) <==> AllLoad(st, vk0) && Lookup(st, k).Success? by {
          if AllLoad(st, vk0) && Lookup(st, k).Success? {
            forall i | 0 <= i < |vk|
              ensures Lookup(st, vk[i]).Success?
            {
              if i < |vk0| {
                assert vk[i] == vk0[i];
              }
            }
          }
          if AllLoad(st, vk) {
            forall i | 0 <= i < |vk0|
              ensures Lookup(st, vk0[i]).Success?
            {
              assert vk[i] == vk0[i];
            }
            assert vk[|vk0|] == k;
          }
        }
      } else {
        assert vk == vk0;
      }
    }
  }

  /** When the walk throws, it reports the first listed visitor key that does not load. */
  lemma {:induction false} CollectFirstFailure(st: Store, keys: seq<string>)
    requires Collect(st, keys).Failure?
    ensures var vk := VisitorKeys(keys);
      exists j :: 0 <= j < |vk| && AllLoad(st, vk[..j]) && Lookup(st, vk[j]) == Failure(Collect(st, keys).error)
  {
    var init := keys[..|keys| - 1];
    var k := keys[|keys| - 1];
    VisitorKeysSnoc(keys);
    var vk0 := VisitorKeys(init);
    var vk := VisitorKeys(keys);
    if Collect(st, init).Failure? {
      CollectFirstFailure(st, init);
      var j :| 0 <= j < |vk0| && AllLoad(st, vk0[..j]) && Lookup(st, vk0[j]) == Failure(Collect(st, init).error);
      assert vk[..|vk0|] == vk0;
      assert vk[..j] == vk0[..j];
      assert vk[j] == vk0[j];
    } else {
      CollectSpec(st, init);
      assert vk == vk0 + [k];
      assert vk[..|vk0|] == vk0;
      assert vk[|vk0|] == k;
    }
  }

  /** The `for` loop of `getStats` as the program writes it: one pass over the listing. */
  method CollectLoop(st: Store, keys: seq<string>) returns (res: Result<seq<Entry>, Error>)
    ensures res == Collect(st, keys)
  {
    var ips: seq<Entry> := [];
    var i := 0;
    while i < |keys|
      invariant 0 <= i <= |keys|
      invariant Collect(st, keys[..i]) == Success(ips)
    {
      assert keys[..i + 1][..i] == keys[..i];
      var k := keys[i];
      if IsVisitorKey(k) {
        var data := Lookup(st, k);
        if data.Failure? {
          res := Failure(data.error);
          FailureSticks(st, keys, i + 1);
          return;
        }
        ips := ips + [Project(data.value)];
      }
      i := i + 1;
    }
    assert keys[..i] == keys;
    res := Success(ips);
  }

  /** Once a prefix of the listing fails, the whole listing fails with the same error. */
  lemma {:induction false} FailureSticks(st: Store, keys: seq<string>, n: nat)
    requires n <= |keys| && Collect(st, keys[..n]).Failure?
    ensures Collect(st, keys) == Collect(st, keys[..n])
    decreases |keys| - n
  {
    if n == |keys| {
      assert keys[..n] == keys;
    } else {
      assert keys[..n + 1][..n] == keys[..n];
      FailureSticks(st, keys, n + 1);
    }
  }

  /** `getStats(env)`, given the names `list()` returns. Without a namespace: zeros and no entries. */
  function GetStats(env: Env, keys: seq<string>): (r: Result<Stats, Error>)
    ensures env.None? ==> r == Success(Stats(Int(0), Int(0), []))
    ensures env.Some? ==> (r.Success? <==> Collect(env.value, keys).Success?)
    ensures r.Success? ==> |r.value.ips| <= MaxEntries
    ensures env.Some? && r.Success? ==>
      && r.value.visitors == ReadCounter(Get(env.value, TotalVisitors))
      && r.value.visits == ReadCounter(Get(env.value, TotalVisits))
      && r.value.ips <= Collect(env.value, keys).value
  {
    match env
    case None => Success(Stats(Int(0), Int(0), []))
    case Some(st) =>
      var visitors := ReadCounter(Get(st, TotalVisitors));
      var visits := ReadCounter(Get(st, TotalVisits));
      var ips :- Collect(st, keys);
      Success(Stats(visitors, visits, ips[..Min(MaxEntries, |ips|)]))
  }

  /** What a successful `getStats` lists: the first ten listed visitor records in listing order,
      each with its ip and count copied and its user agent cut to 50 characters. */
  lemma StatsEntries(st: Store, keys: seq<string>)
    requires GetStats(Some(st), keys).Success?
    ensures var vk := VisitorKeys(keys);
      var ips := GetStats(Some(st), keys).value.ips;
      && |ips| == Min(MaxEntries, |vk|)
      && forall i :: 0 <= i < |ips| ==>
           && Lookup(st, vk[i]).Success?
           && ips[i] == Project(Lookup(st, vk[i]).value)
           && ips[i].ip == Lookup(st, vk[i]).value.ip
           && ips[i].count == Lookup(st, vk[i]).value.count
           && ips[i].ua <= Lookup(st, vk[i]).value.ua
           && |ips[i].ua| == Min(UaWidth, |Lookup(st, vk[i]).value.ua|)
  {
    CollectSpec(st, keys);
  }

  /** On a store whose records all parse, a listing of keys present in the store never makes
      `getStats` throw. */
  lemma StatsNeverThrow(st: Store, keys: seq<string>)
    requires RecordsParse(st)
    requires forall k :: k in keys ==> k in st
    ensures GetStats(Some(st), keys).Success?
  {
    CollectSpec(st, keys);
    var vk := VisitorKeys(keys);
    forall i | 0 <= i < |vk|
      ensures Lookup(st, vk[i]).Success?
    {
      assert vk[i] in keys;
    }
  }
}

/** Concrete request sequences against a fresh namespace, end to end through `fetch`. */
module Scenarios {
  import opened Wrappers
  import opened Hex
  import opened JsNumber
  import opened Kv
  import opened RecordJson
  import opened Counters
  import opened Tracker
  import opened Statistics
  import opened Fingerprint
  import opened Router

  /** `list()` names exactly the keys the namespace holds (in some order). */
  ghost predicate ListsAllKeys(list: Store -> seq<string>) {
    forall st: Store, k: string {:trigger k in list(st)} :: k in list(st) <==> k in st
  }

  /** What a namespace holds after one visitor's first request at time `t1`. */
  ghost predicate AfterOneRequest(st: Store, ip: string, fp: string, ua: string, t1: nat) {
    && st.Keys == {VisitorKey(fp), TotalVisitors, TotalVisits}
    && Parse(st[VisitorKey(fp)]) == Some(VisitorRecord(ip, ua, t1, 1, None))
    && st[TotalVisitors] == "1"
    && st[TotalVisits] == "1"
  }

  /** What a namespace holds after one visitor's two requests at times `t1` and `t2`. */
  ghost predicate AfterTwoRequests(st: Store, ip: string, fp: string, ua: string, t1: nat, t2: nat) {
    && st.Keys == {VisitorKey(fp), TotalVisitors, TotalVisits}
    && Parse(st[VisitorKey(fp)]) == Some(VisitorRecord(ip, ua, t1, 2, Some(t2)))
    && st[TotalVisitors] == "1"
    && st[TotalVisits] == "11"
  }

  /** The first request on a fresh namespace writes the record and sets both counters to "1". */
  lemma FirstRequest(ip: string, fp: string, ua: string, t1: nat)
    ensures var r1 := Track(Concatenated, Some(map[]), ip, fp, ua, t1);
      && r1.Success? && r1.value.Some?
      && AfterOneRequest(r1.value.value, ip, fp, ua, t1)
  {
    var st0: Store := map[];
    FirstSighting(Concatenated, st0, ip, fp, ua, t1);
    var st1 := Track(Concatenated, Some(st0), ip, fp, ua, t1).value.value;
    assert Get(st1, TotalVisitors) == Some(Concatenated(None));
    assert Get(st1, TotalVisits) == Some(Concatenated(None));
  }

  /** The second request raises the count to 2 and appends "1" to `total_visits`. */
  lemma SecondRequest(st1: Store, ip: string, fp: string, ua: string, t1: nat, t2: nat)
    requires AfterOneRequest(st1, ip, fp, ua, t1)
    ensures var r2 := Track(Concatenated, Some(st1), ip, fp, ua, t2);
      && r2.Success? && r2.value.Some?
      && AfterTwoRequests(r2.value.value, ip, fp, ua, t1, t2)
  {
    RepeatSighting(Concatenated, st1, ip, fp, ua, t2, VisitorRecord(ip, ua, t1, 1, None));
    var st2 := Track(Concatenated, Some(st1), ip, fp, ua, t2).value.value;
    assert Get(st2, TotalVisits) == Some(Concatenated(Some("1")));
    assert Concatenated(Some("1")) == "11";
  }

  /** Two tracked requests by one visitor on a fresh namespace: one record with count 2, and the
      counters at "1" and "1" + "1". */
  lemma TwoRequests(ip: string, fp: string, ua: string, t1: nat, t2: nat)
    ensures var r1 := Track(Concatenated, Some(map[]), ip, fp, ua, t1);
      && r1.Success? && r1.value.Some?
      && var r2 := Track(Concatenated, r1.value, ip, fp, ua, t2);
      && r2.Success? && r2.value.Some?
      && AfterTwoRequests(r2.value.value, ip, fp, ua, t1, t2)
  {
    FirstRequest(ip, fp, ua, t1);
    var st1 := Track(Concatenated, Some(map[]), ip, fp, ua, t1).value.value;
    SecondRequest(st1, ip, fp, ua, t1, t2);
  }

  lemma RecordsParseAfterTwo(st: Store, ip: string, fp: string, ua: string, t1: nat, t2: nat)
    requires AfterTwoRequests(st, ip, fp, ua, t1, t2)
    ensures RecordsParse(st)
  {
    CounterKeysAreNotVisitorKeys();
  }

  lemma CountersAfterTwo(st: Store, ip: string, fp: string, ua: string, t1: nat, t2: nat)
    requires AfterTwoRequests(st, ip, fp, ua, t1, t2)
    ensures ReadCounter(Get(st, TotalVisitors)) == Int(1)
    ensures ReadCounter(Get(st, TotalVisits)) == Int(11)
  {
    AsWrittenTwoIncrementsReadEleven();
    assert Get(st, TotalVisitors) == Some("1");
    assert Get(st, TotalVisits) == Some("11");
  }

  /** The statistics of such a namespace, for any listing of exactly its keys: one visitor, the
      record's entry, and `visits` 11 for two requests. */
  lemma StatsAfterTwoRequests(st: Store, ip: string, fp: string, ua: string, t1: nat, t2: nat, keys: seq<string>)
    requires AfterTwoRequests(st, ip, fp, ua, t1, t2)
    requires |ua| <= UaWidth
    requires forall k :: k in keys <==> k in st
    ensures var r := GetStats(Some(st), keys);
      && r.Success?
      && r.value.visitors == Int(1)
      && r.value.visits == Int(11)
      && |r.value.ips| >= 1
      && forall e :: e in r.value.ips ==> e == Entry(ip, ua, 2)
  {
    RecordsParseAfterTwo(st, ip, fp, ua, t1, t2);
    CountersAfterTwo(st, ip, fp, ua, t1, t2);
    StatsNeverThrow(st, keys);
    StatsEntries(st, keys);
    CounterKeysAreNotVisitorKeys();
    var rec := VisitorRecord(ip, ua, t1, 2, Some(t2));
    var vk := VisitorKeys(keys);
    assert VisitorKey(fp) in vk;
    assert Lookup(st, VisitorKey(fp)) == Success(rec);
    assert Project(rec) == Entry(ip, ua, 2);
    var ips := GetStats(Some(st), keys).value.ips;
    forall e | e in ips
      ensures e == Entry(ip, ua, 2)
    {
      var i :| 0 <= i < |ips| && ips[i] == e;
      assert vk[i] in vk;
      assert vk[i] == VisitorKey(fp);
    }
  }

  /** One visitor loads `/` and then `/api/stats`. The stats show one visitor, records with count 2
      and the visitor's ip and user agent, and `visits` 11 where two requests were made: the
      second increment of `total_visits` appended "1" to the text "1". */
  lemma PageThenStats(sha256: seq<byte> -> Digest, list: Store -> seq<string>, t1: nat, t2: nat)
    requires ListsAllKeys(list)
    ensures var ip, ua := Some("1.2.3.4"), Some("UA1");
      var r1 := Fetch(Some(map[]), Request("/", ip, ua), t1, sha256, list);
      var r2 := Fetch(r1.env, Request(StatsPath, ip, ua), t2, sha256, list);
      && r1.response == Html(Index)
      && r2.response.StatsJson?
      && r2.response.stats.visitors == Int(1)
      && r2.response.stats.visits == Int(11)
      && |r2.response.stats.ips| >= 1
      && forall e :: e in r2.response.stats.ips ==> e == Entry("1.2.3.4", "UA1", 2)
  {
    var ip, ua := Some("1.2.3.4"), Some("UA1");
    var req1, req2 := Request("/", ip, ua), Request(StatsPath, ip, ua);
    var fp := RequestFingerprint(req1, sha256);
    assert RequestFingerprint(req2, sha256) == fp;
    assert HeaderOr(ip) == "1.2.3.4" && HeaderOr(ua) == "UA1";
    TwoRequests("1.2.3.4", fp, "UA1", t1, t2);
    var tr1 := TrackRequest(Some(map[]), req1, t1, sha256);
    assert tr1 == Track(Concatenated, Some(map[]), "1.2.3.4", fp, "UA1", t1);
    var st1 := tr1.value.value;
    var tr2 := TrackRequest(Some(st1), req2, t2, sha256);
    assert tr2 == Track(Concatenated, Some(st1), "1.2.3.4", fp, "UA1", t2);
    var st2 := tr2.value.value;
    assert RouteOf(req1.path) == PageRoute(Index);
    StatsAfterTwoRequests(st2, "1.2.3.4", fp, "UA1", t1, t2, list(st2));
  }
}

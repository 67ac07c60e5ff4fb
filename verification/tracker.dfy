/** `trackVisitor`: one read-modify-write of the visitor's record, then of the counters. */
module Tracker {
  import opened Wrappers
  import opened Kv
  import opened RecordJson
  import opened Counters

  /** The keys `trackVisitor` may write for fingerprint `fp`. */
  function Written(fp: string): set<string> {
    {VisitorKey(fp), TotalVisitors, TotalVisits}
  }

  /** The record's text is present and not empty (`!existing` is false). */
  predicate Seen(st: Store, fp: string) {
    Truthy(Get(st, VisitorKey(fp)))
  }

  /** `trackVisitor(env, ip, fingerprint, ua)` at time `now`, with counters advanced by `bump`.
      Unbound namespace: nothing happens. First sighting: a fresh record, then `total_visitors`,
      then `total_visits`. Repeat sighting: the parsed record with its count raised and `last` set,
      then `total_visits`; a record text that does not parse makes the call throw before any write. */
  function Track(bump: CounterStep, env: Env, ip: string, fp: string, ua: string, now: nat): (r: Result<Env, Error>)
    ensures env.None? ==> r == Success(None)
    ensures r.Failure? <==> env.Some? && Seen(env.value, fp) && Parse(env.value[VisitorKey(fp)]).None?
    ensures r.Failure? ==> r.error == NotARecord(VisitorKey(fp))
    ensures env.Some? && r.Success? ==> r.value.Some? && r.value.value - Written(fp) == env.value - Written(fp)
  {
    match env
    case None => Success(None)
    case Some(st) =>
      var key := VisitorKey(fp);
      if !Truthy(Get(st, key)) then
        var st1 := st[key := Stringify(VisitorRecord(ip, ua, now, 1, None))];
        var st2 := st1[TotalVisitors := bump(Get(st1, TotalVisitors))];
        var st3 := st2[TotalVisits := bump(Get(st2, TotalVisits))];
        PutInside(st, key, st1[key], Written(fp));
        PutInside(st1, TotalVisitors, st2[TotalVisitors], Written(fp));
        PutInside(st2, TotalVisits, st3[TotalVisits], Written(fp));
        Success(Some(st3))
      else
        match Parse(st[key])
        case None => Failure(NotARecord(key))
        case Some(data) =>
          var st1 := st[key := Stringify(data.(count := data.count + 1, last := Some(now)))];
          var st2 := st1[TotalVisits := bump(Get(st1, TotalVisits))];
          PutInside(st, key, st1[key], Written(fp));
          PutInside(st1, TotalVisits, st2[TotalVisits], Written(fp));
          Success(Some(st2))
  }

  /** The program's own tracking step: counters advanced by string concatenation. */
  function TrackVisitor(env: Env, ip: string, fp: string, ua: string, now: nat): (r: Result<Env, Error>)
    ensures env.None? ==> r == Success(None)
    ensures env.Some? && !Seen(env.value, fp) ==>
      (r.Success? && r.value.Some?
       && Get(r.value.value, TotalVisitors) == Some(Concatenated(Get(env.value, TotalVisitors))))
  {
    Track(Concatenated, env, ip, fp, ua, now)
  }

  /** First sighting: a record `{ip, ua, first: now, count: 1}` with no `last`, and both counters
      advanced; no other key changes. */
  lemma FirstSighting(bump: CounterStep, st: Store, ip: string, fp: string, ua: string, now: nat)
    requires !Seen(st, fp)
    ensures var r := Track(bump, Some(st), ip, fp, ua, now);
      && r.Success? && r.value.Some?
      && var st' := r.value.value;
      && Get(st', VisitorKey(fp)).Some?
      && Parse(st'[VisitorKey(fp)]) == Some(VisitorRecord(ip, ua, now, 1, None))
      && Get(st', TotalVisitors) == Some(bump(Get(st, TotalVisitors)))
      && Get(st', TotalVisits) == Some(bump(Get(st, TotalVisits)))
      && st'.Keys == st.Keys + Written(fp)
  {
    ParseStringify(VisitorRecord(ip, ua, now, 1, None));
  }

  /** Repeat sighting of a record that parses: its count goes up by exactly one, `last` becomes
      `now`, ip, ua and first are kept; `total_visits` advances and `total_visitors` is untouched. */
  lemma RepeatSighting(bump: CounterStep, st: Store, ip: string, fp: string, ua: string, now: nat, rec: VisitorRecord)
    requires VisitorKey(fp) in st && Parse(st[VisitorKey(fp)]) == Some(rec)
    ensures var r := Track(bump, Some(st), ip, fp, ua, now);
      && r.Success? && r.value.Some?
      && var st' := r.value.value;
      && Get(st', VisitorKey(fp)).Some?
      && Parse(st'[VisitorKey(fp)]) == Some(VisitorRecord(rec.ip, rec.ua, rec.first, rec.count + 1, Some(now)))
      && Get(st', TotalVisitors) == Get(st, TotalVisitors)
      && Get(st', TotalVisits) == Some(bump(Get(st, TotalVisits)))
      && st'.Keys == st.Keys + {TotalVisits}
  {
    assert st[VisitorKey(fp)] != "";
    ParseStringify(VisitorRecord(rec.ip, rec.ua, rec.first, rec.count + 1, Some(now)));
  }

  /** Whatever the sighting, a successful call advances `total_visits` once, and `total_visitors`
      once exactly when the fingerprint was not seen before. */
  lemma TrackCounters(bump: CounterStep, st: Store, ip: string, fp: string, ua: string, now: nat)
    requires Track(bump, Some(st), ip, fp, ua, now).Success?
    ensures var st' := Track(bump, Some(st), ip, fp, ua, now).value.value;
      && Get(st', TotalVisits) == Some(bump(Get(st, TotalVisits)))
      && Get(st', TotalVisitors) == (if Seen(st, fp) then Get(st, TotalVisitors) else Some(bump(Get(st, TotalVisitors))))
  {
    var key := VisitorKey(fp);
    assert key != TotalVisitors && key != TotalVisits;
  }

  /** Every visitor key holds a record text that parses. */
  ghost predicate RecordsParse(st: Store) {
    forall k :: k in st && IsVisitorKey(k) ==> Parse(st[k]).Some?
  }

  /** Keys outside `Written(fp)` keep their values. */
  lemma Unwritten(bump: CounterStep, st: Store, ip: string, fp: string, ua: string, now: nat, k: string)
    requires Track(bump, Some(st), ip, fp, ua, now).Success?
    requires k !in Written(fp)
    ensures var st' := Track(bump, Some(st), ip, fp, ua, now).value.value;
      (k in st' <==> k in st) && (k in st ==> st'[k] == st[k])
  {
    var st' := Track(bump, Some(st), ip, fp, ua, now).value.value;
    assert k in st' <==> k in st' - Written(fp);
    assert k in st <==> k in st - Written(fp);
    if k in st {
      assert (st' - Written(fp))[k] == (st - Written(fp))[k];
    }
  }

  /** On a store whose records all parse, tracking never throws and keeps every record parseable. */
  lemma TrackPreservesRecords(bump: CounterStep, st: Store, ip: string, fp: string, ua: string, now: nat)
    requires RecordsParse(st)
    ensures Track(bump, Some(st), ip, fp, ua, now).Success?
    ensures RecordsParse(Track(bump, Some(st), ip, fp, ua, now).value.value)
  {
    var key := VisitorKey(fp);
    var r := Track(bump, Some(st), ip, fp, ua, now);
    assert r.Success?;
    var st' := r.value.value;
    assert key in st' && Parse(st'[key]).Some? by {
      if Seen(st, fp) {
        RepeatSighting(bump, st, ip, fp, ua, now, Parse(st[key]).value);
      } else {
        FirstSighting(bump, st, ip, fp, ua, now);
      }
    }
    forall k | k in st' && IsVisitorKey(k)
      ensures Parse(st'[k]).Some?
    {
      if k != key {
        CounterKeysAreNotVisitorKeys();
        Unwritten(bump, st, ip, fp, ua, now, k);
      }
    }
  }

  /** Two sightings in a row: the record keeps the first time, counts two, and `last` is the second time. */
  lemma SeenTwice(bump: CounterStep, st: Store, ip: string, fp: string, ua: string, t1: nat, t2: nat)
    requires !Seen(st, fp)
    ensures var r1 := Track(bump, Some(st), ip, fp, ua, t1);
      && r1.Success? && r1.value.Some?
      && var r2 := Track(bump, r1.value, ip, fp, ua, t2);
      && r2.Success? && r2.value.Some?
      && VisitorKey(fp) in r2.value.value
      && Parse(r2.value.value[VisitorKey(fp)]) == Some(VisitorRecord(ip, ua, t1, 2, Some(t2)))
  {
    FirstSighting(bump, st, ip, fp, ua, t1);
    var st1 := Track(bump, Some(st), ip, fp, ua, t1).value.value;
    RepeatSighting(bump, st1, ip, fp, ua, t2, VisitorRecord(ip, ua, t1, 1, None));
  }
}

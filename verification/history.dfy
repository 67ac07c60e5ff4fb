/** Sequences of tracked requests against one namespace, starting from an empty one. */
module History {
  import opened Wrappers
  import opened Kv
  import opened RecordJson
  import opened Counters
  import opened JsNumber
  import opened Tracker

  /** One tracked request: who, under which fingerprint, and when. */
  datatype Visit = Visit(ip: string, fp: string, ua: string, now: nat)

  /** The requests tracked one after the other, stopping at the first that throws. */
  function Replay(bump: CounterStep, env: Env, vs: seq<Visit>): Result<Env, Error> {
    if |vs| == 0 then Success(env)
    else
      var e :- Replay(bump, env, vs[..|vs| - 1]);
      var v := vs[|vs| - 1];
      Track(bump, e, v.ip, v.fp, v.ua, v.now)
  }

  /** The distinct fingerprints among the requests. */
  function Fingerprints(vs: seq<Visit>): (fps: set<string>)
    ensures forall i :: 0 <= i < |vs| ==> vs[i].fp in fps
  {
    if |vs| == 0 then {} else Fingerprints(vs[..|vs| - 1]) + {vs[|vs| - 1].fp}
  }

  /** How many of the requests carry fingerprint `fp`. */
  function Occurrences(vs: seq<Visit>, fp: string): nat {
    if |vs| == 0 then 0
    else Occurrences(vs[..|vs| - 1], fp) + (if vs[|vs| - 1].fp == fp then 1 else 0)
  }

  /** What a store looks like after the requests `vs`, tracked from an empty store: one record per
      distinct fingerprint counting that fingerprint's requests, and counters advanced once per
      new fingerprint and once per request. */
  ghost predicate Summarises(bump: CounterStep, st: Store, vs: seq<Visit>) {
    && RecordsParse(st)
    && Get(st, TotalVisitors) == Iterate(bump, |Fingerprints(vs)|)
    && Get(st, TotalVisits) == Iterate(bump, |vs|)
    && (forall fp :: VisitorKey(fp) in st <==> fp in Fingerprints(vs))
    && (forall fp :: fp in Fingerprints(vs) ==> Parse(st[VisitorKey(fp)]).value.count == Occurrences(vs, fp))
  }

  lemma FingerprintsSnoc(vs: seq<Visit>, v: Visit)
    ensures Fingerprints(vs + [v]) == Fingerprints(vs) + {v.fp}
  {
    assert (vs + [v])[..|vs|] == vs;
  }

  /** A fingerprint is among `Fingerprints(vs)` exactly when some request carries it. */
  lemma {:induction false} FingerprintsExist(vs: seq<Visit>, fp: string)
    ensures fp in Fingerprints(vs) <==> exists i :: 0 <= i < |vs| && vs[i].fp == fp
  {
    if |vs| > 0 {
      var init := vs[..|vs| - 1];
      FingerprintsExist(init, fp);
      if fp in Fingerprints(init) {
        var i :| 0 <= i < |init| && init[i].fp == fp;
        assert vs[i].fp == fp;
      }
    }
  }

  /** Tracking a request leaves the records of every other fingerprint alone. */
  lemma OtherFingerprint(bump: CounterStep, st: Store, v: Visit, fp: string)
    requires Track(bump, Some(st), v.ip, v.fp, v.ua, v.now).Success?
    requires fp != v.fp
    ensures var st' := Track(bump, Some(st), v.ip, v.fp, v.ua, v.now).value.value;
      && (VisitorKey(fp) in st' <==> VisitorKey(fp) in st)
      && (VisitorKey(fp) in st ==> st'[VisitorKey(fp)] == st[VisitorKey(fp)])
  {
    assert VisitorKey(fp) != VisitorKey(v.fp) by {
      assert VisitorKey(fp)[|VisitorPrefix|..] == fp;
      assert VisitorKey(v.fp)[|VisitorPrefix|..] == v.fp;
    }
    Unwritten(bump, st, v.ip, v.fp, v.ua, v.now, VisitorKey(fp));
  }

  lemma StepCounters(bump: CounterStep, st: Store, vs: seq<Visit>, v: Visit)
    requires Get(st, TotalVisitors) == Iterate(bump, |Fingerprints(vs)|)
    requires Get(st, TotalVisits) == Iterate(bump, |vs|)
    requires VisitorKey(v.fp) in st <==> v.fp in Fingerprints(vs)
    requires VisitorKey(v.fp) in st ==> Parse(st[VisitorKey(v.fp)]).Some?
    ensures Track(bump, Some(st), v.ip, v.fp, v.ua, v.now).Success?
    ensures var st' := Track(bump, Some(st), v.ip, v.fp, v.ua, v.now).value.value;
      && Get(st', TotalVisitors) == Iterate(bump, |Fingerprints(vs + [v])|)
      && Get(st', TotalVisits) == Iterate(bump, |vs + [v]|)
  {
    FingerprintsSnoc(vs, v);
    var key := VisitorKey(v.fp);
    assert Seen(st, v.fp) <==> v.fp in Fingerprints(vs) by {
      if key in st && Parse(st[key]).Some? {
        ParseNonEmpty(st[key]);
      }
    }
    TrackCounters(bump, st, v.ip, v.fp, v.ua, v.now);
    var st' := Track(bump, Some(st), v.ip, v.fp, v.ua, v.now).value.value;
    var n := |Fingerprints(vs)|;
    if v.fp in Fingerprints(vs) {
      assert Fingerprints(vs + [v]) == Fingerprints(vs);
      assert Get(st', TotalVisitors) == Get(st, TotalVisitors);
    } else {
      assert |Fingerprints(vs + [v])| == n + 1;
      assert Get(st', TotalVisitors) == Some(bump(Iterate(bump, n)));
    }
    assert Get(st', TotalVisits) == Some(bump(Iterate(bump, |vs|)));
    assert |vs + [v]| == |vs| + 1;
  }

  /** The request's own record: created with count 1, or its count raised by one. */
  lemma StepOwnRecord(bump: CounterStep, st: Store, vs: seq<Visit>, v: Visit)
    requires VisitorKey(v.fp) in st <==> v.fp in Fingerprints(vs)
    requires VisitorKey(v.fp) in st ==>
      Parse(st[VisitorKey(v.fp)]).Some? && Parse(st[VisitorKey(v.fp)]).value.count == Occurrences(vs, v.fp)
    ensures Track(bump, Some(st), v.ip, v.fp, v.ua, v.now).Success?
    ensures var st' := Track(bump, Some(st), v.ip, v.fp, v.ua, v.now).value.value;
      && VisitorKey(v.fp) in st'
      && Parse(st'[VisitorKey(v.fp)]).Some?
      && Parse(st'[VisitorKey(v.fp)]).value.count == Occurrences(vs + [v], v.fp)
  {
    var vs' := vs + [v];
    assert vs'[..|vs'| - 1] == vs && vs'[|vs'| - 1] == v;
    assert Occurrences(vs', v.fp) == Occurrences(vs, v.fp) + 1;
    var key := VisitorKey(v.fp);
    if key in st {
      ParseNonEmpty(st[key]);
      RepeatSighting(bump, st, v.ip, v.fp, v.ua, v.now, Parse(st[key]).value);
    } else {
      FirstSighting(bump, st, v.ip, v.fp, v.ua, v.now);
      OccurrencesAbsent(vs, v.fp);
    }
  }

  lemma StepRecords(bump: CounterStep, st: Store, vs: seq<Visit>, v: Visit)
    requires Summarises(bump, st, vs)
    ensures Track(bump, Some(st), v.ip, v.fp, v.ua, v.now).Success?
    ensures var st' := Track(bump, Some(st), v.ip, v.fp, v.ua, v.now).value.value;
      && (forall fp :: VisitorKey(fp) in st' <==> fp in Fingerprints(vs + [v]))
      && (forall fp :: fp in Fingerprints(vs + [v]) ==>
            Parse(st'[VisitorKey(fp)]).Some? && Parse(st'[VisitorKey(fp)]).value.count == Occurrences(vs + [v], fp))
  {
    var vs' := vs + [v];
    FingerprintsSnoc(vs, v);
    StepOwnRecord(bump, st, vs, v);
    var st' := Track(bump, Some(st), v.ip, v.fp, v.ua, v.now).value.value;
    forall fp
      ensures VisitorKey(fp) in st' <==> fp in Fingerprints(vs')
      ensures fp in Fingerprints(vs') ==>
        Parse(st'[VisitorKey(fp)]).Some? && Parse(st'[VisitorKey(fp)]).value.count == Occurrences(vs', fp)
    {
      if fp != v.fp {
        OtherFingerprint(bump, st, v, fp);
        assert vs'[..|vs'| - 1] == vs;
      }
    }
  }

  lemma {:induction false} OccurrencesAbsent(vs: seq<Visit>, fp: string)
    requires fp !in Fingerprints(vs)
    ensures Occurrences(vs, fp) == 0
  {
    if |vs| > 0 {
      var init := vs[..|vs| - 1];
      assert vs == init + [vs[|vs| - 1]];
      FingerprintsSnoc(init, vs[|vs| - 1]);
      OccurrencesAbsent(init, fp);
    }
  }

  /** One more request keeps the summary. */
  lemma SummaryStep(bump: CounterStep, st: Store, vs: seq<Visit>, v: Visit)
    requires Summarises(bump, st, vs)
    ensures Track(bump, Some(st), v.ip, v.fp, v.ua, v.now).Success?
    ensures Summarises(bump, Track(bump, Some(st), v.ip, v.fp, v.ua, v.now).value.value, vs + [v])
  {
    TrackPreservesRecords(bump, st, v.ip, v.fp, v.ua, v.now);
    StepCounters(bump, st, vs, v);
    StepRecords(bump, st, vs, v);
  }

  /** From an empty store, every sequence of requests is tracked without throwing, and the store
      then holds one record per distinct fingerprint with the right count, and the counters hold
      the text of `|distinct fingerprints|` and `|requests|` bumps. */
  lemma {:induction false} ReplayFromEmpty(bump: CounterStep, vs: seq<Visit>)
    ensures Replay(bump, Some(map[]), vs).Success?
    ensures Replay(bump, Some(map[]), vs).value.Some?
    ensures Summarises(bump, Replay(bump, Some(map[]), vs).value.value, vs)
  {
    if |vs| == 0 {
      EmptySummary(bump);
    } else {
      var init := vs[..|vs| - 1];
      var v := vs[|vs| - 1];
      ReplayFromEmpty(bump, init);
      var st := Replay(bump, Some(map[]), init).value.value;
      SummaryStep(bump, st, init, v);
      assert init + [v] == vs;
      ReplayLast(bump, Some(map[]), vs, st);
    }
  }

  /** The fresh namespace summarises no requests. */
  lemma EmptySummary(bump: CounterStep)
    ensures Summarises(bump, map[], [])
  {
    assert Fingerprints([]) == {};
  }

  /** The last request of a replay is tracked on the namespace the earlier ones left. */
  lemma ReplayLast(bump: CounterStep, env: Env, vs: seq<Visit>, st: Store)
    requires |vs| > 0 && Replay(bump, env, vs[..|vs| - 1]) == Success(Some(st))
    ensures var v := vs[|vs| - 1]; Replay(bump, env, vs) == Track(bump, Some(st), v.ip, v.fp, v.ua, v.now)
  {
  }

  /** With the intended increment the counters show the number of distinct fingerprints and the
      number of requests. */
  lemma NumericReplayCounts(vs: seq<Visit>)
    ensures Replay(Incremented, Some(map[]), vs).Success? && Replay(Incremented, Some(map[]), vs).value.Some?
    ensures var st := Replay(Incremented, Some(map[]), vs).value.value;
      && ReadCounter(Get(st, TotalVisitors)) == Int(|Fingerprints(vs)|)
      && ReadCounter(Get(st, TotalVisits)) == Int(|vs|)
  {
    ReplayFromEmpty(Incremented, vs);
    NumericCounts(|Fingerprints(vs)|);
    NumericCounts(|vs|);
  }

  /** As written, once two or more requests have been tracked `total_visits` shows the number made
      of that many ones, which is larger than the number of requests. JavaScript holds that number
      exactly only up to 16 requests. */
  lemma AsWrittenReplayOvercounts(vs: seq<Visit>)
    requires |vs| >= 2
    ensures Replay(Concatenated, Some(map[]), vs).Success? && Replay(Concatenated, Some(map[]), vs).value.Some?
    ensures var st := Replay(Concatenated, Some(map[]), vs).value.value;
      && ReadCounter(Get(st, TotalVisits)) == Int(Repunit(|vs|))
      && Repunit(|vs|) > |vs|
      && (Repunit(|vs|) <= MaxSafeInteger <==> |vs| <= 16)
  {
    ReplayFromEmpty(Concatenated, vs);
    AsWrittenRepunit(|vs|);
    RepunitGrows(|vs|);
  }
}

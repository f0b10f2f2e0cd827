module Scrapes {
  // Which samples a scrape holds, series by series, and which history of runs each value is from.
  import opened Wrappers
  import opened Metrics
  import opened Analyze
  import opened Samples
  import opened Stranded
  import opened Collector

  // ---------------------------------------------------------------- the samples, in words

  ghost predicate IsDataSample(s: Sample, db: string, d: Data) {
    match d
    case MainData(m) => IsMainSample(m, db, s)
    case ThroughputData(t) =>
      || s == Sample(Created24h, [Label(Db, db)], t.created as real)
      || s == Sample(Closed24h, [Label(Db, db)], t.closed as real)
    case StrandedData(claims) => IsStatusSample(s, db, claims) || IsOldestSample(s, db, claims)
  }

  /** Whether the main pass is up, when the pass last succeeded, how long it took, and how often it failed for each
      reason; times in seconds. */
  ghost predicate IsHealthSample(s: Sample, db: string, p: Pass, m: Meta) {
    match s.family
    case ExporterUp =>
      p == MainPass && s.labels == [Label(Db, db)]
      && s.value == if m.consecutiveFailures >= 1 && m.consecutiveFailures >= m.downAfter then 0.0 else 1.0
    case PassLastSuccess =>
      m.lastSuccess.Some? && s.labels == [Label(Db, db), Label(PassLabel, PassName(p))]
      && s.value == m.lastSuccess.value as real / 1_000_000_000.0
    case CollectDuration =>
      s.labels == [Label(Db, db), Label(PassLabel, PassName(p))] && s.value == m.duration as real / 1_000_000_000.0
    case CollectErrors => exists r :: IsErrorSample(s, db, p, m, r)
    case _ => false
  }

  ghost predicate IsErrorSample(s: Sample, db: string, p: Pass, m: Meta, r: Reason) {
    && s.labels == [Label(Db, db), Label(PassLabel, PassName(p)), Label(ReasonLabel, ReasonName(r))]
    && s.value == if r in m.errors then m.errors[r] as real else 0.0
  }

  lemma HeadInWords(db: string, p: Pass, m: Meta, s: Sample)
    ensures s in HeadSeries(db, PassName(p), p == MainPass, m)
       <==> s.family != CollectErrors && IsHealthSample(s, db, p, m)
  {
  }

  lemma ErrorsInWords(db: string, p: Pass, m: Meta, s: Sample)
    ensures s in ErrorSet(db, PassName(p), m) <==> s.family == CollectErrors && IsHealthSample(s, db, p, m)
  {
    InErrorSet(db, PassName(p), m, s);
    forall r
      ensures s == ErrorSeries(db, PassName(p), m, r) <==> s.family == CollectErrors && IsErrorSample(s, db, p, m, r) {
    }
  }

  lemma HealthInWords(db: string, p: Pass, m: Meta, s: Sample)
    ensures HealthSeries(db, p, m)[s] > 0 <==> IsHealthSample(s, db, p, m)
  {
    HeadInWords(db, p, m, s);
    ErrorsInWords(db, p, m, s);
  }

  lemma DataInWords(db: string, d: Data, s: Sample)
    ensures DataSeries(db, d)[s] > 0 <==> IsDataSample(s, db, d)
  {
    match d
    case MainData(m) => MainSeriesAre(m, db, s);
    case ThroughputData(t) =>
    case StrandedData(claims) => InClaimSeries(s, db, claims);
  }

  /** The pass has data and this is one of its series, or it is one about the pass's health. */
  ghost predicate IsShown(s: Sample, db: string, p: Pass, ps: PassState) {
    (ps.data.Some? && IsDataSample(s, db, ps.data.value)) || IsHealthSample(s, db, p, ps.meta)
  }

  lemma ShownInWords(db: string, p: Pass, ps: PassState, s: Sample)
    ensures TimesShown(db, p, ps, s) > 0 <==> IsShown(s, db, p, ps)
  {
    HealthInWords(db, p, ps.meta, s);
    if ps.data.Some? { DataInWords(db, ps.data.value, s); }
  }

  lemma {:induction false} PassesInWords(d: DbSnapshot, ps: seq<Pass>, s: Sample)
    ensures TimesBy(d, ps, s) > 0 <==> exists p :: p in ps && p in d.passes && IsShown(s, d.name, p, d.passes[p])
  {
    if ps != [] {
      var front, p := ps[..|ps| - 1], ps[|ps| - 1];
      PassesInWords(d, front, s);
      assert forall q :: q in ps <==> q in front || q == p;
      if p in d.passes { ShownInWords(d.name, p, d.passes[p], s); }
    }
  }

  ghost predicate ShownByDb(s: Sample, d: DbSnapshot) {
    exists p :: p in d.passes && IsShown(s, d.name, p, d.passes[p])
  }

  lemma DbInWords(d: DbSnapshot, s: Sample)
    ensures TimesBy(d, PASSES, s) > 0 <==> ShownByDb(s, d)
  {
    PassesInWords(d, PASSES, s);
    forall p ensures p in PASSES { AllPassesAre(p); }
  }

  /** A snapshot's samples are those of its databases' passes, and no others. */
  lemma {:induction false} TimesInWords(dbs: seq<DbSnapshot>, s: Sample)
    ensures Times(dbs, s) > 0 <==> exists d :: d in dbs && ShownByDb(s, d)
  {
    if dbs != [] {
      var front, d := dbs[..|dbs| - 1], dbs[|dbs| - 1];
      TimesInWords(front, s);
      assert forall e :: e in dbs <==> e in front || e == d;
      DbInWords(d, s);
    }
  }

  // ---------------------------------------------------------------- the state, from the history

  /** The events of one pass of one database, in order. */
  function OfPass(evs: seq<Event>, db: string, p: Pass): seq<Event> {
    if evs == [] then []
    else
      var e := evs[|evs| - 1];
      OfPass(evs[..|evs| - 1], db, p) + if e.db == db && e.pass == p then [e] else []
  }

  function Failures(h: seq<Event>, r: Reason): nat {
    if h == [] then 0 else Failures(h[..|h| - 1], r) + if h[|h| - 1].result == Err(r) then 1 else 0
  }

  /** The failures since the last success. */
  ghost predicate InARow(h: seq<Event>, n: nat) {
    && n <= |h| && (forall k :: |h| - n <= k < |h| ==> h[k].result.Err?)
    && (n < |h| ==> h[|h| - n - 1].result.Ok?)
  }

  ghost predicate LastSuccess(h: seq<Event>, t: Option<int>) {
    if t.None? then forall k :: 0 <= k < |h| ==> h[k].result.Err?
    else exists k :: IsLastSuccess(h, k) && h[k].end == t.value
  }

  ghost predicate IsLastSuccess(h: seq<Event>, k: int) {
    0 <= k < |h| && h[k].result.Ok? && forall j :: k < j < |h| ==> h[j].result.Err?
  }

  /** What a pass's state says of its runs `h`: the last run's data, or none if it failed; its duration; the end of the
      last success; the failures in a row and by reason. */
  ghost predicate Tells(ps: PassState, h: seq<Event>, downAfter: int) {
    && (if h == [] then ps.data.None? && !ps.meta.ok && ps.meta.duration == 0
        else ps.meta.duration == h[|h| - 1].duration && match h[|h| - 1].result
             case Ok(data) => ps.data == Some(data) && ps.meta.ok
             case Err(_) => ps.data.None? && !ps.meta.ok)
    && InARow(h, ps.meta.consecutiveFailures) && LastSuccess(h, ps.meta.lastSuccess)
    && (forall r :: (if r in ps.meta.errors then ps.meta.errors[r] else 0) == Failures(h, r))
    && ps.meta.reasons == ALL_REASONS && ps.meta.downAfter == downAfter
  }

  lemma TellsNext(ps: PassState, h: seq<Event>, e: Event, downAfter: int)
    requires Tells(ps, h, downAfter)
    ensures Tells(After(ps, e.result, e.duration, e.end), h + [e], downAfter)
  {
    var after, g := After(ps, e.result, e.duration, e.end), h + [e];
    assert g[..|g| - 1] == h;
    match e.result
    case Ok(_) =>
      assert IsLastSuccess(g, |h|);
    case Err(reason) =>
      if ps.meta.lastSuccess.Some? {
        var k :| IsLastSuccess(h, k) && h[k].end == ps.meta.lastSuccess.value;
        assert IsLastSuccess(g, k);
      }
  }

  lemma {:induction false} PlayedKeepsDbs(dbs: seq<string>, evs: seq<Event>, downAfter: int)
    ensures Played(Unrun(dbs), evs, downAfter).Keys == Unrun(dbs).Keys
  {
    if evs != [] { PlayedKeepsDbs(dbs, evs[..|evs| - 1], downAfter); }
  }

  lemma PlayedNext(dbs: seq<string>, evs: seq<Event>, downAfter: int, db: string, p: Pass)
    requires db in dbs && evs != []
    ensures var front, e := evs[..|evs| - 1], evs[|evs| - 1];
            var was, now := Played(Unrun(dbs), front, downAfter), Played(Unrun(dbs), evs, downAfter);
            && db in was && db in now
            && (p in now[db] <==> p in was[db] || (e.db == db && e.pass == p))
            && StateIn(now, db, p, downAfter) ==
                 if e.db == db && e.pass == p then After(StateIn(was, db, p, downAfter), e.result, e.duration, e.end)
                 else StateIn(was, db, p, downAfter)
  {
    PlayedKeepsDbs(dbs, evs[..|evs| - 1], downAfter);
  }

  /** After any history a pass has a state exactly when it ran, and that tells of exactly its own runs. */
  lemma {:induction false} HistoryDecides(dbs: seq<string>, evs: seq<Event>, downAfter: int, db: string, p: Pass)
    requires db in dbs
    ensures db in Played(Unrun(dbs), evs, downAfter)
    ensures p in Played(Unrun(dbs), evs, downAfter)[db] <==> OfPass(evs, db, p) != []
    ensures Tells(StateIn(Played(Unrun(dbs), evs, downAfter), db, p, downAfter), OfPass(evs, db, p), downAfter)
  {
    if evs == [] {
      FreshTells(downAfter);
    } else {
      var front, e := evs[..|evs| - 1], evs[|evs| - 1];
      HistoryDecides(dbs, front, downAfter, db, p);
      PlayedNext(dbs, evs, downAfter, db, p);
      if e.db == db && e.pass == p {
        TellsNext(StateIn(Played(Unrun(dbs), front, downAfter), db, p, downAfter), OfPass(front, db, p), e, downAfter);
      } else {
        assert OfPass(evs, db, p) == OfPass(front, db, p);
      }
    }
  }

  lemma FreshTells(downAfter: int)
    ensures Tells(Fresh(downAfter), [], downAfter)
  {
  }

  lemma ToldOnce(h: seq<Event>, m: nat, n: nat, t: Option<int>, u: Option<int>)
    requires InARow(h, m) && InARow(h, n) && LastSuccess(h, t) && LastSuccess(h, u)
    ensures m == n && t == u
  {
    if t.Some? && u.Some? {
      var i :| IsLastSuccess(h, i) && h[i].end == t.value;
      var j :| IsLastSuccess(h, j) && h[j].end == u.value;
    }
  }

  /** Two states that tell of the same runs show the same. */
  lemma ToldAlike(a: PassState, b: PassState, h: seq<Event>, downAfter: int, s: Sample, db: string, p: Pass)
    requires Tells(a, h, downAfter) && Tells(b, h, downAfter) && h != []
    ensures IsShown(s, db, p, a) <==> IsShown(s, db, p, b)
  {
    ToldOnce(h, a.meta.consecutiveFailures, b.meta.consecutiveFailures, a.meta.lastSuccess, b.meta.lastSuccess);
    forall r ensures IsErrorSample(s, db, p, a.meta, r) <==> IsErrorSample(s, db, p, b.meta, r) {
      assert (if r in a.meta.errors then a.meta.errors[r] else 0)
        == (if r in b.meta.errors then b.meta.errors[r] else 0);
    }
  }

  /** The sample is shown for the runs `h` of the pass. */
  ghost predicate IsShownFor(s: Sample, db: string, p: Pass, h: seq<Event>, downAfter: int) {
    h != [] && exists ps :: Tells(ps, h, downAfter) && IsShown(s, db, p, ps)
  }

  ghost predicate FromHistory(s: Sample, dbs: seq<string>, evs: seq<Event>, downAfter: int) {
    exists db, p :: db in dbs && IsShownFor(s, db, p, OfPass(evs, db, p), downAfter)
  }

  lemma PassIsHistory(dbs: seq<string>, evs: seq<Event>, downAfter: int, db: string, p: Pass, s: Sample)
    requires db in dbs
    ensures db in Played(Unrun(dbs), evs, downAfter)
    ensures var passes := Played(Unrun(dbs), evs, downAfter)[db];
            p in passes && IsShown(s, db, p, passes[p]) <==> IsShownFor(s, db, p, OfPass(evs, db, p), downAfter)
  {
    HistoryDecides(dbs, evs, downAfter, db, p);
    var h, st := OfPass(evs, db, p), StateIn(Played(Unrun(dbs), evs, downAfter), db, p, downAfter);
    if IsShownFor(s, db, p, h, downAfter) {
      var ps :| Tells(ps, h, downAfter) && IsShown(s, db, p, ps);
      ToldAlike(ps, st, h, downAfter, s, db, p);
    }
  }

  lemma SnapshotIsHistory(dbs: seq<string>, evs: seq<Event>, downAfter: int, shown: seq<DbSnapshot>, s: Sample)
    requires Displays(shown, Played(Unrun(dbs), evs, downAfter))
    ensures (exists d :: d in shown && ShownByDb(s, d)) <==> FromHistory(s, dbs, evs, downAfter)
  {
    var state := Played(Unrun(dbs), evs, downAfter);
    PlayedKeepsDbs(dbs, evs, downAfter);
    if d :| d in shown && ShownByDb(s, d) {
      var p :| p in d.passes && IsShown(s, d.name, p, d.passes[p]);
      PassIsHistory(dbs, evs, downAfter, d.name, p, s);
    }
    if FromHistory(s, dbs, evs, downAfter) {
      var db, p :| db in dbs && IsShownFor(s, db, p, OfPass(evs, db, p), downAfter);
      PassIsHistory(dbs, evs, downAfter, db, p, s);
      assert ShownByDb(s, DbSnapshot(db, state[db]));
    }
  }

  /** A scrape after a history holds, in the group of each family, exactly the samples of the family that some pass's
      own runs call for. */
  lemma ScrapeIsHistory(dbs: seq<string>, evs: seq<Event>, downAfter: int, shown: seq<DbSnapshot>,
                        out: seq<seq<Sample>>, k: nat, s: Sample)
    requires GroupsOf(out, shown) && Displays(shown, Played(Unrun(dbs), evs, downAfter)) && k < |FAMILIES|
    ensures s in out[k] <==> s.family == FAMILIES[k] && FromHistory(s, dbs, evs, downAfter)
  {
    assert IsGroup(out[k], FAMILIES[k], shown);
    assert s in out[k] <==> multiset(out[k])[s] > 0;
    TimesInWords(shown, s);
    SnapshotIsHistory(dbs, evs, downAfter, shown, s);
  }
}

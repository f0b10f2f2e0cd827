/** The collector: pass results recorded per database and pass, an immutable snapshot swapped in after each, and the
    samples of a snapshot. */
module Collector {
  import opened Wrappers
  import opened SliceSort
  import opened Metrics
  import opened Analyze
  import opened Samples
  import opened Stranded

  datatype Reason = StaleIssuesJsonl | Timeout | BdError | SchemaSkew | ParseError

  const ALL_REASONS: seq<Reason> := [StaleIssuesJsonl, Timeout, BdError, SchemaSkew, ParseError]

  function ReasonName(r: Reason): string {
    match r
    case StaleIssuesJsonl => "stale_issues_jsonl"
    case Timeout => "timeout"
    case BdError => "bd_error"
    case SchemaSkew => "schema_skew"
    case ParseError => "parse_error"
  }

  lemma ReasonNamesDiffer(r: Reason, q: Reason)
    requires ReasonName(r) == ReasonName(q)
    ensures r == q
  {
    assert ReasonName(r)[0] == ReasonName(q)[0] && ReasonName(r)[1] == ReasonName(q)[1];
  }

  /** A pass's result for one database. */
  datatype Data = MainData(m: Main) | ThroughputData(t: Throughput) | StrandedData(claims: seq<Claim>)

  /** The result is the pass's own, its label series distinct as LabelCap makes them. */
  predicate DataFits(p: Pass, d: Data) {
    match p
    case MainPass => d.MainData? && DistinctLabels(d.m.byLabel)
    case StrandedPass => d.StrandedData?
    case ThroughputPass => d.ThroughputData?
  }

  datatype Meta = Meta(ok: bool, lastSuccess: Option<int>, duration: int, errors: map<Reason, nat>,
                       reasons: seq<Reason>,
                       consecutiveFailures: nat, downAfter: int)

  /** A pass's state for one database; no data after a failed run. */
  datatype PassState = PassState(meta: Meta, data: Option<Data>)

  datatype DbSnapshot = DbSnapshot(name: string, passes: map<Pass, PassState>)

  predicate Down(m: Meta) {
    m.consecutiveFailures >= if m.downAfter < 1 then 1 else m.downAfter
  }

  predicate StateFits(p: Pass, ps: PassState) {
    ps.meta.reasons == ALL_REASONS && (ps.data.Some? ==> DataFits(p, ps.data.value))
  }

  predicate PassesFit(passes: map<Pass, PassState>) {
    forall p :: p in passes ==> StateFits(p, passes[p])
  }

  /** No two queues of the main pass's data share a name. */
  predicate QueuesDiffer(passes: map<Pass, PassState>) {
    forall p :: p in passes && passes[p].data.Some? && passes[p].data.value.MainData? ==>
      DistinctQueues(passes[p].data.value.m.queues)
  }

  // ---------------------------------------------------------------- the samples of a snapshot

  function PassSeries(f: FamilyName, db: string, pass: string, value: real): Sample {
    Series(f, db, PassLabel, pass, value)
  }

  function ErrorSeries(db: string, pass: string, m: Meta, r: Reason): Sample {
    Sample(CollectErrors, [Label(Db, db), Label(PassLabel, pass), Label(ReasonLabel, ReasonName(r))],
           (if r in m.errors then m.errors[r] else 0) as real)
  }

  function UpSeries(db: string, m: Meta): Sample {
    Sample(ExporterUp, [Label(Db, db)], if Down(m) then 0.0 else 1.0)
  }

  lemma HealthIsOwned(db: string, pass: string, m: Meta, r: Reason, f: FamilyName, value: real)
    ensures Owned([ErrorSeries(db, pass, m, r)], db, HealthOf(pass))
    ensures f == PassLastSuccess || f == CollectDuration ==> Owned([PassSeries(f, db, pass, value)], db, HealthOf(pass))
    ensures Owned([UpSeries(db, m)], db, HealthOf(PassName(MainPass)))
  {
  }

  lemma OwnedAppend(a: seq<Sample>, s: Sample, db: string, o: Owner)
    requires Owned(a, db, o) && Owned([s], db, o)
    ensures Owned(a + [s], db, o)
  {
    assert s in [s];
  }

  lemma ErrorSeriesDiffer(db: string, pass: string, m: Meta, r: Reason, q: Reason)
    requires r != q
    ensures !SameSeries(ErrorSeries(db, pass, m, r), ErrorSeries(db, pass, m, q))
  {
    var v, w := Values(ErrorSeries(db, pass, m, r).labels), Values(ErrorSeries(db, pass, m, q).labels);
    assert v[2] == ReasonName(r) && w[2] == ReasonName(q);
    if v == w { ReasonNamesDiffer(r, q); }
  }

  method ErrorSamples(db: string, pass: string, m: Meta) returns (out: seq<Sample>)
    requires m.reasons == ALL_REASONS
    ensures NoRepeats(out) && Owned(out, db, HealthOf(pass))
    ensures forall s :: s in out <==> exists r :: s == ErrorSeries(db, pass, m, r)
  {
    out := [];
    for k := 0 to |m.reasons|
      invariant |out| == k && forall j :: 0 <= j < k ==> out[j] == ErrorSeries(db, pass, m, m.reasons[j])
      invariant Owned(out, db, HealthOf(pass))
    {
      HealthIsOwned(db, pass, m, m.reasons[k], CollectErrors, 0.0);
      OwnedAppend(out, ErrorSeries(db, pass, m, m.reasons[k]), db, HealthOf(pass));
      out := out + [ErrorSeries(db, pass, m, m.reasons[k])];
    }
    ErrorsAreAll(out, db, pass, m);
  }

  lemma ErrorsAreAll(out: seq<Sample>, db: string, pass: string, m: Meta)
    requires |out| == |ALL_REASONS| && forall j :: 0 <= j < |out| ==> out[j] == ErrorSeries(db, pass, m, ALL_REASONS[j])
    ensures NoRepeats(out) && forall s :: s in out <==> exists r :: s == ErrorSeries(db, pass, m, r)
  {
    forall i, j | 0 <= i < j < |out| ensures !SameSeries(out[i], out[j]) {
      ReasonsDiffer(i, j);
      ErrorSeriesDiffer(db, pass, m, ALL_REASONS[i], ALL_REASONS[j]);
    }
    forall r ensures ErrorSeries(db, pass, m, r) in out { assert out[ReasonIndex(r)] == ErrorSeries(db, pass, m, r); }
  }

  function ReasonIndex(r: Reason): (k: nat)
    ensures k < |ALL_REASONS| && ALL_REASONS[k] == r
  {
    match r
    case StaleIssuesJsonl => 0
    case Timeout => 1
    case BdError => 2
    case SchemaSkew => 3
    case ParseError => 4
  }

  lemma ReasonsDiffer(i: nat, j: nat)
    requires i < j < |ALL_REASONS|
    ensures ALL_REASONS[i] != ALL_REASONS[j]
  {
    assert ReasonIndex(ALL_REASONS[i]) == i && ReasonIndex(ALL_REASONS[j]) == j;
  }

  ghost function ErrorSet(db: string, pass: string, m: Meta): set<Sample> {
    set k | 0 <= k < |ALL_REASONS| :: ErrorSeries(db, pass, m, ALL_REASONS[k])
  }

  lemma InErrorSet(db: string, pass: string, m: Meta, s: Sample)
    ensures s in ErrorSet(db, pass, m) <==> exists r :: s == ErrorSeries(db, pass, m, r)
  {
    if r :| s == ErrorSeries(db, pass, m, r) { assert ALL_REASONS[ReasonIndex(r)] == r; }
  }

  /** The health series of a pass. */
  ghost function HealthSeries(db: string, p: Pass, m: Meta): multiset<Sample> {
    multiset(HeadSeries(db, PassName(p), p == MainPass, m)) + multiset(ErrorSet(db, PassName(p), m))
  }

  /** The exporter's own series about a pass: whether it is up, when it last succeeded, how long it took, and its
      failures by reason. */
  method MetaSamples(db: string, p: Pass, m: Meta) returns (out: seq<Sample>)
    requires m.reasons == ALL_REASONS
    ensures NoRepeats(out) && Owned(out, db, HealthOf(PassName(p)))
    ensures forall s :: s in out && s.family == ExporterUp <==> p == MainPass && s == UpSeries(db, m)
    ensures forall s :: s in out && s.family == PassLastSuccess
              <==> m.lastSuccess.Some? && s == PassSeries(PassLastSuccess, db, PassName(p),
                Seconds(m.lastSuccess.value))
    ensures forall s :: s in out && s.family == CollectErrors <==> exists r :: s == ErrorSeries(db, PassName(p), m, r)
    ensures multiset(out) == HealthSeries(db, p, m)
  {
    var head := HeadSamples(db, PassName(p), p == MainPass, m);
    var errors := ErrorSamples(db, PassName(p), m);
    JoinApart(head, errors);
    ErrorsAsSet(errors, db, PassName(p), m);
    out := head + errors;
  }

  lemma ErrorsAsSet(errors: seq<Sample>, db: string, pass: string, m: Meta)
    requires NoRepeats(errors) && forall s :: s in errors <==> exists r :: s == ErrorSeries(db, pass, m, r)
    ensures multiset(errors) == multiset(ErrorSet(db, pass, m))
  {
    forall s ensures s in errors <==> s in ErrorSet(db, pass, m) { InErrorSet(db, pass, m, s); }
    AsSet(errors, ErrorSet(db, pass, m));
  }

  function HeadSeries(db: string, pass: string, isMain: bool, m: Meta): seq<Sample> {
    (if isMain then [UpSeries(db, m)] else []) + LastSeries(db, pass, m)
    + [PassSeries(CollectDuration, db, pass, Seconds(m.duration))]
  }

  function LastSeries(db: string, pass: string, m: Meta): seq<Sample> {
    if m.lastSuccess.None? then [] else [PassSeries(PassLastSuccess, db, pass, Seconds(m.lastSuccess.value))]
  }

  lemma HeadIsOwned(db: string, pass: string, isMain: bool, m: Meta)
    requires isMain ==> pass == PassName(MainPass)
    ensures Owned(HeadSeries(db, pass, isMain, m), db, HealthOf(pass))
  {
    HealthIsOwned(db, pass, m, Timeout, CollectDuration, Seconds(m.duration));
    if m.lastSuccess.Some? {
      HealthIsOwned(db, pass, m, Timeout, PassLastSuccess, Seconds(m.lastSuccess.value));
    }
  }

  lemma HeadIsApart(db: string, pass: string, isMain: bool, m: Meta)
    ensures NoRepeats(HeadSeries(db, pass, isMain, m))
  {
    var up := if isMain then [UpSeries(db, m)] else [];
    JoinApart(up, LastSeries(db, pass, m));
    AddApart(up + LastSeries(db, pass, m), PassSeries(CollectDuration, db, pass, Seconds(m.duration)));
  }

  method HeadSamples(db: string, pass: string, isMain: bool, m: Meta) returns (out: seq<Sample>)
    requires isMain ==> pass == PassName(MainPass)
    ensures NoRepeats(out) && Owned(out, db, HealthOf(pass)) && forall s :: s in out ==> s.family != CollectErrors
    ensures forall s :: s in out && s.family == ExporterUp <==> isMain && s == UpSeries(db, m)
    ensures forall s :: s in out && s.family == PassLastSuccess
              <==> m.lastSuccess.Some? && s == PassSeries(PassLastSuccess, db, pass, Seconds(m.lastSuccess.value))
    ensures out == HeadSeries(db, pass, isMain, m)
  {
    out := [];
    if isMain {
      out := out + [UpSeries(db, m)];
    }
    if m.lastSuccess.Some? {
      out := out + [PassSeries(PassLastSuccess, db, pass, Seconds(m.lastSuccess.value))];
    }
    out := out + [PassSeries(CollectDuration, db, pass, Seconds(m.duration))];
    assert out == HeadSeries(db, pass, isMain, m);
    HeadIsOwned(db, pass, isMain, m);
    HeadIsApart(db, pass, isMain, m);
  }

  function CountSeries(db: string, t: Throughput): seq<Sample> {
    [Sample(Created24h, [Label(Db, db)], t.created as real), Sample(Closed24h, [Label(Db, db)], t.closed as real)]
  }

  /** The series of a pass's own data. */
  ghost function DataSeries(db: string, d: Data): multiset<Sample> {
    match d
    case MainData(m) => MainSeries(m, db)
    case ThroughputData(t) => multiset(CountSeries(db, t))
    case StrandedData(claims) => ClaimSeries(db, claims)
  }

  method DataSamples(db: string, p: Pass, d: Data) returns (out: seq<Sample>)
    requires DataFits(p, d)
    ensures Owned(out, db, DataOf(p)) && multiset(out) == DataSeries(db, d)
    ensures NoRepeats(out) <==> (d.MainData? ==> DistinctQueues(d.m.queues))
  {
    match d {
      case MainData(m) => out := MainSamples(m, db);
      case ThroughputData(t) => out := ThroughputSamples(t, db);
      case StrandedData(claims) =>
        ghost var oldest;
        out, oldest := StrandedSamples(claims, db);
    }
  }

  ghost predicate OwnedByPass(s: Sample, db: string, passes: set<Pass>) {
    Labelled(s) && FirstValue(s) == db && exists p ::
      p in passes && (OwnerOf(s) == DataOf(p) || OwnerOf(s) == HealthOf(PassName(p)))
  }

  /** Every sample belongs to one of the passes, in the database. */
  ghost predicate OwnedByPasses(samples: seq<Sample>, db: string, passes: set<Pass>) {
    forall s :: s in samples ==> OwnedByPass(s, db, passes)
  }

  /** How often a pass shows a sample: with its data's series if it has data, and with its health series. */
  ghost function TimesShown(db: string, p: Pass, ps: PassState, s: Sample): nat {
    (if ps.data.Some? then DataSeries(db, ps.data.value)[s] else 0) + HealthSeries(db, p, ps.meta)[s]
  }

  ghost predicate ShowsPass(out: seq<Sample>, db: string, p: Pass, ps: PassState) {
    forall s :: multiset(out)[s] == TimesShown(db, p, ps, s)
  }

  lemma DataAndHealth(data: seq<Sample>, meta: seq<Sample>, db: string, p: Pass)
    requires Owned(data, db, DataOf(p)) && Owned(meta, db, HealthOf(PassName(p))) && NoRepeats(meta)
    ensures OwnedByPasses(data + meta, db, {p})
    ensures NoRepeats(data + meta) <==> NoRepeats(data)
  {
    forall x, y | x in data && y in meta ensures !SameSeries(x, y) {
      if SameSeries(x, y) { SameSeriesSameOwner(x, y); }
    }
    JoinApart(data, meta);
  }

  method PassSamples(db: string, p: Pass, ps: PassState) returns (out: seq<Sample>)
    requires StateFits(p, ps)
    ensures OwnedByPasses(out, db, {p}) && ShowsPass(out, db, p, ps)
    ensures NoRepeats(out) <==> (ps.data.Some? && ps.data.value.MainData? ==> DistinctQueues(ps.data.value.m.queues))
  {
    var meta := MetaSamples(db, p, ps.meta);
    if ps.data.None? {
      return meta;
    }
    var data := DataSamples(db, p, ps.data.value);
    DataAndHealth(data, meta, db, p);
    out := data + meta;
  }

  /** In the order of the pass names. */
  const PASSES: seq<Pass> := [MainPass, StrandedPass, ThroughputPass]

  /** How often these passes of a database show a sample. */
  ghost function TimesBy(d: DbSnapshot, ps: seq<Pass>, s: Sample): nat {
    if ps == [] then 0
    else
      var p := ps[|ps| - 1];
      TimesBy(d, ps[..|ps| - 1], s) + if p in d.passes then TimesShown(d.name, p, d.passes[p], s) else 0
  }

  /** How often all passes of all databases show a sample. */
  ghost function Times(dbs: seq<DbSnapshot>, s: Sample): nat {
    if dbs == [] then 0 else Times(dbs[..|dbs| - 1], s) + TimesBy(dbs[|dbs| - 1], PASSES, s)
  }

  ghost function RunOf(d: DbSnapshot, ps: seq<Pass>): set<Pass> {
    set p | p in ps && p in d.passes
  }

  ghost predicate Shows(out: seq<Sample>, d: DbSnapshot, ps: seq<Pass>) {
    && OwnedByPasses(out, d.name, RunOf(d, ps)) && (forall s :: multiset(out)[s] == TimesBy(d, ps, s))
    && (NoRepeats(out) <==> QueuesDifferIn(d.passes, RunOf(d, ps)))
  }

  lemma PassSkipped(out: seq<Sample>, d: DbSnapshot, ps: seq<Pass>, p: Pass)
    requires Shows(out, d, ps) && p !in d.passes
    ensures Shows(out, d, ps + [p])
  {
    assert RunOf(d, ps + [p]) == RunOf(d, ps);
    assert (ps + [p])[..|ps|] == ps;
  }

  lemma PassTimes(out: seq<Sample>, d: DbSnapshot, ps: seq<Pass>, p: Pass, more: seq<Sample>)
    requires p in d.passes && ShowsPass(more, d.name, p, d.passes[p])
    requires forall s :: multiset(out)[s] == TimesBy(d, ps, s)
    ensures forall s :: multiset(out + more)[s] == TimesBy(d, ps + [p], s)
  {
    assert (ps + [p])[..|ps|] == ps;
    forall s ensures multiset(out + more)[s] == TimesBy(d, ps + [p], s) {
      assert multiset(out + more)[s] == multiset(out)[s] + multiset(more)[s];
    }
  }

  lemma PassApart(out: seq<Sample>, d: DbSnapshot, done: set<Pass>, p: Pass, more: seq<Sample>)
    requires OwnedByPasses(out, d.name, done) && OwnedByPasses(more, d.name, {p}) && p !in done
    requires NoRepeats(out) <==> QueuesDifferIn(d.passes, done)
    requires NoRepeats(more) <==> QueuesDifferIn(d.passes, {p})
    ensures OwnedByPasses(out + more, d.name, done + {p})
    ensures NoRepeats(out + more) <==> QueuesDifferIn(d.passes, done + {p})
  {
    PassesApart(out, more, d.name, done, p);
    JoinApart(out, more);
  }

  lemma PassAdded(out: seq<Sample>, d: DbSnapshot, ps: seq<Pass>, p: Pass, more: seq<Sample>)
    requires Shows(out, d, ps) && p in d.passes && p !in ps
    requires OwnedByPasses(more, d.name, {p}) && ShowsPass(more, d.name, p, d.passes[p])
    requires NoRepeats(more) <==> QueuesDifferIn(d.passes, {p})
    ensures Shows(out + more, d, ps + [p])
  {
    assert RunOf(d, ps + [p]) == RunOf(d, ps) + {p};
    PassTimes(out, d, ps, p, more);
    PassApart(out, d, RunOf(d, ps), p, more);
  }

  lemma AllPassesAre(p: Pass)
    ensures p in PASSES && forall i, j :: 0 <= i < j < |PASSES| ==> PASSES[i] != PASSES[j]
  {
    match p
    case MainPass => assert PASSES[0] == p;
    case StrandedPass => assert PASSES[1] == p;
    case ThroughputPass => assert PASSES[2] == p;
  }

  lemma PassNext(out: seq<Sample>, d: DbSnapshot, names: seq<Pass>, k: nat, more: seq<Sample>)
    requires k < |names| && Shows(out, d, names[..k]) && names[k] !in names[..k]
    requires names[k] !in d.passes ==> more == []
    requires names[k] in d.passes ==>
        OwnedByPasses(more, d.name, {names[k]}) && ShowsPass(more, d.name, names[k], d.passes[names[k]])
        && (NoRepeats(more) <==> QueuesDifferIn(d.passes, {names[k]}))
    ensures Shows(out + more, d, names[..k + 1])
  {
    assert names[..k + 1] == names[..k] + [names[k]];
    if names[k] in d.passes {
      PassAdded(out, d, names[..k], names[k], more);
    } else {
      PassSkipped(out, d, names[..k], names[k]);
      assert out + more == out;
    }
  }

  method SamplesInOrder(d: DbSnapshot, names: seq<Pass>) returns (out: seq<Sample>)
    requires PassesFit(d.passes) && forall i, j :: 0 <= i < j < |names| ==> names[i] != names[j]
    ensures Shows(out, d, names)
  {
    out := [];
    for k := 0 to |names|
      invariant Shows(out, d, names[..k])
    {
      var more: seq<Sample> := [];
      if names[k] in d.passes {
        more := PassSamples(d.name, names[k], d.passes[names[k]]);
      }
      PassNext(out, d, names, k, more);
      out := out + more;
    }
    assert names[..|names|] == names;
  }

  method DbSamples(d: DbSnapshot) returns (out: seq<Sample>)
    requires PassesFit(d.passes)
    ensures OwnedByPasses(out, d.name, d.passes.Keys) && forall s :: multiset(out)[s] == TimesBy(d, PASSES, s)
    ensures NoRepeats(out) <==> QueuesDiffer(d.passes)
  {
    AllPassesAre(MainPass);
    out := SamplesInOrder(d, PASSES);
    assert RunOf(d, PASSES) == d.passes.Keys by {
      forall p ensures p in PASSES { AllPassesAre(p); }
    }
  }

  predicate QueuesDifferIn(passes: map<Pass, PassState>, done: set<Pass>) {
    forall p :: p in done && p in passes && passes[p].data.Some? && passes[p].data.value.MainData? ==>
      DistinctQueues(passes[p].data.value.m.queues)
  }

  lemma PassesApart(a: seq<Sample>, b: seq<Sample>, db: string, done: set<Pass>, p: Pass)
    requires OwnedByPasses(a, db, done) && OwnedByPasses(b, db, {p}) && p !in done
    ensures forall x, y :: x in a && y in b ==> !SameSeries(x, y)
    ensures OwnedByPasses(a + b, db, done + {p})
  {
    forall x, y | x in a && y in b ensures !SameSeries(x, y) {
      if SameSeries(x, y) {
        SameSeriesSameOwner(x, y);
        var q :| q in done && (OwnerOf(x) == DataOf(q) || OwnerOf(x) == HealthOf(PassName(q)));
        if PassName(p) == PassName(q) { PassNamesDiffer(p, q); }
        assert false;
      }
    }
  }

  /** The queues of every published main result have different names. */
  predicate AllQueuesDiffer(dbs: seq<DbSnapshot>) {
    forall k :: 0 <= k < |dbs| ==> QueuesDiffer(dbs[k].passes)
  }

  predicate LessName(a: DbSnapshot, b: DbSnapshot) {
    Less(a.name, b.name)
  }

  /** Each database once, in the order of the names. */
  ghost predicate IsSnapshot(dbs: seq<DbSnapshot>) {
    && (forall i, j :: 0 <= i < j < |dbs| ==> dbs[i].name != dbs[j].name) && Sorted(dbs, LessName)
    && forall d :: d in dbs ==> PassesFit(d.passes)
  }

  method SnapshotSamples(dbs: seq<DbSnapshot>) returns (out: seq<Sample>)
    requires IsSnapshot(dbs)
    ensures (forall s :: s in out ==> Labelled(s)) && (NoRepeats(out) <==> AllQueuesDiffer(dbs))
    ensures forall s :: multiset(out)[s] == Times(dbs, s)
  {
    out := [];
    for k := 0 to |dbs|
      invariant ShowsDbs(out, dbs, k)
    {
      assert dbs[k] in dbs;
      var more := DbSamples(dbs[k]);
      DbAdded(out, dbs, k, more);
      out := out + more;
    }
    assert dbs[..|dbs|] == dbs;
  }

  ghost predicate ShowsDbs(out: seq<Sample>, dbs: seq<DbSnapshot>, k: nat)
    requires k <= |dbs|
  {
    && (forall s :: s in out ==> Labelled(s) && exists j :: 0 <= j < k && FirstValue(s) == dbs[j].name)
    && (NoRepeats(out) <==> AllQueuesDiffer(dbs[..k])) && forall s :: multiset(out)[s] == Times(dbs[..k], s)
  }

  lemma DbAdded(out: seq<Sample>, dbs: seq<DbSnapshot>, k: nat, more: seq<Sample>)
    requires k < |dbs| && ShowsDbs(out, dbs, k) && forall i :: 0 <= i < k ==> dbs[i].name != dbs[k].name
    requires OwnedByPasses(more, dbs[k].name, dbs[k].passes.Keys) && forall s ::
        multiset(more)[s] == TimesBy(dbs[k], PASSES, s)
    requires NoRepeats(more) <==> QueuesDiffer(dbs[k].passes)
    ensures ShowsDbs(out + more, dbs, k + 1)
  {
    NamesApart(dbs, k, out, more);
    JoinApart(out, more);
    AllNext(dbs, k);
    assert dbs[..k + 1][..k] == dbs[..k];
  }

  /** Samples of databases before the `k`-th are of none of its series. */
  lemma NamesApart(dbs: seq<DbSnapshot>, k: nat, out: seq<Sample>, more: seq<Sample>)
    requires k < |dbs| && OwnedByPasses(more, dbs[k].name, dbs[k].passes.Keys)
    requires forall i :: 0 <= i < k ==> dbs[i].name != dbs[k].name
    requires forall s :: s in out ==> exists j :: 0 <= j < k && FirstValue(s) == dbs[j].name
    ensures forall x, y :: x in out && y in more ==> !SameSeries(x, y)
    ensures forall s :: s in more ==> Labelled(s) && FirstValue(s) == dbs[k].name
  {
    forall s | s in more ensures Labelled(s) && FirstValue(s) == dbs[k].name {
      assert OwnedByPass(s, dbs[k].name, dbs[k].passes.Keys);
    }
    forall x, y | x in out && y in more ensures !SameSeries(x, y) {
      if SameSeries(x, y) { SameSeriesSameOwner(x, y); }
    }
  }

  lemma AllNext(dbs: seq<DbSnapshot>, k: nat)
    requires k < |dbs|
    ensures AllQueuesDiffer(dbs[..k + 1]) <==> AllQueuesDiffer(dbs[..k]) && QueuesDiffer(dbs[k].passes)
  {
    assert forall j :: 0 <= j < k ==> dbs[..k + 1][j] == dbs[..k][j];
    assert dbs[..k + 1][k] == dbs[k];
  }

  // ---------------------------------------------------------------- the collector

  datatype Result = Ok(data: Data) | Err(reason: Reason)

  /** The state of a pass after one more run: a failure drops the data, a success resets the count. */
  function After(ps: PassState, r: Result, duration: int, end: int): PassState {
    match r
    case Err(reason) =>
      PassState(ps.meta.(ok := false, duration := duration, consecutiveFailures := ps.meta.consecutiveFailures + 1,
                         errors := ps.meta.errors[reason := (if reason in ps.meta.errors then ps.meta.errors[reason]
                           else 0) + 1]), None)
    case Ok(data) =>
      PassState(ps.meta.(ok := true, duration := duration, consecutiveFailures := 0, lastSuccess := Some(end)),
        Some(data))
  }

  /** The snapshot shows every database that has a result, as it is, and no other. */
  ghost predicate Displays(snapshot: seq<DbSnapshot>, state: map<string, map<Pass, PassState>>) {
    && (forall d :: d in snapshot ==> d.name in state && d.passes == state[d.name])
    && (forall db :: db in state && state[db] != map[] ==> DbSnapshot(db, state[db]) in snapshot)
  }

  function Unrun(dbs: seq<string>): map<string, map<Pass, PassState>> {
    map db | db in dbs :: map[]
  }

  function Fresh(downAfter: int): PassState {
    PassState(Meta(false, None, 0, map[], ALL_REASONS, 0, downAfter), None)
  }

  function StateIn(state: map<string, map<Pass, PassState>>, db: string, p: Pass, downAfter: int): PassState {
    if db in state && p in state[db] then state[db][p] else Fresh(downAfter)
  }

  /** One recorded run of a pass on a database. */
  datatype Event = Event(db: string, pass: Pass, result: Result, duration: int, end: int)

  function Applied(state: map<string, map<Pass, PassState>>, e: Event, downAfter: int)
    : map<string, map<Pass, PassState>>
  {
    if e.db in state then
      state[e.db := state[e.db][e.pass := After(StateIn(state, e.db, e.pass, downAfter), e.result, e.duration, e.end)]]
    else state
  }

  function Played(state: map<string, map<Pass, PassState>>, evs: seq<Event>, downAfter: int)
    : map<string, map<Pass, PassState>>
  {
    if evs == [] then state
    else Applied(Played(state, evs[..|evs| - 1], downAfter), evs[|evs| - 1], downAfter)
  }

  lemma {:induction false} PlayedInTurn(state: map<string, map<Pass, PassState>>, a: seq<Event>, b: seq<Event>,
                                        downAfter: int)
    ensures Played(state, a + b, downAfter) == Played(Played(state, a, downAfter), b, downAfter)
  {
    if b == [] {
      assert a + b == a;
    } else {
      assert (a + b)[..|a + b| - 1] == a + b[..|b| - 1];
      PlayedInTurn(state, a, b[..|b| - 1], downAfter);
    }
  }

  class Collector {
    const downAfter: int
    var state: map<string, map<Pass, PassState>>
    var snapshot: seq<DbSnapshot>

    /** The snapshot shows every database that has a result, as it is now, and no other. */
    ghost predicate Valid()
      reads this
    {
      && (forall db :: db in state ==> PassesFit(state[db]))
      && IsSnapshot(snapshot) && Displays(snapshot, state)
    }

    constructor (dbs: seq<string>, downAfter: int)
      ensures Valid() && snapshot == [] && state == Unrun(dbs) && this.downAfter == downAfter
    {
      this.downAfter := downAfter;
      state := Unrun(dbs);
      snapshot := [];
    }

    /** record: only this database and pass change, and the snapshot is swapped for one that shows it. */
    method Record(p: Pass, db: string, r: Result, duration: int, end: int)
      requires Valid() && db in state && (r.Ok? ==> DataFits(p, r.data))
      modifies this
      ensures Valid()
      ensures state == old(state)[db :=
          old(state)[db][p := After(StateIn(old(state), db, p, downAfter), r, duration, end)]]
      ensures r.Err? ==> DbSnapshot(db, state[db]) in snapshot && state[db][p].data.None?
    {
      var ps := After(StateIn(state, db, p, downAfter), r, duration, end);
      assert StateFits(p, ps);
      state := state[db := state[db][p := ps]];
      assert p in state[db];
      Publish(db);
    }

    /** Rebuilds the snapshot with the database's current state swapped in. */
    method Publish(db: string)
      requires db in state && state[db] != map[] && (forall o :: o in state ==> PassesFit(state[o]))
               && IsSnapshot(snapshot)
      requires forall d :: d in snapshot && d.name != db ==> d.name in state && d.passes == state[d.name]
      requires forall o :: o in state && o != db && state[o] != map[] ==> DbSnapshot(o, state[o]) in snapshot
      modifies this`snapshot
      ensures Valid() && DbSnapshot(db, state[db]) in snapshot
    {
      var next, replaced := SwapIn(snapshot, db, state[db]);
      SwapKeeps(snapshot, next, db, state[db]);
      if !replaced {
        next := next + [DbSnapshot(db, state[db])];
      }
      LessNameIsAStrictOrder();
      var sorted := Sort(next, LessName);
      SortedNames(next, sorted);
      snapshot := sorted;
    }
  }

  method SwapIn(s: seq<DbSnapshot>, db: string, passes: map<Pass, PassState>)
      returns (next: seq<DbSnapshot>, replaced: bool)
    ensures |next| == |s| && forall j :: 0 <= j < |s| ==> next[j] == Swapped(s[j], db, passes)
    ensures replaced <==> exists j :: 0 <= j < |s| && s[j].name == db
  {
    next, replaced := [], false;
    for k := 0 to |s|
      invariant |next| == k && forall j :: 0 <= j < k ==> next[j] == Swapped(s[j], db, passes)
      invariant replaced <==> exists j :: 0 <= j < k && s[j].name == db
    {
      next := next + [Swapped(s[k], db, passes)];
      replaced := replaced || s[k].name == db;
    }
  }

  function Swapped(d: DbSnapshot, db: string, passes: map<Pass, PassState>): DbSnapshot {
    if d.name == db then DbSnapshot(db, passes) else d
  }

  lemma LessNameIsAStrictOrder()
    ensures StrictOrder(LessName)
  {
    LessIsAStrictOrder();
  }

  ghost predicate DistinctDbs(s: seq<DbSnapshot>) {
    forall i, j :: 0 <= i < j < |s| ==> s[i].name != s[j].name
  }

  lemma SwapKeeps(s: seq<DbSnapshot>, next: seq<DbSnapshot>, db: string, passes: map<Pass, PassState>)
    requires |next| == |s| && DistinctDbs(s) && forall j :: 0 <= j < |s| ==> next[j] == Swapped(s[j], db, passes)
    ensures DistinctDbs(next)
    ensures forall d :: d in next <==>
        (d in s && d.name != db) || (d == DbSnapshot(db, passes) && exists j :: 0 <= j < |s| && s[j].name == db)
  {
    forall d | d in s && d.name != db ensures d in next {
      var j :| 0 <= j < |s| && s[j] == d;
      assert next[j] == d;
    }
    if j :| 0 <= j < |s| && s[j].name == db {
      assert next[j] == DbSnapshot(db, passes);
    }
  }

  lemma SortedNames(next: seq<DbSnapshot>, sorted: seq<DbSnapshot>)
    requires DistinctDbs(next) && multiset(sorted) == multiset(next)
    ensures DistinctDbs(sorted) && forall d :: d in sorted <==> d in next
  {
    SameElements(sorted, next);
    ApartIsKept(next, sorted, (d: DbSnapshot, e: DbSnapshot) => d.name == e.name);
  }

  /** A scrape of a reachable state: it renders exactly when no published main result has two queues of one name. */
  method Scrape(c: Collector, r: Registry) returns (ok: bool, out: seq<seq<Sample>>)
    requires c.Valid() && r.IsDefault()
    ensures ok <==> AllQueuesDiffer(c.snapshot)
    ensures ok ==> GroupsOf(out, c.snapshot)
  {
    var samples := SnapshotSamples(c.snapshot);
    forall s ensures r.Accepts(s) <==> Labelled(s) { r.DefaultAccepts(s); }
    ok, out := r.Render(samples);
    if ok {
      WrittenIsGrouped(out, samples, c.snapshot);
    }
  }

  /** Family by family in the table's order, each family's samples sorted, each as often as the databases show it. */
  ghost predicate GroupsOf(out: seq<seq<Sample>>, dbs: seq<DbSnapshot>) {
    |out| == |FAMILIES| && forall k :: 0 <= k < |out| ==> IsGroup(out[k], FAMILIES[k], dbs)
  }

  ghost predicate IsGroup(ss: seq<Sample>, f: FamilyName, dbs: seq<DbSnapshot>) {
    Sorted(ss, LessSample) && forall s :: multiset(ss)[s] == if s.family == f then Times(dbs, s) else 0
  }

  lemma {:induction false} OfCounts(samples: seq<Sample>, f: FamilyName, s: Sample)
    ensures multiset(Of(samples, f))[s] == if s.family == f then multiset(samples)[s] else 0
  {
    if samples != [] {
      var front, last := samples[..|samples| - 1], samples[|samples| - 1];
      OfCounts(front, f, s);
      assert samples == front + [last];
    }
  }

  lemma WrittenIsGrouped(out: seq<seq<Sample>>, samples: seq<Sample>, dbs: seq<DbSnapshot>)
    requires forall s :: multiset(samples)[s] == Times(dbs, s)
    requires |out| == |FAMILIES| && forall k :: 0 <= k < |out| ==> Written(out[k], samples, FAMILIES[k])
    ensures GroupsOf(out, dbs)
  {
    forall k | 0 <= k < |out| ensures IsGroup(out[k], FAMILIES[k], dbs) {
      forall s ensures multiset(out[k])[s] == if s.family == FAMILIES[k] then Times(dbs, s) else 0 {
        OfCounts(samples, FAMILIES[k], s);
      }
    }
  }

  /** Queues configured with different names give a main result whose queues differ. */
  lemma ConfiguredQueuesDiffer(results: seq<QueueResult>, queues: seq<Queue>)
    requires QueuesOf(results, queues) && NamesDiffer(queues)
    ensures DistinctQueues(results)
  {
  }

  predicate NamesDiffer(queues: seq<Queue>) {
    forall i, j :: 0 <= i < j < |queues| ==> queues[i].name != queues[j].name
  }

  // ---------------------------------------------------------------- from beads to a scrape

  /** What a database answers to a pass. */
  datatype Answer =
    | Fails(reason: Reason)
    | Lists(beads: seq<Bead>, ready: set<string>, blocked: set<string>, closedCount: nat, statuses: seq<string>,
            queues: seq<Queue>, labelCap: int, at: int)
    | Claimed(beads: seq<Bead>, at: int, maxAge: int)
    | Counts(created: nat, closed: nat)

  /** The answer is one to this pass, with queues of the configured, different names. */
  predicate Answers(p: Pass, a: Answer) {
    match a
    case Fails(_) => true
    case Lists(_, _, _, _, _, queues, _, _) => p == MainPass && NamesDiffer(queues)
    case Claimed(_, _, _) => p == StrandedPass
    case Counts(_, _) => p == ThroughputPass
  }

  /** A result that no scrape fails for. */
  predicate Renders(p: Pass, r: Result) {
    r.Ok? ==> DataFits(p, r.data) && (r.data.MainData? ==> DistinctQueues(r.data.m.queues))
  }

  /** The result is what the pass computes from the answer. */
  ghost predicate IsResultOf(p: Pass, a: Answer, r: Result) {
    Renders(p, r) && match a
      case Fails(reason) => r == Err(reason)
      case Lists(beads, ready, blocked, closedCount, statuses, queues, labelCap, at) =>
        && r.Ok? && r.data.MainData? && QueuesOf(r.data.m.queues, queues)
        && IsLabelCap(beads, labelCap, r.data.m.byLabel)
        && Summed(r.data.m, beads, ready, blocked, ZeroFilled(statuses)["closed" := closedCount], at)
      case Claimed(beads, at, maxAge) =>
        r.Ok? && r.data.StrandedData? && multiset(r.data.claims) == multiset(ClaimsOf(beads, at, maxAge))
      case Counts(created, closed) => r == Ok(ThroughputData(Throughput(created, closed)))
  }

  method Collect(p: Pass, a: Answer) returns (r: Result)
    requires Answers(p, a)
    ensures IsResultOf(p, a, r)
  {
    match a {
      case Fails(reason) => r := Err(reason);
      case Lists(beads, ready, blocked, closedCount, statuses, queues, labelCap, at) =>
        var m := Summarize(beads, ready, blocked, closedCount, statuses, queues, labelCap, at);
        ConfiguredQueuesDiffer(m.queues, queues);
        r := Ok(MainData(m));
      case Claimed(beads, at, maxAge) =>
        var claims := Classify(beads, at, maxAge);
        r := Ok(StrandedData(claims));
      case Counts(created, closed) => r := Ok(ThroughputData(Throughput(created, closed)));
    }
  }

  /** Every published result renders. */
  ghost predicate AllRender(state: map<string, map<Pass, PassState>>) {
    forall db :: db in state ==> QueuesDiffer(state[db])
  }

  lemma RecordedRenders(state: map<string, map<Pass, PassState>>, p: Pass, db: string, before: PassState, r: Result,
                        duration: int,
                        end: int)
    requires AllRender(state) && db in state && Renders(p, r)
    ensures AllRender(state[db := state[db][p := After(before, r, duration, end)]])
  {
  }

  /** One run of a pass: what each database answers, how long it takes, when it ends, and how many are asked before a
      shutdown. */
  datatype Run = Run(pass: Pass, answers: string -> Answer, duration: string -> int, end: string -> int, asked: nat)

  /** How many databases the run asks. */
  function Asked(run: Run, dbs: seq<string>): nat {
    if run.asked < |dbs| then run.asked else |dbs|
  }

  ghost predicate IsEvent(run: Run, db: string, e: Event) {
    && e.db == db && e.pass == run.pass && e.duration == run.duration(db) && e.end == run.end(db)
    && IsResultOf(run.pass, run.answers(db), e.result)
  }

  /** One event for each of the databases asked, in their order. */
  ghost predicate EventsOf(run: Run, dbs: seq<string>, evs: seq<Event>) {
    |evs| <= |dbs| && forall k :: 0 <= k < |evs| ==> IsEvent(run, dbs[k], evs[k])
  }

  /** Runs the pass for each database in turn. */
  method RunPass(c: Collector, dbs: seq<string>, run: Run) returns (ghost evs: seq<Event>)
    requires c.Valid() && AllRender(c.state) && forall db :: db in dbs ==> db in c.state
    requires forall db :: db in dbs ==> Answers(run.pass, run.answers(db))
    modifies c
    ensures c.Valid() && AllRender(c.state) && c.state.Keys == old(c.state.Keys)
    ensures |evs| == Asked(run, dbs) && EventsOf(run, dbs, evs)
    ensures c.state == Played(old(c.state), evs, c.downAfter)
  {
    evs := [];
    for k := 0 to |dbs|
      invariant c.Valid() && AllRender(c.state) && c.state.Keys == old(c.state.Keys)
      invariant k <= run.asked && |evs| == k && EventsOf(run, dbs, evs)
      invariant c.state == Played(old(c.state), evs, c.downAfter)
    {
      if k == run.asked {
        return;
      }
      var db := dbs[k];
      assert db in dbs;
      var r := Collect(run.pass, run.answers(db));
      ghost var e := Event(db, run.pass, r, run.duration(db), run.end(db));
      RecordedRenders(c.state, run.pass, db, StateIn(c.state, db, run.pass, c.downAfter), r, run.duration(db),
                      run.end(db));
      c.Record(run.pass, db, r, run.duration(db), run.end(db));
      assert (evs + [e])[..|evs|] == evs;
      evs := evs + [e];
    }
  }

  lemma ShownRenders(c: Collector)
    requires c.Valid() && AllRender(c.state)
    ensures AllQueuesDiffer(c.snapshot)
  {
    forall k | 0 <= k < |c.snapshot| ensures QueuesDiffer(c.snapshot[k].passes) {
      assert c.snapshot[k] in c.snapshot;
    }
  }

  /** The events of the runs, run by run. */
  ghost predicate HistoryOf(runs: seq<Run>, dbs: seq<string>, evs: seq<Event>) {
    if runs == [] then evs == []
    else
      var run := runs[|runs| - 1];
      var n := |evs| - Asked(run, dbs);
      n >= 0 && HistoryOf(runs[..|runs| - 1], dbs, evs[..n]) && EventsOf(run, dbs, evs[n..])
  }

  lemma HistoryNext(runs: seq<Run>, dbs: seq<string>, k: nat, evs: seq<Event>, more: seq<Event>)
    requires k < |runs| && HistoryOf(runs[..k], dbs, evs) && |more| == Asked(runs[k], dbs)
    requires EventsOf(runs[k], dbs, more)
    ensures HistoryOf(runs[..k + 1], dbs, evs + more)
  {
    assert runs[..k + 1][..k] == runs[..k];
    assert (evs + more)[..|evs|] == evs && (evs + more)[|evs|..] == more;
  }

  /** After any history of pass runs over any answers a scrape renders, given configured queues of different names, and
      shows what that history left. */
  method EveryScrapeRenders(dbs: seq<string>, downAfter: int, runs: seq<Run>)
      returns (ok: bool, out: seq<seq<Sample>>, ghost evs: seq<Event>, ghost shown: seq<DbSnapshot>)
    requires forall run, db :: run in runs && db in dbs ==> Answers(run.pass, run.answers(db))
    ensures ok && HistoryOf(runs, dbs, evs) && GroupsOf(out, shown)
    ensures IsSnapshot(shown) && Displays(shown, Played(Unrun(dbs), evs, downAfter))
  {
    var c := new Collector(dbs, downAfter);
    evs := [];
    for k := 0 to |runs|
      invariant fresh(c) && c.Valid() && AllRender(c.state) && c.state.Keys == Unrun(dbs).Keys
      invariant c.state == Played(Unrun(dbs), evs, downAfter) && c.downAfter == downAfter
      invariant HistoryOf(runs[..k], dbs, evs)
    {
      assert runs[k] in runs;
      ghost var more := RunPass(c, dbs, runs[k]);
      PlayedInTurn(Unrun(dbs), evs, more, downAfter);
      HistoryNext(runs, dbs, k, evs, more);
      evs := evs + more;
    }
    assert runs[..|runs|] == runs;
    var r := Default();
    ShownRenders(c);
    shown := c.snapshot;
    ok, out := Scrape(c, r);
  }
}

/** The samples of one database: the domain series of each pass and the exporter's health series. */
module Samples {
  import opened Wrappers
  import opened Metrics
  import opened Analyze

  // ---------------------------------------------------------------- joining without repeats

  /** Two runs of samples that share no series repeat one exactly when one of them does. */
  lemma JoinApart(a: seq<Sample>, b: seq<Sample>)
    requires forall x, y :: x in a && y in b ==> !SameSeries(x, y)
    ensures NoRepeats(a + b) <==> NoRepeats(a) && NoRepeats(b)
  {
    var c := a + b;
    if NoRepeats(c) {
      forall i, j | 0 <= i < j < |a| ensures !SameSeries(a[i], a[j]) { assert c[i] == a[i] && c[j] == a[j]; }
      forall i, j | 0 <= i < j < |b| ensures !SameSeries(b[i], b[j]) {
        assert c[|a| + i] == b[i] && c[|a| + j] == b[j];
      }
    }
    if NoRepeats(a) && NoRepeats(b) {
      forall i, j | 0 <= i < j < |c| ensures !SameSeries(c[i], c[j]) {
        if j < |a| {
        } else if i < |a| {
          assert a[i] in a && b[j - |a|] in b;
        } else {
          assert c[i] == b[i - |a|] && c[j] == b[j - |a|];
        }
      }
    }
  }

  lemma AddApart(a: seq<Sample>, s: Sample)
    ensures NoRepeats(a + [s]) <==> NoRepeats(a) && forall x :: x in a ==> !SameSeries(x, s)
  {
    var c := a + [s];
    if NoRepeats(c) {
      forall i, j | 0 <= i < j < |a| ensures !SameSeries(a[i], a[j]) { assert c[i] == a[i] && c[j] == a[j]; }
      forall x | x in a ensures !SameSeries(x, s) {
        var i :| 0 <= i < |a| && a[i] == x;
        assert c[i] == x && c[|a|] == s;
      }
    }
  }

  lemma {:induction false} AsSet(a: seq<Sample>, c: set<Sample>)
    requires NoRepeats(a) && forall s :: s in a <==> s in c
    ensures multiset(a) == multiset(c)
  {
    if a != [] {
      var front, last := a[..|a| - 1], a[|a| - 1];
      assert a == front + [last];
      forall i, j | 0 <= i < j < |front| ensures !SameSeries(front[i], front[j]) {
        assert front[i] == a[i] && front[j] == a[j];
      }
      assert last !in front;
      AsSet(front, c - {last});
      assert multiset(a) == multiset(front) + multiset{last};
      assert c == (c - {last}) + {last};
    }
  }

  // ---------------------------------------------------------------- blocks of one family

  function Series(f: FamilyName, db: string, l: LabelName, v: string, value: real): Sample {
    Sample(f, [Label(Db, db), Label(l, v)], value)
  }

  lemma SeriesIs(f: FamilyName, db: string, l: LabelName, v: string, value: real)
    ensures Values(Series(f, db, l, v, value).labels) == [db, v]
    ensures LabelsOf(f) == [Db, l] ==> Labelled(Series(f, db, l, v, value))
  {
  }

  lemma SeriesDiffer(f: FamilyName, db: string, l: LabelName, v: string, x: real, w: string, y: real)
    ensures SameSeries(Series(f, db, l, v, x), Series(f, db, l, w, y)) <==> v == w
  {
    SeriesIs(f, db, l, v, x);
    SeriesIs(f, db, l, w, y);
    assert [db, v][1] == v && [db, w][1] == w;
  }

  /** One series per key of a map. */
  ghost predicate IsBlock(out: seq<Sample>, f: FamilyName, db: string, l: LabelName, m: map<string, nat>) {
    NoRepeats(out) && forall s :: s in out <==> exists x :: x in m && s == Series(f, db, l, x, m[x] as real)
  }

  ghost function BlockSet(f: FamilyName, db: string, l: LabelName, m: map<string, nat>): set<Sample> {
    set x | x in m :: Series(f, db, l, x, m[x] as real)
  }

  ghost function LabelSet(db: string, ls: seq<LabelCount>): set<Sample> {
    set c | c in ls :: Series(ByLabel, db, BeadLabel, c.name, c.count as real)
  }

  ghost function StateSet(f: FamilyName, db: string, m: Main): set<Sample> {
    set k, s | 0 <= k < |STATES| && s in StateSeries(f, db, m, STATES[k]) :: s
  }

  method EmitMap(f: FamilyName, db: string, l: LabelName, m: map<string, nat>) returns (out: seq<Sample>)
    ensures IsBlock(out, f, db, l, m)
  {
    out := [];
    var todo := m.Keys;
    while todo != {}
      invariant todo <= m.Keys && NoRepeats(out)
      invariant forall s :: s in out <==> exists x :: x in m && x !in todo && s == Series(f, db, l, x, m[x] as real)
      decreases todo
    {
      var x :| x in todo;
      var s := Series(f, db, l, x, m[x] as real);
      forall y | y in out ensures !SameSeries(y, s) {
        var z :| z in m && z !in todo && y == Series(f, db, l, z, m[z] as real);
        SeriesDiffer(f, db, l, z, m[z] as real, x, m[x] as real);
      }
      AddApart(out, s);
      out := out + [s];
      todo := todo - {x};
    }
  }

  method EmitLabels(db: string, ls: seq<LabelCount>) returns (out: seq<Sample>)
    requires DistinctLabels(ls)
    ensures NoRepeats(out) && forall s :: s in out <==> exists c ::
        c in ls && s == Series(ByLabel, db, BeadLabel, c.name, c.count as real)
  {
    out := [];
    for k := 0 to |ls|
      invariant NoRepeats(out)
      invariant forall s :: s in out <==> exists c ::
          c in ls[..k] && s == Series(ByLabel, db, BeadLabel, c.name, c.count as real)
    {
      var s := Series(ByLabel, db, BeadLabel, ls[k].name, ls[k].count as real);
      forall y | y in out ensures !SameSeries(y, s) {
        var c :| c in ls[..k] && y == Series(ByLabel, db, BeadLabel, c.name, c.count as real);
        SeriesDiffer(ByLabel, db, BeadLabel, c.name, c.count as real, ls[k].name, ls[k].count as real);
      }
      AddApart(out, s);
      out := out + [s];
      assert ls[..k + 1] == ls[..k] + [ls[k]];
    }
    assert ls[..|ls|] == ls;
  }

  function Seconds(t: int): real { t as real / 1000000000.0 }

  /** The value of a state's series; a state without one has no oldest bead. */
  function StateValue(f: FamilyName, m: Main, s: State): Option<real> {
    if f == Issues then Some(StateAt(m.states, s) as real)
    else if s in m.oldest then Some(Seconds(m.oldest[s])) else None
  }

  function StateSeries(f: FamilyName, db: string, m: Main, s: State): seq<Sample> {
    if StateValue(f, m, s).Some? then [Series(f, db, StateLabel, StateName(s), StateValue(f, m, s).value)] else []
  }

  method EmitStates(f: FamilyName, db: string, m: Main) returns (out: seq<Sample>)
    ensures NoRepeats(out) && forall s :: s in out <==> exists st :: s in StateSeries(f, db, m, st)
  {
    out := [];
    for k := 0 to |STATES|
      invariant NoRepeats(out)
      invariant forall s :: s in out <==> exists j :: 0 <= j < k && s in StateSeries(f, db, m, STATES[j])
    {
      var more := StateSeries(f, db, m, STATES[k]);
      forall x, y | x in out && y in more ensures !SameSeries(x, y) {
        var j :| 0 <= j < k && x in StateSeries(f, db, m, STATES[j]);
        StateSeriesDiffer(f, db, m, STATES[j], STATES[k], x, y);
      }
      JoinApart(out, more);
      out := out + more;
    }
    forall s, st | s in StateSeries(f, db, m, st) ensures s in out { var j := StateIndex(st); assert STATES[j] == st; }
  }

  function StateIndex(s: State): (k: nat)
    ensures k < |STATES| && STATES[k] == s
  {
    match s
    case InProgress => 0
    case Deferred => 1
    case Blocked => 2
    case Ready => 3
    case Tracking => 4
    case Other => 5
  }

  lemma StateSeriesDiffer(f: FamilyName, db: string, m: Main, s: State, t: State, x: Sample, y: Sample)
    requires s != t && x in StateSeries(f, db, m, s) && y in StateSeries(f, db, m, t)
    ensures !SameSeries(x, y)
  {
    SeriesDiffer(f, db, StateLabel, StateName(s), x.value, StateName(t), y.value);
    if StateName(s) == StateName(t) { StateNamesDiffer(s, t); }
  }

  predicate DistinctQueues(qs: seq<QueueResult>) {
    forall i, j :: 0 <= i < j < |qs| ==> qs[i].name != qs[j].name
  }

  function QueueSeries(db: string, q: QueueResult): seq<Sample> {
    [Series(QueueCandidates, db, QueueLabel, q.name, q.candidates as real)]
    + if q.oldest.Some? then [Series(QueueOldest, db, QueueLabel, q.name, Seconds(q.oldest.value))] else []
  }

  /** Every queue's series, once for each time the queue is there. */
  ghost function QueuesSeries(db: string, qs: seq<QueueResult>): multiset<Sample> {
    if qs == [] then multiset{}
    else QueuesSeries(db, qs[..|qs| - 1]) + multiset(QueueSeries(db, qs[|qs| - 1]))
  }

  lemma QueuesNext(db: string, qs: seq<QueueResult>, k: nat)
    requires k < |qs|
    ensures QueuesSeries(db, qs[..k + 1]) == QueuesSeries(db, qs[..k]) + multiset(QueueSeries(db, qs[k]))
  {
    assert qs[..k + 1][..k] == qs[..k];
  }

  /** The series of the first `k` queues; two queues of one name collide, queues of different names never do. */
  ghost predicate Queued(out: seq<Sample>, db: string, qs: seq<QueueResult>, k: nat)
    requires k <= |qs|
  {
    multiset(out) == QueuesSeries(db, qs[..k]) && (NoRepeats(out) <==> DistinctQueues(qs[..k]))
  }

  method EmitQueues(db: string, qs: seq<QueueResult>) returns (out: seq<Sample>)
    ensures NoRepeats(out) <==> DistinctQueues(qs)
    ensures multiset(out) == QueuesSeries(db, qs)
    ensures forall s :: s in out <==> exists q :: q in qs && s in QueueSeries(db, q)
  {
    out := [];
    for k := 0 to |qs|
      invariant Queued(out, db, qs, k)
    {
      QueuedNext(out, db, qs, k);
      out := out + QueueSeries(db, qs[k]);
    }
    QueuedAll(out, db, qs);
  }

  lemma QueuedNext(out: seq<Sample>, db: string, qs: seq<QueueResult>, k: nat)
    requires k < |qs| && Queued(out, db, qs, k)
    ensures Queued(out + QueueSeries(db, qs[k]), db, qs, k + 1)
  {
    InQueued(out, db, qs, k);
    QueueAdds(db, qs, k, out);
    QueuesNext(db, qs, k);
  }

  lemma InQueued(out: seq<Sample>, db: string, qs: seq<QueueResult>, k: nat)
    requires k <= |qs| && Queued(out, db, qs, k)
    ensures forall s :: s in out <==> exists q :: q in qs[..k] && s in QueueSeries(db, q)
  {
    forall s ensures s in out <==> exists q :: q in qs[..k] && s in QueueSeries(db, q) {
      InQueuesSeries(db, qs[..k], s);
      assert s in out <==> s in multiset(out);
    }
  }

  lemma QueuedAll(out: seq<Sample>, db: string, qs: seq<QueueResult>)
    requires Queued(out, db, qs, |qs|)
    ensures NoRepeats(out) <==> DistinctQueues(qs)
    ensures multiset(out) == QueuesSeries(db, qs)
    ensures forall s :: s in out <==> exists q :: q in qs && s in QueueSeries(db, q)
  {
    InQueued(out, db, qs, |qs|);
    assert qs[..|qs|] == qs;
  }

  lemma QueueSeriesMeet(db: string, p: QueueResult, q: QueueResult)
    ensures (exists x, y :: x in QueueSeries(db, p) && y in QueueSeries(db, q) && SameSeries(x, y)) <==>
        p.name == q.name
    ensures NoRepeats(QueueSeries(db, q))
  {
    var a, b := Series(QueueCandidates, db, QueueLabel, p.name, p.candidates as real),
      Series(QueueCandidates, db, QueueLabel, q.name, q.candidates as real);
    SeriesDiffer(QueueCandidates, db, QueueLabel, p.name, a.value, q.name, b.value);
    assert a in QueueSeries(db, p) && b in QueueSeries(db, q);
    forall x, y | x in QueueSeries(db, p) && y in QueueSeries(db, q) && SameSeries(x, y) ensures p.name == q.name {
      SeriesIs(x.family, db, QueueLabel, p.name, x.value);
      SeriesIs(y.family, db, QueueLabel, q.name, y.value);
      assert Values(x.labels) == [db, p.name] && Values(y.labels) == [db, q.name];
      assert [db, p.name][1] == [db, q.name][1];
    }
  }

  lemma QueueAdds(db: string, qs: seq<QueueResult>, k: nat, out: seq<Sample>)
    requires k < |qs| && (NoRepeats(out) <==> DistinctQueues(qs[..k]))
    requires forall s :: s in out <==> exists q :: q in qs[..k] && s in QueueSeries(db, q)
    ensures NoRepeats(out + QueueSeries(db, qs[k])) <==> DistinctQueues(qs[..k + 1])
  {
    var more := QueueSeries(db, qs[k]);
    QueueSeriesMeet(db, qs[k], qs[k]);
    if j :| 0 <= j < k && qs[j].name == qs[k].name {
      assert qs[..k + 1][j].name == qs[..k + 1][k].name;
      QueueSeriesMeet(db, qs[j], qs[k]);
      var x, y :| x in QueueSeries(db, qs[j]) && y in more && SameSeries(x, y);
      assert qs[j] in qs[..k];
      MeetingRepeats(out, more, x, y);
    } else {
      forall x, y | x in out && y in more ensures !SameSeries(x, y) {
        var q :| q in qs[..k] && x in QueueSeries(db, q);
        QueueSeriesMeet(db, q, qs[k]);
      }
      JoinApart(out, more);
      assert DistinctQueues(qs[..k + 1]) <==> DistinctQueues(qs[..k]) by {
        assert forall i :: 0 <= i < k ==> qs[..k][i] == qs[..k + 1][i];
      }
    }
  }

  lemma MeetingRepeats(a: seq<Sample>, b: seq<Sample>, x: Sample, y: Sample)
    requires x in a && y in b && SameSeries(x, y)
    ensures !NoRepeats(a + b)
  {
    var i :| 0 <= i < |a| && a[i] == x;
    var j :| 0 <= j < |b| && b[j] == y;
    assert (a + b)[i] == x && (a + b)[|a| + j] == y;
  }

  // ---------------------------------------------------------------- who owns a series

  datatype Pass = MainPass | StrandedPass | ThroughputPass

  function PassName(p: Pass): string {
    match p
    case MainPass => "main"
    case StrandedPass => "stranded"
    case ThroughputPass => "throughput"
  }

  lemma PassNamesDiffer(p: Pass, q: Pass)
    requires PassName(p) == PassName(q)
    ensures p == q
  {
    assert PassName(p)[0] == PassName(q)[0];
    assert PassName(p)[1] == PassName(q)[1];
  }

  /** A pass's own data, or the exporter's health series about a pass. */
  datatype Owner = DataOf(pass: Pass) | HealthOf(name: string)

  function OwnerOf(s: Sample): Owner {
    match s.family
    case Created24h => DataOf(ThroughputPass)
    case Closed24h => DataOf(ThroughputPass)
    case StrandedClaims => DataOf(StrandedPass)
    case OldestStranded => DataOf(StrandedPass)
    case ExporterUp => HealthOf(PassName(MainPass))
    case PassLastSuccess => HealthOf(SecondValue(s))
    case CollectErrors => HealthOf(SecondValue(s))
    case CollectDuration => HealthOf(SecondValue(s))
    case _ => DataOf(MainPass)
  }

  function FirstValue(s: Sample): string { if |s.labels| > 0 then s.labels[0].value else "" }
  function SecondValue(s: Sample): string { if |s.labels| > 1 then s.labels[1].value else "" }

  /** Every sample carries its labels and belongs to the owner in the database. */
  ghost predicate Owned(samples: seq<Sample>, db: string, o: Owner) {
    forall s :: s in samples ==> Labelled(s) && FirstValue(s) == db && OwnerOf(s) == o
  }

  lemma SameSeriesSameOwner(a: Sample, b: Sample)
    requires SameSeries(a, b)
    ensures FirstValue(a) == FirstValue(b) && OwnerOf(a) == OwnerOf(b)
  {
    var v, w := Values(a.labels), Values(b.labels);
    assert |a.labels| == |b.labels|;
    assert forall k :: 0 <= k < |v| ==> v[k] == a.labels[k].value && w[k] == b.labels[k].value;
  }

  // ---------------------------------------------------------------- the passes

  ghost predicate InBlock(s: Sample, f: FamilyName, db: string, l: LabelName, m: map<string, nat>) {
    exists x :: x in m && s == Sample(f, [Label(Db, db), Label(l, x)], m[x] as real)
  }

  /** The series of the main pass and their values; times in seconds. */
  ghost predicate IsMainSample(m: Main, db: string, s: Sample) {
    match s.family
    case Issues =>
      exists st :: s == Sample(Issues, [Label(Db, db), Label(StateLabel, StateName(st))], StateAt(m.states, st) as real)
    case IssuesStored => InBlock(s, IssuesStored, db, StatusLabel, m.stored)
    case QueueCandidates =>
      exists q :: q in m.queues
        && s == Sample(QueueCandidates, [Label(Db, db), Label(QueueLabel, q.name)], q.candidates as real)
    case QueueOldest =>
      exists q :: q in m.queues && q.oldest.Some?
        && s == Sample(QueueOldest, [Label(Db, db), Label(QueueLabel, q.name)],
           q.oldest.value as real / 1_000_000_000.0)
    case ByType => InBlock(s, ByType, db, TypeLabel, m.byType)
    case ByPriority => InBlock(s, ByPriority, db, PriorityLabel, m.byPriority)
    case ByLabel =>
      exists c :: c in m.byLabel && s == Sample(ByLabel, [Label(Db, db), Label(BeadLabel, c.name)], c.count as real)
    case Oldest =>
      exists st :: st in m.oldest
        && s == Sample(Oldest, [Label(Db, db), Label(StateLabel, StateName(st))],
           m.oldest[st] as real / 1_000_000_000.0)
    case _ => false
  }

  lemma StateSamplesAre(m: Main, db: string, s: Sample)
    ensures s.family == Issues ==> (IsMainSample(m, db, s) <==> exists st :: s in StateSeries(Issues, db, m, st))
    ensures s.family == Oldest ==> (IsMainSample(m, db, s) <==> exists st :: s in StateSeries(Oldest, db, m, st))
  {
    forall st
      ensures s in StateSeries(Issues, db, m, st)
         <==> s == Sample(Issues, [Label(Db, db), Label(StateLabel, StateName(st))], StateAt(m.states, st) as real)
      ensures s in StateSeries(Oldest, db, m, st)
         <==> st in m.oldest && s == Sample(Oldest, [Label(Db, db), Label(StateLabel, StateName(st))],
                                            m.oldest[st] as real / 1_000_000_000.0) {
    }
  }

  lemma MainSampleIsOwned(m: Main, db: string, s: Sample)
    requires IsMainSample(m, db, s)
    ensures Labelled(s) && FirstValue(s) == db && OwnerOf(s) == DataOf(MainPass)
  {
  }

  /** The samples with a property, of the families from place `lo` to `hi` of the table. */
  ghost predicate Part(out: seq<Sample>, p: Sample -> bool, lo: nat, hi: nat) {
    forall s :: s in out <==> p(s) && lo <= FamilyIndex(s.family) < hi
  }

  /** All series of the main pass, each as often as it is there. */
  ghost function MainSeries(m: Main, db: string): multiset<Sample> {
    UpToTypes(m, db) + FromPriorities(m, db)
  }

  ghost function UpToTypes(m: Main, db: string): multiset<Sample> {
    multiset(StateSet(Issues, db, m)) + multiset(BlockSet(IssuesStored, db, StatusLabel, m.stored))
    + QueuesSeries(db, m.queues) + multiset(BlockSet(ByType, db, TypeLabel, m.byType))
  }

  ghost function FromPriorities(m: Main, db: string): multiset<Sample> {
    multiset(BlockSet(ByPriority, db, PriorityLabel, m.byPriority)) + multiset(LabelSet(db, m.byLabel))
    + multiset(StateSet(Oldest, db, m))
  }

  ghost function OfMain(m: Main, db: string): Sample -> bool {
    s => IsMainSample(m, db, s)
  }

  lemma JoinParts(a: seq<Sample>, lo: nat, mid: nat, b: seq<Sample>, hi: nat, p: Sample -> bool)
    requires lo <= mid <= hi && Part(a, p, lo, mid) && Part(b, p, mid, hi)
    ensures Part(a + b, p, lo, hi)
    ensures NoRepeats(a + b) <==> NoRepeats(a) && NoRepeats(b)
  {
    JoinApart(a, b);
  }

  method StatePart(f: FamilyName, m: Main, db: string) returns (out: seq<Sample>)
    requires f == Issues || f == Oldest
    ensures NoRepeats(out) && Part(out, OfMain(m, db), FamilyIndex(f), FamilyIndex(f) + 1)
    ensures multiset(out) == multiset(StateSet(f, db, m))
  {
    out := EmitStates(f, db, m);
    forall s { StateSamplesAre(m, db, s); }
    forall s ensures s in StateSet(f, db, m) <==> exists st :: s in StateSeries(f, db, m, st) {
      InStateSet(f, db, m, s);
    }
    AsSet(out, StateSet(f, db, m));
  }

  function MapFor(f: FamilyName, m: Main): map<string, nat> {
    if f == IssuesStored then m.stored else if f == ByType then m.byType else m.byPriority
  }

  method MapPart(f: FamilyName, l: LabelName, m: Main, db: string) returns (out: seq<Sample>)
    requires (f, l) in [(IssuesStored, StatusLabel), (ByType, TypeLabel), (ByPriority, PriorityLabel)]
    ensures NoRepeats(out) && Part(out, OfMain(m, db), FamilyIndex(f), FamilyIndex(f) + 1)
    ensures multiset(out) == multiset(BlockSet(f, db, l, MapFor(f, m)))
  {
    out := EmitMap(f, db, l, MapFor(f, m));
    AsSet(out, BlockSet(f, db, l, MapFor(f, m)));
  }

  method QueuePart(m: Main, db: string) returns (out: seq<Sample>)
    ensures (NoRepeats(out) <==> DistinctQueues(m.queues)) && Part(out, OfMain(m, db), 2, 4)
    ensures multiset(out) == QueuesSeries(db, m.queues)
  {
    out := EmitQueues(db, m.queues);
    QueuesAreOfMain(out, m, db);
  }

  lemma QueuesAreOfMain(out: seq<Sample>, m: Main, db: string)
    requires forall s :: s in out <==> exists q :: q in m.queues && s in QueueSeries(db, q)
    ensures Part(out, OfMain(m, db), 2, 4)
  {
  }

  method LabelPart(m: Main, db: string) returns (out: seq<Sample>)
    requires DistinctLabels(m.byLabel)
    ensures NoRepeats(out) && Part(out, OfMain(m, db), 6, 7)
    ensures multiset(out) == multiset(LabelSet(db, m.byLabel))
  {
    out := EmitLabels(db, m.byLabel);
    AsSet(out, LabelSet(db, m.byLabel));
  }

  method FirstParts(m: Main, db: string) returns (out: seq<Sample>)
    ensures (NoRepeats(out) <==> DistinctQueues(m.queues)) && Part(out, OfMain(m, db), 0, 5)
    ensures multiset(out) == UpToTypes(m, db)
  {
    var issues := StatePart(Issues, m, db);
    var stored := MapPart(IssuesStored, StatusLabel, m, db);
    JoinParts(issues, 0, 1, stored, 2, OfMain(m, db));
    var queues := QueuePart(m, db);
    JoinParts(issues + stored, 0, 2, queues, 4, OfMain(m, db));
    var types := MapPart(ByType, TypeLabel, m, db);
    JoinParts(issues + stored + queues, 0, 4, types, 5, OfMain(m, db));
    out := issues + stored + queues + types;
  }

  method LastParts(m: Main, db: string) returns (out: seq<Sample>)
    requires DistinctLabels(m.byLabel)
    ensures NoRepeats(out) && Part(out, OfMain(m, db), 5, 8)
    ensures multiset(out) == FromPriorities(m, db)
  {
    var priorities := MapPart(ByPriority, PriorityLabel, m, db);
    var labels := LabelPart(m, db);
    JoinParts(priorities, 5, 6, labels, 7, OfMain(m, db));
    var oldest := StatePart(Oldest, m, db);
    JoinParts(priorities + labels, 5, 7, oldest, 8, OfMain(m, db));
    out := priorities + labels + oldest;
  }

  method MainSamples(m: Main, db: string) returns (out: seq<Sample>)
    requires DistinctLabels(m.byLabel)
    ensures NoRepeats(out) <==> DistinctQueues(m.queues)
    ensures forall s :: s in out <==> IsMainSample(m, db, s)
    ensures Owned(out, db, DataOf(MainPass)) && multiset(out) == MainSeries(m, db)
  {
    var first := FirstParts(m, db);
    var last := LastParts(m, db);
    JoinParts(first, 0, 5, last, 8, OfMain(m, db));
    out := first + last;
    AllMainFamilies(out, m, db);
  }

  lemma AllMainFamilies(out: seq<Sample>, m: Main, db: string)
    requires Part(out, OfMain(m, db), 0, 8)
    ensures forall s :: s in out <==> IsMainSample(m, db, s)
    ensures Owned(out, db, DataOf(MainPass))
  {
    forall s | IsMainSample(m, db, s)
      ensures s in out && Labelled(s) && FirstValue(s) == db && OwnerOf(s) == DataOf(MainPass) {
      MainSampleIsOwned(m, db, s);
      assert OfMain(m, db)(s);
    }
  }

  lemma {:induction false} InQueuesSeries(db: string, qs: seq<QueueResult>, s: Sample)
    ensures s in QueuesSeries(db, qs) <==> exists q :: q in qs && s in QueueSeries(db, q)
  {
    if qs != [] {
      var n := |qs| - 1;
      InQueuesSeries(db, qs[..n], s);
      assert forall q :: q in qs <==> q in qs[..n] || q == qs[n];
      assert s in multiset(QueueSeries(db, qs[n])) <==> s in QueueSeries(db, qs[n]);
    }
  }

  lemma QueuesHaveFamilies(db: string, qs: seq<QueueResult>, s: Sample)
    ensures s in QueuesSeries(db, qs)
       <==> (s.family == QueueCandidates || s.family == QueueOldest) && exists q :: q in qs && s in QueueSeries(db, q)
  {
    InQueuesSeries(db, qs, s);
  }

  lemma InStateSet(f: FamilyName, db: string, m: Main, s: Sample)
    ensures s in StateSet(f, db, m) <==> exists st :: s in StateSeries(f, db, m, st)
    ensures s in StateSet(f, db, m) ==> s.family == f
  {
    if st :| s in StateSeries(f, db, m, st) { var k := StateIndex(st); assert STATES[k] == st; }
  }

  lemma InBlockSet(f: FamilyName, db: string, l: LabelName, m: map<string, nat>, s: Sample)
    ensures s in BlockSet(f, db, l, m) <==> InBlock(s, f, db, l, m)
    ensures s in BlockSet(f, db, l, m) ==> s.family == f
  {
  }

  lemma InLabelSet(db: string, ls: seq<LabelCount>, s: Sample)
    ensures s in LabelSet(db, ls) <==> exists c ::
        c in ls && s == Series(ByLabel, db, BeadLabel, c.name, c.count as real)
    ensures s in LabelSet(db, ls) ==> s.family == ByLabel
  {
  }

  lemma InUpToTypes(m: Main, db: string, s: Sample)
    ensures s in UpToTypes(m, db) <==> FamilyIndex(s.family) < 5 && IsMainSample(m, db, s)
  {
    StateSamplesAre(m, db, s);
    InStateSet(Issues, db, m, s);
    InBlockSet(IssuesStored, db, StatusLabel, m.stored, s);
    InBlockSet(ByType, db, TypeLabel, m.byType, s);
    QueuesHaveFamilies(db, m.queues, s);
  }

  lemma InFromPriorities(m: Main, db: string, s: Sample)
    ensures s in FromPriorities(m, db) <==> FamilyIndex(s.family) >= 5 && IsMainSample(m, db, s)
  {
    StateSamplesAre(m, db, s);
    InStateSet(Oldest, db, m, s);
    InBlockSet(ByPriority, db, PriorityLabel, m.byPriority, s);
    InLabelSet(db, m.byLabel, s);
  }

  /** The series of the main pass's data are those listed by family, and no others. */
  lemma MainSeriesAre(m: Main, db: string, s: Sample)
    ensures s in MainSeries(m, db) <==> IsMainSample(m, db, s)
  {
    InUpToTypes(m, db, s);
    InFromPriorities(m, db, s);
  }

  datatype Throughput = Throughput(created: nat, closed: nat)

  method ThroughputSamples(t: Throughput, db: string) returns (out: seq<Sample>)
    ensures out == [Sample(Created24h, [Label(Db, db)], t.created as real),
        Sample(Closed24h, [Label(Db, db)], t.closed as real)]
    ensures NoRepeats(out) && Owned(out, db, DataOf(ThroughputPass))
  {
    out := [Sample(Created24h, [Label(Db, db)], t.created as real),
      Sample(Closed24h, [Label(Db, db)], t.closed as real)];
  }
}

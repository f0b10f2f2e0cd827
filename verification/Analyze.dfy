/** The derived quantities of one database: the disjoint states, the capped label counts, and the samples of the
    main, throughput and stranded passes. */
module Analyze {
  import opened Wrappers
  import opened SliceSort

  /** Times are nanoseconds, the priority its decimal form. */
  datatype Bead = Bead(id: string, status: string, issueType: string, priority: string, labels: seq<string>,
                       deferUntil: Option<int>,
                       startedAt: Option<int>, createdAt: Option<int>, assignee: string, updatedAt: Option<int>)

  datatype State = InProgress | Deferred | Blocked | Ready | Tracking | Other

  const STATES: seq<State> := [InProgress, Deferred, Blocked, Ready, Tracking, Other]

  const OTHER_LABEL: string := "__other__"

  function StateName(s: State): string {
    match s
    case InProgress => "in_progress"
    case Deferred => "deferred"
    case Blocked => "blocked"
    case Ready => "ready"
    case Tracking => "tracking"
    case Other => "other"
  }

  lemma StateNamesDiffer(s: State, t: State)
    requires StateName(s) == StateName(t)
    ensures s == t
  {
    assert StateName(s)[0] == StateName(t)[0];
  }

  function Categorize(b: Bead, ready: set<string>, blocked: set<string>, now: int): State {
    if b.status == "in_progress" || b.status == "hooked" then InProgress
    else if b.status == "deferred" || (b.deferUntil.Some? && b.deferUntil.value > now) then Deferred
    else if b.id in blocked || b.status == "blocked" then Blocked
    else if b.id in ready then Ready
    else if b.issueType == "merge-request" || b.issueType == "molecule" then Tracking
    else Other
  }

  function OldestKey(b: Bead, s: State): Option<int> {
    if s == InProgress && b.startedAt.Some? then b.startedAt else b.createdAt
  }

  // ---------------------------------------------------------------- counting

  function CountWhere(beads: seq<Bead>, p: Bead -> bool): nat {
    if beads == [] then 0 else CountWhere(beads[..|beads| - 1], p) + if p(beads[|beads| - 1]) then 1 else 0
  }

  lemma CountNext(beads: seq<Bead>, k: nat, p: Bead -> bool)
    requires k < |beads|
    ensures CountWhere(beads[..k + 1], p) == CountWhere(beads[..k], p) + if p(beads[k]) then 1 else 0
  {
    assert beads[..k + 1][..k] == beads[..k];
  }

  function InState(ready: set<string>, blocked: set<string>, now: int, s: State): Bead -> bool {
    b => Categorize(b, ready, blocked, now) == s
  }

  /** Every bead is in exactly one state: the states add up to the beads. */
  lemma {:induction false} StatesAddUp(beads: seq<Bead>, ready: set<string>, blocked: set<string>, now: int)
    ensures CountWhere(beads, InState(ready, blocked, now, InProgress))
        + CountWhere(beads, InState(ready, blocked, now, Deferred))
          + CountWhere(beads, InState(ready, blocked, now, Blocked))
          + CountWhere(beads, InState(ready, blocked, now, Ready))
          + CountWhere(beads, InState(ready, blocked, now, Tracking))
          + CountWhere(beads, InState(ready, blocked, now, Other)) == |beads|
  {
    if beads != [] { StatesAddUp(beads[..|beads| - 1], ready, blocked, now); }
  }

  /** What puts a bead in a state: each rule applies to the beads that no rule before it took. */
  predicate IsIn(b: Bead, ready: set<string>, blocked: set<string>, now: int, s: State) {
    var working := b.status == "in_progress" || b.status == "hooked";
    var waiting := b.status == "deferred" || (b.deferUntil.Some? && now < b.deferUntil.value);
    var held := b.status == "blocked" || b.id in blocked;
    var tracks := b.issueType == "merge-request" || b.issueType == "molecule";
    match s
    case InProgress => working
    case Deferred => !working && waiting
    case Blocked => !working && !waiting && held
    case Ready => !working && !waiting && !held && b.id in ready
    case Tracking => !working && !waiting && !held && b.id !in ready && tracks
    case Other => !working && !waiting && !held && b.id !in ready && !tracks
  }

  lemma StateIsIn(b: Bead, ready: set<string>, blocked: set<string>, now: int, s: State)
    ensures Categorize(b, ready, blocked, now) == s <==> IsIn(b, ready, blocked, now, s)
  {
  }

  lemma {:induction false} CountIs(beads: seq<Bead>, p: Bead -> bool)
    ensures CountWhere(beads, p) == |set k | 0 <= k < |beads| && p(beads[k])|
  {
    if beads != [] {
      var n := |beads| - 1;
      CountIs(beads[..n], p);
      var before := set k | 0 <= k < n && p(beads[..n][k]);
      var all := set k | 0 <= k < |beads| && p(beads[k]);
      assert all == before + if p(beads[n]) then {n} else {};
    }
  }

  /** A state's count is that of the beads its rule takes. */
  lemma StateCountIs(beads: seq<Bead>, ready: set<string>, blocked: set<string>, now: int, s: State)
    ensures CountWhere(beads, InState(ready, blocked, now, s))
         == |set k | 0 <= k < |beads| && IsIn(beads[k], ready, blocked, now, s)|
  {
    CountIs(beads, InState(ready, blocked, now, s));
    forall k | 0 <= k < |beads|
      ensures InState(ready, blocked, now, s)(beads[k]) <==> IsIn(beads[k], ready, blocked, now, s) {
      StateIsIn(beads[k], ready, blocked, now, s);
    }
    assert (set k | 0 <= k < |beads| && InState(ready, blocked, now, s)(beads[k]))
        == (set k | 0 <= k < |beads| && IsIn(beads[k], ready, blocked, now, s));
  }

  /** The smallest of the times there are. */
  ghost predicate IsOldest(times: seq<Option<int>>, t: Option<int>) {
    if t.None? then forall k :: 0 <= k < |times| ==> times[k].None?
    else t in times && forall k :: 0 <= k < |times| && times[k].Some? ==> t.value <= times[k].value
  }

  /** The earlier of the oldest so far and another time. */
  function Earlier(t: Option<int>, next: Option<int>): Option<int> {
    if next.Some? && (t.None? || next.value < t.value) then next else t
  }

  lemma OldestNext(times: seq<Option<int>>, t: Option<int>, next: Option<int>)
    requires IsOldest(times, t)
    ensures IsOldest(times + [next], Earlier(t, next))
  {
  }

  // ---------------------------------------------------------------- label cap

  function Has(l: string): Bead -> bool { (b: Bead) => l in b.labels }

  /** Carries a label that is not kept. */
  function HasOutside(kept: set<string>): Bead -> bool { (b: Bead) => exists l :: l in b.labels && l !in kept }

  datatype LabelCount = LabelCount(name: string, count: nat)

  predicate MoreCommon(a: LabelCount, b: LabelCount) {
    if a.count != b.count then a.count > b.count else Less(a.name, b.name)
  }

  lemma MoreCommonIsAStrictOrder()
    ensures StrictOrder(MoreCommon)
  {
    LessIsAStrictOrder();
  }

  predicate Eligible(l: string) {
    l != OTHER_LABEL && l != ""
  }

  function LabelsIn(beads: seq<Bead>): set<string> {
    set b, l | b in beads && l in b.labels :: l
  }

  /** How many beads carry each label; a label twice on a bead counts once. */
  method PerLabel(beads: seq<Bead>) returns (perLabel: map<string, nat>)
    ensures perLabel.Keys == LabelsIn(beads) && forall l :: l in perLabel ==> perLabel[l] == CountWhere(beads, Has(l))
  {
    perLabel := map[];
    for k := 0 to |beads|
      invariant forall l :: l in perLabel <==> CountWhere(beads[..k], Has(l)) > 0
      invariant forall l :: l in perLabel ==> perLabel[l] == CountWhere(beads[..k], Has(l))
    {
      perLabel := AddBead(perLabel, beads, k);
    }
    assert beads[..|beads|] == beads;
    forall l ensures l in perLabel <==> l in LabelsIn(beads) { CountIsPositive(beads, l); }
  }

  lemma {:induction false} CountIsPositive(beads: seq<Bead>, l: string)
    ensures CountWhere(beads, Has(l)) > 0 <==> l in LabelsIn(beads)
  {
    if beads != [] {
      var n := |beads| - 1;
      CountIsPositive(beads[..n], l);
      assert beads == beads[..n] + [beads[n]];
    }
  }

  function At(m: map<string, nat>, l: string): nat { if l in m then m[l] else 0 }

  method AddBead(perLabel0: map<string, nat>, beads: seq<Bead>, k: nat) returns (perLabel: map<string, nat>)
    requires k < |beads|
    requires forall l :: l in perLabel0 <==> CountWhere(beads[..k], Has(l)) > 0
    requires forall l :: l in perLabel0 ==> perLabel0[l] == CountWhere(beads[..k], Has(l))
    ensures forall l :: l in perLabel <==> CountWhere(beads[..k + 1], Has(l)) > 0
    ensures forall l :: l in perLabel ==> perLabel[l] == CountWhere(beads[..k + 1], Has(l))
  {
    perLabel := perLabel0;
    var labels := beads[k].labels;
    var seen: set<string> := {};
    for j := 0 to |labels|
      invariant forall l :: l in seen <==> l in labels[..j]
      invariant forall l :: At(perLabel, l) == At(perLabel0, l) + (if l in seen then 1 else 0)
      invariant forall l :: l in perLabel <==> l in perLabel0 || l in seen
    {
      var l := labels[j];
      if l in seen {
        continue;
      }
      seen := seen + {l};
      perLabel := perLabel[l := At(perLabel, l) + 1];
    }
    assert labels[..|labels|] == labels;
    forall l ensures (l in perLabel <==> CountWhere(beads[..k + 1], Has(l)) > 0)
      && (l in perLabel ==> perLabel[l] == CountWhere(beads[..k + 1], Has(l))) {
      CountNext(beads, k, Has(l));
      assert At(perLabel, l) == At(perLabel0, l) + (if l in seen then 1 else 0);
    }
  }

  function LabelsOfCounts(s: seq<LabelCount>): set<string> {
    set c | c in s :: c.name
  }

  predicate DistinctLabels(s: seq<LabelCount>) {
    forall i, j :: 0 <= i < j < |s| ==> s[i].name != s[j].name
  }

  /** The eligible labels, which a map yields in any order. */
  method EligibleCounts(perLabel: map<string, nat>) returns (s: seq<LabelCount>)
    ensures DistinctLabels(s) && forall c :: c in s <==>
        c.name in perLabel && Eligible(c.name) && c.count == perLabel[c.name]
  {
    s := [];
    var todo := perLabel.Keys;
    while todo != {}
      invariant todo <= perLabel.Keys && DistinctLabels(s)
      invariant forall c :: c in s <==>
          c.name in perLabel && c.name !in todo && Eligible(c.name) && c.count == perLabel[c.name]
      decreases todo
    {
      var l :| l in todo;
      todo := todo - {l};
      if l == OTHER_LABEL || l == "" {
        continue;
      }
      assert forall c :: c in s ==> c.name != l;
      s := s + [LabelCount(l, perLabel[l])];
    }
  }

  /** The kept labels are the limit most common eligible ones, the smaller name first among equally common, each with
      its count; beads with any other label are counted once, under a name no kept label has. */
  ghost predicate IsLabelCap(beads: seq<Bead>, limit: int, out: seq<LabelCount>) {
    IsCapped(beads, limit, out, KeptOf(out))
  }

  /** Without the remainder, which comes last. */
  function KeptOf(out: seq<LabelCount>): seq<LabelCount> {
    if out != [] && out[|out| - 1].name == OTHER_LABEL then out[..|out| - 1] else out
  }

  ghost predicate IsCapped(beads: seq<Bead>, limit: int, out: seq<LabelCount>, kept: seq<LabelCount>) {
    && kept <= out && DistinctLabels(out)
    && (forall c :: c in kept ==>
       Eligible(c.name) && c.name in LabelsIn(beads) && c.count == CountWhere(beads, Has(c.name)))
    && (forall c, l :: c in kept && l in LabelsIn(beads) && Eligible(l) && l !in LabelsOfCounts(kept) ==>
          MoreCommon(c, LabelCount(l, CountWhere(beads, Has(l)))))
    && (|kept| <= if limit < 0 then 0 else limit)
    && ((forall l :: l in LabelsIn(beads) && Eligible(l) ==> l in LabelsOfCounts(kept))
       || |kept| == if limit < 0 then 0 else limit)
    && (var other := CountWhere(beads, HasOutside(LabelsOfCounts(kept)));
        out == kept + if other > 0 then [LabelCount(OTHER_LABEL, other)] else [])
  }

  lemma SortedLabels(s: seq<LabelCount>, sorted: seq<LabelCount>)
    requires DistinctLabels(s) && multiset(s) == multiset(sorted) && Sorted(sorted, MoreCommon)
    ensures DistinctLabels(sorted) && (forall c :: c in sorted <==> c in s)
    ensures forall i, j :: 0 <= i < j < |sorted| ==> MoreCommon(sorted[i], sorted[j])
  {
    SameElements(s, sorted);
    ApartIsKept(s, sorted, (c: LabelCount, d: LabelCount) => c.name == d.name);
    forall i, j | 0 <= i < j < |sorted| ensures sorted[i].name != sorted[j].name && MoreCommon(sorted[i], sorted[j]) {
      LessIsTotal(sorted[i].name, sorted[j].name);
    }
  }

  method NamesOf(top: seq<LabelCount>) returns (names: set<string>)
    ensures names == LabelsOfCounts(top)
  {
    names := {};
    for k := 0 to |top|
      invariant names == LabelsOfCounts(top[..k])
    {
      assert top[..k + 1] == top[..k] + [top[k]];
      names := names + {top[k].name};
    }
    assert top[..|top|] == top;
  }

  method CountOutside(beads: seq<Bead>, names: set<string>) returns (other: nat)
    ensures other == CountWhere(beads, HasOutside(names))
  {
    other := 0;
    for k := 0 to |beads|
      invariant other == CountWhere(beads[..k], HasOutside(names))
    {
      CountNext(beads, k, HasOutside(names));
      var outside := AnyOutside(beads[k].labels, names);
      if outside {
        other := other + 1;
      }
    }
    assert beads[..|beads|] == beads;
  }

  method LabelCap(beads: seq<Bead>, limit: int) returns (out: seq<LabelCount>)
    ensures IsLabelCap(beads, limit, out)
  {
    var perLabel := PerLabel(beads);
    var eligible := EligibleCounts(perLabel);
    MoreCommonIsAStrictOrder();
    var sorted := Sort(eligible, MoreCommon);
    SortedLabels(eligible, sorted);
    var n := if limit < 0 then 0 else limit;
    var top := if |sorted| > n then sorted[..n] else sorted;
    var names := NamesOf(top);
    var other := CountOutside(beads, names);
    out := top;
    if other > 0 {
      out := out + [LabelCount(OTHER_LABEL, other)];
    }
    TopIsLabelCap(beads, limit, sorted, top, out);
  }

  /** Every kept label is on at least as many beads as any other that is not empty or the remainder's name, and of two
      on equally many the kept one comes first. */
  lemma KeptComeFirst(beads: seq<Bead>, limit: int, out: seq<LabelCount>, c: LabelCount, l: string)
    requires IsLabelCap(beads, limit, out) && c in KeptOf(out)
    requires l in LabelsIn(beads) && l != "" && l != "__other__" && forall d :: d in KeptOf(out) ==> d.name != l
    ensures c.name != "" && c.name != "__other__"
    ensures CountWhere(beads, Has(l)) <= c.count
    ensures CountWhere(beads, Has(l)) == c.count ==> exists k: nat :: ComesFirst(c.name, l, k)
  {
    assert l !in LabelsOfCounts(KeptOf(out));
    LessIs(c.name, l);
  }

  lemma TopIsLabelCap(beads: seq<Bead>, limit: int, sorted: seq<LabelCount>, top: seq<LabelCount>, out: seq<LabelCount>)
    requires DistinctLabels(sorted) && forall i, j :: 0 <= i < j < |sorted| ==> MoreCommon(sorted[i], sorted[j])
    requires forall c :: c in sorted <==>
        c.name in LabelsIn(beads) && Eligible(c.name) && c.count == CountWhere(beads, Has(c.name))
    requires var n := if limit < 0 then 0 else limit; top == if |sorted| > n then sorted[..n] else sorted
    requires var other := CountWhere(beads, HasOutside(LabelsOfCounts(top)));
             out == top + if other > 0 then [LabelCount(OTHER_LABEL, other)] else []
    ensures IsLabelCap(beads, limit, out)
  {
    KeptAreTop(beads, sorted, top);
    RemainderLast(top, out);
    forall c | c in top ensures c.name != OTHER_LABEL { assert c in sorted; }
  }

  lemma RemainderLast(kept: seq<LabelCount>, out: seq<LabelCount>)
    requires forall c :: c in kept ==> Eligible(c.name)
    requires out == kept || (|out| == |kept| + 1 && out[..|kept|] == kept && out[|kept|].name == OTHER_LABEL)
    ensures KeptOf(out) == kept
  {
    assert kept == [] || kept[|kept| - 1] in kept;
  }

  method AnyOutside(labels: seq<string>, names: set<string>) returns (outside: bool)
    ensures outside <==> exists l :: l in labels && l !in names
  {
    for j := 0 to |labels|
      invariant forall i :: 0 <= i < j ==> labels[i] in names
    {
      if labels[j] !in names {
        return true;
      }
    }
    return false;
  }

  lemma AmongTop(top: seq<LabelCount>, sorted: seq<LabelCount>, j: int)
    requires top <= sorted && 0 <= j < |top|
    ensures sorted[j].name in LabelsOfCounts(top)
  {
    assert sorted[j] == top[j];
  }

  lemma KeptAreTop(beads: seq<Bead>, sorted: seq<LabelCount>, top: seq<LabelCount>)
    requires top <= sorted && DistinctLabels(sorted)
    requires forall i, j :: 0 <= i < j < |sorted| ==> MoreCommon(sorted[i], sorted[j])
    requires forall c :: c in sorted <==>
        c.name in LabelsIn(beads) && Eligible(c.name) && c.count == CountWhere(beads, Has(c.name))
    ensures forall c :: c in top ==>
        Eligible(c.name) && c.name in LabelsIn(beads) && c.count == CountWhere(beads, Has(c.name))
    ensures forall c, l :: c in top && l in LabelsIn(beads) && Eligible(l) && l !in LabelsOfCounts(top) ==>
              MoreCommon(c, LabelCount(l, CountWhere(beads, Has(l))))
    ensures top == sorted ==> forall l :: l in LabelsIn(beads) && Eligible(l) ==> l in LabelsOfCounts(top)
  {
    forall c | c in top ensures c in sorted {}
    forall l | l in LabelsIn(beads) && Eligible(l) ensures LabelCount(l, CountWhere(beads, Has(l))) in sorted {}
    forall c, l | c in top && l in LabelsIn(beads) && Eligible(l) && l !in LabelsOfCounts(top)
      ensures MoreCommon(c, LabelCount(l, CountWhere(beads, Has(l))))
    {
      var d := LabelCount(l, CountWhere(beads, Has(l)));
      assert d in sorted;
      var i :| 0 <= i < |top| && top[i] == c;
      var j :| 0 <= j < |sorted| && sorted[j] == d;
      if j < |top| { AmongTop(top, sorted, j); }
    }
    if top == sorted {
      forall l | l in LabelsIn(beads) && Eligible(l) ensures l in LabelsOfCounts(top) {
        assert LabelCount(l, CountWhere(beads, Has(l))) in top;
      }
    }
  }

  // ---------------------------------------------------------------- summarize

  /** A configured queue and the beads claimable through it. */
  datatype Queue = Queue(name: string, members: seq<Bead>)

  datatype QueueResult = QueueResult(name: string, candidates: nat, oldest: Option<int>)

  datatype Main = Main(states: map<State, nat>, oldest: map<State, int>, stored: map<string, nat>,
                       queues: seq<QueueResult>,
                       byType: map<string, nat>, byPriority: map<string, nat>, byLabel: seq<LabelCount>)

  function StateAt(m: map<State, nat>, s: State): nat { if s in m then m[s] else 0 }

  /** The state counts: every state is there, and its count is its beads. */
  ghost predicate StatesOf(m: map<State, nat>, beads: seq<Bead>, ready: set<string>, blocked: set<string>, now: int) {
    forall s :: s in m && m[s] == CountWhere(beads, InState(ready, blocked, now, s))
  }

  lemma StatesNext(m: map<State, nat>, beads: seq<Bead>, k: nat, ready: set<string>, blocked: set<string>, now: int)
    requires k < |beads| && StatesOf(m, beads[..k], ready, blocked, now)
    ensures var st := Categorize(beads[k], ready, blocked, now);
            st in m && StatesOf(m[st := m[st] + 1], beads[..k + 1], ready, blocked, now)
  {
    var st := Categorize(beads[k], ready, blocked, now);
    forall s ensures s in m && m[st := m[st] + 1][s] == CountWhere(beads[..k + 1], InState(ready, blocked, now, s)) {
      CountNext(beads, k, InState(ready, blocked, now, s));
      assert s in m && m[s] == CountWhere(beads[..k], InState(ready, blocked, now, s));
    }
  }

  /** The published count of a state is that of the beads its rule takes. */
  lemma PublishedStateIs(m: map<State, nat>, beads: seq<Bead>, ready: set<string>, blocked: set<string>, now: int,
                         s: State)
    requires StatesOf(m, beads, ready, blocked, now)
    ensures StateAt(m, s) == |set k | 0 <= k < |beads| && IsIn(beads[k], ready, blocked, now, s)|
  {
    StateCountIs(beads, ready, blocked, now, s);
  }

  lemma {:induction false} InTimes(beads: seq<Bead>, ready: set<string>, blocked: set<string>, now: int, s: State,
                                   t: Option<int>)
    ensures t in TimesIn(beads, ready, blocked, now, s)
       <==> exists b :: b in beads && IsIn(b, ready, blocked, now, s) && t == SinceOf(b, s)
  {
    if beads != [] {
      var n := |beads| - 1;
      InTimes(beads[..n], ready, blocked, now, s, t);
      assert forall b :: b in beads <==> b in beads[..n] || b == beads[n];
      StateIsIn(beads[n], ready, blocked, now, s);
    }
  }

  /** Since when a bead is in its state: work in progress since it was started if that is known, all else since the bead
      was created. */
  function SinceOf(b: Bead, s: State): Option<int> {
    if s != InProgress then b.createdAt else if b.startedAt.Some? then b.startedAt else b.createdAt
  }

  /** The published oldest time of a state is the least of those of the beads its rule takes, if any has one. */
  lemma PublishedOldestIs(oldest: map<State, int>, beads: seq<Bead>, ready: set<string>, blocked: set<string>, now: int,
                          s: State)
    requires OldestOf(oldest, beads, ready, blocked, now)
    ensures s in oldest <==> exists b :: b in beads && IsIn(b, ready, blocked, now, s) && SinceOf(b, s).Some?
    ensures s in oldest ==> exists b ::
        b in beads && IsIn(b, ready, blocked, now, s) && SinceOf(b, s) == Some(oldest[s])
    ensures forall b :: b in beads && IsIn(b, ready, blocked, now, s) && SinceOf(b, s).Some? ==>
              s in oldest && oldest[s] <= SinceOf(b, s).value
  {
    var times := TimesIn(beads, ready, blocked, now, s);
    assert IsOldest(times, OldestAt(oldest, s));
    if s in oldest { InTimes(beads, ready, blocked, now, s, Some(oldest[s])); }
    forall b | b in beads && IsIn(b, ready, blocked, now, s) && SinceOf(b, s).Some?
      ensures s in oldest && oldest[s] <= SinceOf(b, s).value
    {
      InTimes(beads, ready, blocked, now, s, SinceOf(b, s));
      var k :| 0 <= k < |times| && times[k] == SinceOf(b, s);
    }
  }

  function PlacesOf(beads: seq<Bead>, key: Bead -> string, x: string): set<int> {
    set k | 0 <= k < |beads| && key(beads[k]) == x
  }

  lemma TallyIs(m: map<string, nat>, init: map<string, nat>, beads: seq<Bead>, key: Bead -> string, x: string)
    requires TalliesBy(m, init, beads, key)
    ensures At(m, x) == At(init, x) + |PlacesOf(beads, key, x)|
  {
    CountIs(beads, KeyIs(key, x));
    forall k | 0 <= k < |beads| ensures KeyIs(key, x)(beads[k]) <==> key(beads[k]) == x { }
    assert (set k | 0 <= k < |beads| && KeyIs(key, x)(beads[k])) == PlacesOf(beads, key, x);
  }

  /** How many beads have a status, type or priority; those of no type count as of an unknown one, and the statuses to
      begin with are added. */
  lemma PublishedTalliesAre(m: Main, beads: seq<Bead>, ready: set<string>, blocked: set<string>,
                            stored0: map<string, nat>, now: int, x: string)
    requires Summed(m, beads, ready, blocked, stored0, now)
    ensures At(m.stored, x) == At(stored0, x) + |set k | 0 <= k < |beads| && beads[k].status == x|
    ensures At(m.byType, x)
         == |set k | 0 <= k < |beads| && x == if beads[k].issueType == "" then "unknown" else beads[k].issueType|
    ensures At(m.byPriority, x) == |set k | 0 <= k < |beads| && beads[k].priority == x|
  {
    TallyIs(m.stored, stored0, beads, Status, x);
    TallyIs(m.byType, map[], beads, TypeOf, x);
    TallyIs(m.byPriority, map[], beads, Priority, x);
    assert PlacesOf(beads, Status, x) == set k | 0 <= k < |beads| && beads[k].status == x;
    assert PlacesOf(beads, TypeOf, x)
        == set k | 0 <= k < |beads| && x == if beads[k].issueType == "" then "unknown" else beads[k].issueType;
    assert PlacesOf(beads, Priority, x) == set k | 0 <= k < |beads| && beads[k].priority == x;
  }

  /** The published states add up to the beads that are not closed. */
  lemma PublishedStatesAddUp(m: map<State, nat>, beads: seq<Bead>, ready: set<string>, blocked: set<string>, now: int)
    requires StatesOf(m, beads, ready, blocked, now)
    ensures StateAt(m, InProgress) + StateAt(m, Deferred) + StateAt(m, Blocked) + StateAt(m, Ready)
        + StateAt(m, Tracking) + StateAt(m, Other)
         == |beads|
  {
    StatesAddUp(beads, ready, blocked, now);
  }

  function CreatedTimes(beads: seq<Bead>): seq<Option<int>> {
    seq(|beads|, k requires 0 <= k < |beads| => beads[k].createdAt)
  }

  method SummarizeQueue(q: Queue) returns (r: QueueResult)
    ensures r.name == q.name && r.candidates == |q.members| && IsOldest(CreatedTimes(q.members), r.oldest)
  {
    var oldest: Option<int> := None;
    for k := 0 to |q.members|
      invariant IsOldest(CreatedTimes(q.members[..k]), oldest)
    {
      OldestNext(CreatedTimes(q.members[..k]), oldest, q.members[k].createdAt);
      assert CreatedTimes(q.members[..k + 1]) == CreatedTimes(q.members[..k]) + [q.members[k].createdAt];
      oldest := Earlier(oldest, q.members[k].createdAt);
    }
    assert q.members[..|q.members|] == q.members;
    r := QueueResult(q.name, |q.members|, oldest);
  }

  function KeyIs(key: Bead -> string, x: string): Bead -> bool { (b: Bead) => key(b) == x }

  function Status(b: Bead): string { b.status }
  function TypeOf(b: Bead): string { if b.issueType == "" then "unknown" else b.issueType }
  function Priority(b: Bead): string { b.priority }

  /** The counts by a key, over what was there to begin with. */
  ghost predicate TalliesBy(m: map<string, nat>, init: map<string, nat>, beads: seq<Bead>, key: Bead -> string) {
    forall x :: (x in m <==> x in init || CountWhere(beads, KeyIs(key, x)) > 0)
             && At(m, x) == At(init, x) + CountWhere(beads, KeyIs(key, x))
  }

  lemma TallyNext(m: map<string, nat>, init: map<string, nat>, beads: seq<Bead>, k: nat, key: Bead -> string)
    requires k < |beads| && TalliesBy(m, init, beads[..k], key)
    ensures TalliesBy(m[key(beads[k]) := At(m, key(beads[k])) + 1], init, beads[..k + 1], key)
  {
    var after := m[key(beads[k]) := At(m, key(beads[k])) + 1];
    forall x ensures (x in after <==> x in init || CountWhere(beads[..k + 1], KeyIs(key, x)) > 0)
                  && At(after, x) == At(init, x) + CountWhere(beads[..k + 1], KeyIs(key, x))
    {
      CountNext(beads, k, KeyIs(key, x));
      assert At(m, x) == At(init, x) + CountWhere(beads[..k], KeyIs(key, x));
      assert x in m <==> x in init || CountWhere(beads[..k], KeyIs(key, x)) > 0;
    }
  }

  function OldestAt(oldest: map<State, int>, s: State): Option<int> {
    if s in oldest then Some(oldest[s]) else None
  }

  /** The oldest times of the beads of a state. */
  function TimesIn(beads: seq<Bead>, ready: set<string>, blocked: set<string>, now: int, s: State): seq<Option<int>> {
    if beads == [] then []
    else
      var b := beads[|beads| - 1];
      TimesIn(beads[..|beads| - 1], ready, blocked, now, s) + if Categorize(b, ready, blocked, now) == s
        then [OldestKey(b, s)] else []
  }

  ghost predicate OldestOf(oldest: map<State, int>, beads: seq<Bead>, ready: set<string>, blocked: set<string>,
                           now: int) {
    forall s :: IsOldest(TimesIn(beads, ready, blocked, now, s), OldestAt(oldest, s))
  }

  function WithTime(oldest: map<State, int>, st: State, ts: Option<int>): map<State, int> {
    if ts.Some? && (st !in oldest || ts.value < oldest[st]) then oldest[st := ts.value] else oldest
  }

  lemma OldestOfNext(oldest: map<State, int>, beads: seq<Bead>, k: nat, ready: set<string>, blocked: set<string>,
                     now: int)
    requires k < |beads| && OldestOf(oldest, beads[..k], ready, blocked, now)
    ensures var st := Categorize(beads[k], ready, blocked, now);
            OldestOf(WithTime(oldest, st, OldestKey(beads[k], st)), beads[..k + 1], ready, blocked, now)
  {
    var st := Categorize(beads[k], ready, blocked, now);
    var after := WithTime(oldest, st, OldestKey(beads[k], st));
    assert beads[..k + 1][..k] == beads[..k];
    forall s ensures IsOldest(TimesIn(beads[..k + 1], ready, blocked, now, s), OldestAt(after, s)) {
      assert IsOldest(TimesIn(beads[..k], ready, blocked, now, s), OldestAt(oldest, s));
      if s == st {
        OldestNext(TimesIn(beads[..k], ready, blocked, now, s), OldestAt(oldest, s), OldestKey(beads[k], st));
      }
    }
  }

  function ZeroFilled(statuses: seq<string>): map<string, nat> {
    map s | s in statuses :: 0
  }

  ghost predicate QueuesOf(rs: seq<QueueResult>, qs: seq<Queue>) {
    |rs| == |qs| && forall k :: 0 <= k < |qs| ==>
      rs[k].name == qs[k].name && rs[k].candidates == |qs[k].members|
        && IsOldest(CreatedTimes(qs[k].members), rs[k].oldest)
  }

  /** The counts of the beads seen so far. */
  ghost predicate Summed(m: Main, beads: seq<Bead>, ready: set<string>, blocked: set<string>,
                         stored0: map<string, nat>, now: int) {
    && StatesOf(m.states, beads, ready, blocked, now) && OldestOf(m.oldest, beads, ready, blocked, now)
    && TalliesBy(m.stored, stored0, beads, Status) && TalliesBy(m.byType, map[], beads, TypeOf)
    && TalliesBy(m.byPriority, map[], beads, Priority)
  }

  /** One more bead, in its state. */
  function WithBead(m: Main, b: Bead, st: State): Main {
    m.(states := m.states[st := StateAt(m.states, st) + 1], oldest := WithTime(m.oldest, st, OldestKey(b, st)),
       stored := m.stored[b.status := At(m.stored, b.status) + 1],
       byType := m.byType[TypeOf(b) := At(m.byType, TypeOf(b)) + 1],
       byPriority := m.byPriority[b.priority := At(m.byPriority, b.priority) + 1])
  }

  lemma SummedNext(m: Main, beads: seq<Bead>, k: nat, ready: set<string>, blocked: set<string>,
                   stored0: map<string, nat>, now: int)
    requires k < |beads| && Summed(m, beads[..k], ready, blocked, stored0, now)
    ensures Summed(WithBead(m, beads[k], Categorize(beads[k], ready, blocked, now)), beads[..k + 1], ready, blocked,
        stored0, now)
  {
    SummedStates(m, beads, k, ready, blocked, now);
    SummedTallies(m, beads, k, stored0, Categorize(beads[k], ready, blocked, now));
  }

  lemma SummedStates(m: Main, beads: seq<Bead>, k: nat, ready: set<string>, blocked: set<string>, now: int)
    requires k < |beads| && StatesOf(m.states, beads[..k], ready, blocked, now)
             && OldestOf(m.oldest, beads[..k], ready, blocked, now)
    ensures var after := WithBead(m, beads[k], Categorize(beads[k], ready, blocked, now));
            StatesOf(after.states, beads[..k + 1], ready, blocked, now)
              && OldestOf(after.oldest, beads[..k + 1], ready, blocked, now)
  {
    StatesNext(m.states, beads, k, ready, blocked, now);
    OldestOfNext(m.oldest, beads, k, ready, blocked, now);
  }

  lemma SummedTallies(m: Main, beads: seq<Bead>, k: nat, stored0: map<string, nat>, st: State)
    requires k < |beads| && TalliesBy(m.stored, stored0, beads[..k], Status)
             && TalliesBy(m.byType, map[], beads[..k], TypeOf)
    requires TalliesBy(m.byPriority, map[], beads[..k], Priority)
    ensures var after := WithBead(m, beads[k], st);
            && TalliesBy(after.stored, stored0, beads[..k + 1], Status)
            && TalliesBy(after.byType, map[], beads[..k + 1], TypeOf)
            && TalliesBy(after.byPriority, map[], beads[..k + 1], Priority)
  {
    TallyNext(m.stored, stored0, beads, k, Status);
    TallyNext(m.byType, map[], beads, k, TypeOf);
    TallyNext(m.byPriority, map[], beads, k, Priority);
  }

  lemma NothingSummed(m: Main, ready: set<string>, blocked: set<string>, now: int)
    requires (forall s :: s in m.states && m.states[s] == 0) && m.oldest == map[] && m.byType == map[]
             && m.byPriority == map[]
    ensures Summed(m, [], ready, blocked, m.stored, now)
  {
  }

  method CountBeads(beads: seq<Bead>, ready: set<string>, blocked: set<string>, stored0: map<string, nat>, now: int)
      returns (m: Main)
    ensures Summed(m, beads, ready, blocked, stored0, now)
  {
    var states := map[InProgress := 0, Deferred := 0, Blocked := 0, Ready := 0, Tracking := 0, Other := 0];
    forall s: State ensures s in states && states[s] == 0 {
      match s { case InProgress => case Deferred => case Blocked => case Ready => case Tracking => case Other => }
    }
    m := Main(states, map[], stored0, [], map[], map[], []);
    NothingSummed(m, ready, blocked, now);
    assert beads[..0] == [];
    for k := 0 to |beads|
      invariant Summed(m, beads[..k], ready, blocked, stored0, now)
    {
      SummedNext(m, beads, k, ready, blocked, stored0, now);
      m := WithBead(m, beads[k], Categorize(beads[k], ready, blocked, now));
    }
    assert beads[..|beads|] == beads;
  }

  method SummarizeQueues(queues: seq<Queue>) returns (results: seq<QueueResult>)
    ensures QueuesOf(results, queues)
  {
    results := [];
    for k := 0 to |queues|
      invariant QueuesOf(results, queues[..k])
    {
      var r := SummarizeQueue(queues[k]);
      results := results + [r];
    }
    assert queues[..|queues|] == queues;
  }

  lemma OtherPartsKeepSums(m: Main, byLabel: seq<LabelCount>, queues: seq<QueueResult>, beads: seq<Bead>,
                           ready: set<string>, blocked: set<string>,
                           stored0: map<string, nat>, now: int)
    requires Summed(m, beads, ready, blocked, stored0, now)
    ensures Summed(m.(byLabel := byLabel, queues := queues), beads, ready, blocked, stored0, now)
  {
  }

  method Summarize(beads: seq<Bead>, ready: set<string>, blocked: set<string>, closedCount: nat, statuses: seq<string>,
                   queues: seq<Queue>, labelCap: int, now: int) returns (m: Main)
    ensures Summed(m, beads, ready, blocked, ZeroFilled(statuses)["closed" := closedCount], now)
    ensures IsLabelCap(beads, labelCap, m.byLabel) && QueuesOf(m.queues, queues)
  {
    var stored0 := ZeroFilled(statuses)["closed" := closedCount];
    m := CountBeads(beads, ready, blocked, stored0, now);
    var byLabel := LabelCap(beads, labelCap);
    var results := SummarizeQueues(queues);
    OtherPartsKeepSums(m, byLabel, results, beads, ready, blocked, stored0, now);
    m := m.(byLabel := byLabel, queues := results);
  }
}

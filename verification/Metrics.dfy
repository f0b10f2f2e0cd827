/** The metric registry and the renderer that checks every sample against it. Family and label names are constants of
    the program and stand here as enumerations; label values are strings. */
module Metrics {
  import opened SliceSort

  datatype FamilyName = Issues | IssuesStored | QueueCandidates | QueueOldest | ByType | ByPriority | ByLabel | Oldest
                      | Created24h | Closed24h | StrandedClaims | OldestStranded
                      | ExporterUp | PassLastSuccess | CollectErrors | CollectDuration

  datatype LabelName = Db | StateLabel | StatusLabel | QueueLabel | TypeLabel | PriorityLabel | BeadLabel | PassLabel
                     | ReasonLabel

  datatype MetricType = Gauge | Counter | OtherType(text: string)

  datatype Family = Family(name: FamilyName, typ: MetricType, labels: seq<LabelName>)

  datatype Label = Label(name: LabelName, value: string)

  datatype Sample = Sample(family: FamilyName, labels: seq<Label>, value: real)

  /** The label names of each family, in order. */
  function LabelsOf(f: FamilyName): seq<LabelName> {
    match f
    case Issues => [Db, StateLabel]
    case IssuesStored => [Db, StatusLabel]
    case QueueCandidates => [Db, QueueLabel]
    case QueueOldest => [Db, QueueLabel]
    case ByType => [Db, TypeLabel]
    case ByPriority => [Db, PriorityLabel]
    case ByLabel => [Db, BeadLabel]
    case Oldest => [Db, StateLabel]
    case Created24h => [Db]
    case Closed24h => [Db]
    case StrandedClaims => [Db, StatusLabel]
    case OldestStranded => [Db]
    case ExporterUp => [Db]
    case PassLastSuccess => [Db, PassLabel]
    case CollectErrors => [Db, PassLabel, ReasonLabel]
    case CollectDuration => [Db, PassLabel]
  }

  function TypeOf(f: FamilyName): MetricType {
    if f == CollectErrors then Counter else Gauge
  }

  function FamilyOf(f: FamilyName): Family {
    Family(f, TypeOf(f), LabelsOf(f))
  }

  /** The families in output order. */
  const FAMILIES: seq<FamilyName> :=
    [Issues, IssuesStored, QueueCandidates, QueueOldest, ByType, ByPriority, ByLabel, Oldest, Created24h, Closed24h,
     StrandedClaims, OldestStranded, ExporterUp, PassLastSuccess, CollectErrors, CollectDuration]

  // ---------------------------------------------------------------- the order of series

  function Values(labels: seq<Label>): (v: seq<string>)
    ensures |v| == |labels|
  {
    seq(|labels|, k requires 0 <= k < |labels| => labels[k].value)
  }

  /** lessLabels, on label lists of one length. */
  predicate LessValues(a: seq<string>, b: seq<string>) {
    if b == [] then false
    else if a == [] then true
    else if a[0] != b[0] then Less(a[0], b[0])
    else LessValues(a[1..], b[1..])
  }

  /** The first label value that differs decides. */
  predicate DecidedAt(a: seq<string>, b: seq<string>, k: nat) {
    k < |a| && k < |b| && a[..k] == b[..k] && a[k] != b[k] && Less(a[k], b[k])
  }

  lemma {:induction false} LessValuesIs(a: seq<string>, b: seq<string>)
    requires |a| == |b|
    ensures LessValues(a, b) <==> exists k: nat :: DecidedAt(a, b, k)
  {
    if a != [] && a[0] != b[0] {
      assert Less(a[0], b[0]) ==> DecidedAt(a, b, 0);
      forall k: nat | DecidedAt(a, b, k) ensures Less(a[0], b[0]) { assert k > 0 ==> a[..k][0] == b[..k][0]; }
    } else if a != [] {
      LessValuesIs(a[1..], b[1..]);
      LessIsTotal(a[0], b[0]);
      if k: nat :| DecidedAt(a[1..], b[1..], k) {
        assert a[..k + 1] == [a[0]] + a[1..][..k] && b[..k + 1] == [b[0]] + b[1..][..k];
        assert DecidedAt(a, b, k + 1);
      }
      if k: nat :| DecidedAt(a, b, k) {
        assert a[1..][..k - 1] == a[..k][1..] && b[1..][..k - 1] == b[..k][1..];
        assert DecidedAt(a[1..], b[1..], k - 1);
      }
    }
  }

  lemma {:induction false} LessValuesIsTotal(a: seq<string>, b: seq<string>)
    ensures LessValues(a, b) ==> !LessValues(b, a)
    ensures a != b ==> LessValues(a, b) || LessValues(b, a)
    ensures !LessValues(a, a)
  {
    if a != [] { LessValuesIsTotal(a[1..], a[1..]); }
    if a != [] && b != [] {
      LessIsTotal(a[0], b[0]);
      if a[0] == b[0] {
        LessValuesIsTotal(a[1..], b[1..]);
        assert a == [a[0]] + a[1..] && b == [b[0]] + b[1..];
      }
    }
  }

  lemma {:induction false} LessValuesIsTransitive(a: seq<string>, b: seq<string>, c: seq<string>)
    requires LessValues(a, b) && LessValues(b, c)
    ensures LessValues(a, c)
  {
    if a != [] {
      LessIsTotal(a[0], c[0]);
      LessIsTotal(b[0], c[0]);
      if a[0] == b[0] && b[0] == c[0] {
        LessValuesIsTransitive(a[1..], b[1..], c[1..]);
      } else if a[0] != b[0] && b[0] != c[0] {
        LessIsTransitive(a[0], b[0], c[0]);
      }
    }
  }

  predicate LessSample(a: Sample, b: Sample) {
    LessValues(Values(a.labels), Values(b.labels))
  }

  lemma LessSampleIsAStrictOrder()
    ensures StrictOrder(LessSample)
  {
    forall x, y ensures LessSample(x, y) ==> !LessSample(y, x) {
      LessValuesIsTotal(Values(x.labels), Values(y.labels));
    }
    forall x, y, z | !LessSample(y, x) && !LessSample(z, y) ensures !LessSample(z, x) {
      var a, b, c := Values(x.labels), Values(y.labels), Values(z.labels);
      LessValuesIsTotal(a, b);
      LessValuesIsTotal(b, c);
      LessValuesIsTotal(c, a);
      if LessValues(c, a) && a != b && b != c { LessValuesIsTransitive(a, b, c); }
    }
  }

  // ---------------------------------------------------------------- what can be rendered

  predicate SameSeries(a: Sample, b: Sample) {
    a.family == b.family && Values(a.labels) == Values(b.labels)
  }

  ghost predicate NoRepeats(samples: seq<Sample>) {
    forall i, j :: 0 <= i < j < |samples| ==> !SameSeries(samples[i], samples[j])
  }

  /** The sample carries exactly these labels, in order. */
  predicate Carries(s: Sample, labels: seq<LabelName>) {
    |s.labels| == |labels| && forall k :: 0 <= k < |s.labels| ==> s.labels[k].name == labels[k]
  }

  /** The sample carries exactly its family's labels. */
  predicate Labelled(s: Sample) {
    Carries(s, LabelsOf(s.family))
  }

  function Of(samples: seq<Sample>, f: FamilyName): seq<Sample> {
    if samples == [] then []
    else Of(samples[..|samples| - 1], f) + if samples[|samples| - 1].family == f then [samples[|samples| - 1]] else []
  }

  lemma {:induction false} OfIs(samples: seq<Sample>, f: FamilyName)
    ensures forall s :: s in Of(samples, f) <==> s in samples && s.family == f
  {
    if samples != [] {
      var front, last := samples[..|samples| - 1], samples[|samples| - 1];
      OfIs(front, f);
      assert samples == front + [last];
    }
  }

  lemma {:induction false} OfKeepsApart(samples: seq<Sample>, f: FamilyName)
    ensures NoRepeats(samples) ==> NoRepeats(Of(samples, f))
  {
    if samples != [] {
      var front, last := samples[..|samples| - 1], samples[|samples| - 1];
      OfKeepsApart(front, f);
      OfIs(front, f);
      if NoRepeats(samples) {
        forall i | 0 <= i < |front| ensures !SameSeries(front[i], last) { assert samples[i] == front[i]; }
        forall s | s in Of(front, f) ensures !SameSeries(s, last) { assert s in front; }
      }
    }
  }

  /** Repeats are repeats within a family. */
  lemma {:induction false} RepeatIsInFamily(samples: seq<Sample>, i: nat, j: nat)
    requires i < j < |samples| && SameSeries(samples[i], samples[j])
    ensures !NoRepeats(Of(samples, samples[i].family))
  {
    var n, f := |samples| - 1, samples[i].family;
    var front := samples[..n];
    if j < n {
      RepeatIsInFamily(front, i, j);
      var a, b :| 0 <= a < b < |Of(front, f)| && SameSeries(Of(front, f)[a], Of(front, f)[b]);
      assert Of(samples, f)[a] == Of(front, f)[a] && Of(samples, f)[b] == Of(front, f)[b];
    } else {
      OfIs(front, f);
      assert samples[i] in front;
      var a :| 0 <= a < |Of(front, f)| && Of(front, f)[a] == samples[i];
      assert Of(samples, f) == Of(front, f) + [samples[n]];
      assert Of(samples, f)[a] == samples[i] && Of(samples, f)[|Of(front, f)|] == samples[j];
    }
  }

  /** Sorted samples of one family, each strictly after the one before: exactly when no series repeats. */
  lemma StrictlySorted(ss: seq<Sample>, f: FamilyName)
    requires Sorted(ss, LessSample) && forall s :: s in ss ==> s.family == f
    ensures NoRepeats(ss) <==> forall i :: 1 <= i < |ss| ==> LessSample(ss[i - 1], ss[i])
  {
    if forall i :: 1 <= i < |ss| ==> LessSample(ss[i - 1], ss[i]) {
      forall i, j | 0 <= i < j < |ss| ensures !SameSeries(ss[i], ss[j]) { StrictAcross(ss, i, j); }
    }
    forall i | 1 <= i < |ss| && !SameSeries(ss[i - 1], ss[i]) ensures LessSample(ss[i - 1], ss[i]) {
      LessValuesIsTotal(Values(ss[i - 1].labels), Values(ss[i].labels));
      assert ss[i - 1] in ss && ss[i] in ss;
      assert !LessSample(ss[i], ss[i - 1]);
    }
    if NoRepeats(ss) {
      forall i | 1 <= i < |ss| ensures LessSample(ss[i - 1], ss[i]) {
        assert !SameSeries(ss[i - 1], ss[i]);
      }
    }
  }

  lemma {:induction false} StrictAcross(ss: seq<Sample>, i: nat, j: nat)
    requires i < j < |ss| && forall k :: 1 <= k < |ss| ==> LessSample(ss[k - 1], ss[k])
    ensures LessSample(ss[i], ss[j]) && !SameSeries(ss[i], ss[j])
  {
    assert LessSample(ss[j - 1], ss[j]);
    if i < j - 1 {
      StrictAcross(ss, i, j - 1);
      LessValuesIsTransitive(Values(ss[i].labels), Values(ss[j - 1].labels), Values(ss[j].labels));
    }
    LessValuesIsTotal(Values(ss[i].labels), Values(ss[j].labels));
  }

  lemma PermutedRepeats(a: seq<Sample>, b: seq<Sample>)
    requires multiset(a) == multiset(b) && NoRepeats(a)
    ensures NoRepeats(b)
  {
    ApartIsKept(a, b, SameSeries);
  }

  // ---------------------------------------------------------------- the registry

  class Registry {
    var families: seq<Family>
    var index: map<FamilyName, nat>

    ghost predicate Valid()
      reads this
    {
      && (forall f :: f in index ==> index[f] < |families| && families[index[f]].name == f)
      && (forall k :: 0 <= k < |families| ==> families[k].name in index && index[families[k].name] == k)
      && (forall k :: 0 <= k < |families| ==> |families[k].labels| > 0 && families[k].labels[0] == Db)
    }

    constructor ()
      ensures Valid() && families == []
    {
      families, index := [], map[];
    }

    method Add(f: Family) returns (ok: bool)
      requires Valid()
      modifies this
      ensures Valid()
      ensures ok <==>
                f.typ in {Gauge, Counter} && f.name !in old(index) && |f.labels| > 0 && f.labels[0] == Db
      ensures families == if ok then old(families) + [f] else old(families)
    {
      if f.typ != Gauge && f.typ != Counter {
        return false;
      }
      if f.name in index || |f.labels| == 0 || f.labels[0] != Db {
        return false;
      }
      index := index[f.name := |families|];
      families := families + [f];
      return true;
    }

    /** The registry of the program's own families. */
    ghost predicate IsDefault()
      reads this
    {
      Valid() && |families| == |FAMILIES| && forall k :: 0 <= k < |families| ==>
        families[k] == FamilyOf(FAMILIES[k])
    }

    /** The sample's family is registered and the sample carries its labels. */
    ghost predicate Accepts(s: Sample)
      requires Valid()
      reads this
    {
      s.family in index && Carries(s, families[index[s.family]].labels)
    }

    method Check(s: Sample) returns (ok: bool)
      requires Valid()
      ensures ok <==> Accepts(s)
    {
      if s.family !in index {
        return false;
      }
      var fam := families[index[s.family]];
      if |s.labels| != |fam.labels| {
        return false;
      }
      for i := 0 to |s.labels|
        invariant forall j :: 0 <= j < i ==> s.labels[j].name == fam.labels[j]
      {
        if s.labels[i].name != fam.labels[i] {
          return false;
        }
      }
      return true;
    }

    /** Groups the samples by family; refuses an unregistered family and labels that differ. */
    method GroupByFamily(samples: seq<Sample>) returns (ok: bool, byFamily: map<FamilyName, seq<Sample>>)
      requires Valid()
      ensures ok <==> forall s :: s in samples ==> Accepts(s)
      ensures ok ==> Grouped(byFamily, samples)
    {
      byFamily := map[];
      for k := 0 to |samples|
        invariant Grouped(byFamily, samples[..k])
        invariant forall s :: s in samples[..k] ==> Accepts(s)
      {
        var s := samples[k];
        var accepted := Check(s);
        if !accepted {
          assert s in samples;
          return false, byFamily;
        }
        GroupedNext(byFamily, samples[..k], s);
        assert samples[..k + 1] == samples[..k] + [s];
        byFamily := byFamily[s.family := SamplesFor(byFamily, s.family) + [s]];
      }
      assert samples[..|samples|] == samples;
      ok := true;
    }

    lemma AllRegistered(f: FamilyName)
      requires IsDefault()
      ensures f in index && families[index[f]] == FamilyOf(f)
    {
      var k := FamilyIndex(f);
      assert families[k].name == f;
    }

    /** The program's own registry accepts what carries its family's labels. */
    lemma DefaultAccepts(s: Sample)
      requires IsDefault()
      ensures Accepts(s) <==> Labelled(s)
    {
      AllRegistered(s.family);
    }

    lemma NoFamilyRepeats(samples: seq<Sample>)
      requires Valid() && forall k :: 0 <= k < |families| ==> NoRepeats(Of(samples, families[k].name))
      requires forall s :: s in samples ==> Accepts(s)
      ensures NoRepeats(samples)
    {
      forall i, j | 0 <= i < j < |samples| ensures !SameSeries(samples[i], samples[j]) {
        assert samples[i] in samples && Accepts(samples[i]);
        if SameSeries(samples[i], samples[j]) { RepeatIsInFamily(samples, i, j); }
      }
    }

    /** Render: succeeds exactly when every sample is of a registered family and has its labels, and no two are of one
        series; then it writes every sample once, family by family, each family sorted. */
    method Render(samples: seq<Sample>) returns (ok: bool, out: seq<seq<Sample>>)
      requires Valid()
      ensures ok <==> NoRepeats(samples) && forall s :: s in samples ==> Accepts(s)
      ensures ok ==> |out| == |families| && forall k :: 0 <= k < |out| ==> Written(out[k], samples, families[k].name)
    {
      var byFamily;
      ok, byFamily := GroupByFamily(samples);
      out := [];
      if ok {
        ok, out := WriteFamilies(families, byFamily, samples);
        if ok {
          NoFamilyRepeats(samples);
        } else {
          RepeatRemains(families, samples);
        }
      }
    }
  }

  lemma RepeatRemains(families: seq<Family>, samples: seq<Sample>)
    requires exists k :: 0 <= k < |families| && !NoRepeats(Of(samples, families[k].name))
    ensures !NoRepeats(samples)
  {
    var k :| 0 <= k < |families| && !NoRepeats(Of(samples, families[k].name));
    OfIs(samples, families[k].name);
    OfKeepsApart(samples, families[k].name);
  }

  method WriteFamilies(families: seq<Family>, byFamily: map<FamilyName, seq<Sample>>, ghost samples: seq<Sample>)
    returns (ok: bool, out: seq<seq<Sample>>)
    requires Grouped(byFamily, samples)
    ensures ok <==> forall k :: 0 <= k < |families| ==> NoRepeats(Of(samples, families[k].name))
    ensures ok ==> |out| == |families| && forall k :: 0 <= k < |out| ==> Written(out[k], samples, families[k].name)
  {
    out := [];
    for k := 0 to |families|
      invariant |out| == k
      invariant forall j :: 0 <= j < k ==>
          NoRepeats(Of(samples, families[j].name)) && Written(out[j], samples, families[j].name)
    {
      var f := families[k].name;
      assert SamplesFor(byFamily, f) == Of(samples, f);
      var strict, ss := WriteFamily(SamplesFor(byFamily, f), samples, f);
      if !strict {
        return false, out;
      }
      out := out + [ss];
    }
    ok := true;
  }

  /** The samples of the family, sorted. */
  ghost predicate Written(ss: seq<Sample>, samples: seq<Sample>, f: FamilyName) {
    multiset(ss) == multiset(Of(samples, f)) && Sorted(ss, LessSample)
  }

  ghost predicate Grouped(byFamily: map<FamilyName, seq<Sample>>, samples: seq<Sample>) {
    forall f :: SamplesFor(byFamily, f) == Of(samples, f)
  }

  lemma GroupedNext(byFamily: map<FamilyName, seq<Sample>>, samples: seq<Sample>, s: Sample)
    requires Grouped(byFamily, samples)
    ensures Grouped(byFamily[s.family := SamplesFor(byFamily, s.family) + [s]], samples + [s])
  {
    assert (samples + [s])[..|samples + [s]| - 1] == samples;
    forall f ensures SamplesFor(byFamily[s.family := SamplesFor(byFamily, s.family) + [s]], f) == Of(samples + [s], f) {
      assert SamplesFor(byFamily, f) == Of(samples, f);
    }
  }

  /** One family's samples, sorted; `strict` unless a series repeats. */
  method WriteFamily(group: seq<Sample>, ghost samples: seq<Sample>, ghost f: FamilyName)
      returns (strict: bool, ss: seq<Sample>)
    requires group == Of(samples, f)
    ensures Written(ss, samples, f) && (strict <==> NoRepeats(group))
  {
    LessSampleIsAStrictOrder();
    ss := Sort(group, LessSample);
    OfIs(samples, f);
    OfKeepsApart(samples, f);
    SameElements(ss, group);
    strict := Ascends(ss, f);
    if strict {
      PermutedRepeats(ss, group);
    } else {
      RepeatsStay(group, ss);
    }
  }

  method Ascends(ss: seq<Sample>, ghost f: FamilyName) returns (strict: bool)
    requires Sorted(ss, LessSample) && forall s :: s in ss ==> s.family == f
    ensures strict <==> NoRepeats(ss)
  {
    StrictlySorted(ss, f);
    var i := 1;
    while i < |ss|
      invariant 1 <= i && forall j :: 1 <= j < i && j < |ss| ==> LessSample(ss[j - 1], ss[j])
    {
      if !LessSample(ss[i - 1], ss[i]) {
        return false;
      }
      i := i + 1;
    }
    return true;
  }

  lemma RepeatsStay(group: seq<Sample>, ss: seq<Sample>)
    requires multiset(group) == multiset(ss) && !NoRepeats(ss)
    ensures !NoRepeats(group)
  {
    if NoRepeats(group) {
      PermutedRepeats(group, ss);
    }
  }

  function SamplesFor(byFamily: map<FamilyName, seq<Sample>>, f: FamilyName): seq<Sample> {
    if f in byFamily then byFamily[f] else []
  }

  /** The table names every family. */
  function FamilyIndex(f: FamilyName): (k: nat)
    ensures k < |FAMILIES| && FAMILIES[k] == f
  {
    match f
    case Issues => 0
    case IssuesStored => 1
    case QueueCandidates => 2
    case QueueOldest => 3
    case ByType => 4
    case ByPriority => 5
    case ByLabel => 6
    case Oldest => 7
    case Created24h => 8
    case Closed24h => 9
    case StrandedClaims => 10
    case OldestStranded => 11
    case ExporterUp => 12
    case PassLastSuccess => 13
    case CollectErrors => 14
    case CollectDuration => 15
  }

  /** Default: the static table is accepted whole. */
  method Default() returns (r: Registry)
    ensures fresh(r) && r.IsDefault()
  {
    r := new Registry();
    for k := 0 to |FAMILIES|
      invariant r.Valid() && fresh(r) && |r.families| == k
      invariant forall j :: 0 <= j < k ==> r.families[j] == FamilyOf(FAMILIES[j])
    {
      DistinctFamilies(k);
      var ok := r.Add(FamilyOf(FAMILIES[k]));
      assert ok;
    }
  }

  lemma DistinctFamilies(k: nat)
    requires k < |FAMILIES|
    ensures forall j :: 0 <= j < k ==> FAMILIES[j] != FAMILIES[k]
    ensures |LabelsOf(FAMILIES[k])| > 0 && LabelsOf(FAMILIES[k])[0] == Db
  {
    forall j | 0 <= j < k ensures FAMILIES[j] != FAMILIES[k] {
      assert FamilyIndex(FAMILIES[j]) == j && FamilyIndex(FAMILIES[k]) == k;
    }
  }
}

/** The stranded pass: claims nobody has touched for long, and their samples. */
module Stranded {
  import opened Wrappers
  import opened SliceSort
  import opened Metrics
  import opened Analyze
  import opened Samples

  const STATUSES: seq<string> := ["open", "in_progress", "hooked"]

  datatype Claim = Claim(beadId: string, assignee: string, status: string, claimTime: Option<int>,
                         lastUpdate: Option<int>)

  predicate IsCandidate(b: Bead) {
    b.assignee != "" && b.status in STATUSES
  }

  /** Claimed, and last updated more than the age ago or never. */
  predicate IsStranded(b: Bead, now: int, maxAge: int) {
    IsCandidate(b) && (b.updatedAt.None? || b.updatedAt.value < now - maxAge)
  }

  function ClaimOf(b: Bead): Claim {
    Claim(b.id, b.assignee, b.status, b.startedAt, b.updatedAt)
  }

  function ClaimsOf(beads: seq<Bead>, now: int, maxAge: int): seq<Claim> {
    if beads == [] then []
    else
      var b := beads[|beads| - 1];
      ClaimsOf(beads[..|beads| - 1], now, maxAge) + if IsStranded(b, now, maxAge) then [ClaimOf(b)] else []
  }

  /** The claims are those of the beads that somebody holds in one of the three statuses and that nobody updated within
      the age. */
  lemma {:induction false} ClaimsAre(beads: seq<Bead>, now: int, maxAge: int, c: Claim)
    ensures c in ClaimsOf(beads, now, maxAge)
       <==> exists b :: b in beads && IsOverdue(b, now, maxAge)
                     && c == Claim(b.id, b.assignee, b.status, b.startedAt, b.updatedAt)
  {
    if beads != [] {
      var n := |beads| - 1;
      ClaimsAre(beads[..n], now, maxAge, c);
      assert forall b :: b in beads <==> b in beads[..n] || b == beads[n];
      assert IsStranded(beads[n], now, maxAge) <==> IsOverdue(beads[n], now, maxAge);
    }
  }

  predicate IsOverdue(b: Bead, now: int, maxAge: int) {
    && b.assignee != "" && (b.status == "open" || b.status == "in_progress" || b.status == "hooked")
    && (b.updatedAt.Some? ==> b.updatedAt.value + maxAge < now)
  }

  predicate LessId(a: Claim, b: Claim) {
    Less(a.beadId, b.beadId)
  }

  lemma LessIdIsAStrictOrder()
    ensures StrictOrder(LessId)
  {
    LessIsAStrictOrder();
  }

  method Classify(beads: seq<Bead>, now: int, maxAge: int) returns (claims: seq<Claim>)
    ensures multiset(claims) == multiset(ClaimsOf(beads, now, maxAge)) && Sorted(claims, LessId)
  {
    claims := [];
    for k := 0 to |beads|
      invariant claims == ClaimsOf(beads[..k], now, maxAge)
    {
      assert beads[..k + 1][..k] == beads[..k];
      var b := beads[k];
      if !IsCandidate(b) {
        continue;
      }
      if b.updatedAt.Some? && b.updatedAt.value >= now - maxAge {
        continue;
      }
      claims := claims + [ClaimOf(b)];
    }
    assert beads[..|beads|] == beads;
    LessIdIsAStrictOrder();
    claims := Sort(claims, LessId);
  }

  // ---------------------------------------------------------------- samples

  function CountStatus(claims: seq<Claim>, status: string): nat {
    if claims == [] then 0
    else CountStatus(claims[..|claims| - 1], status) + if claims[|claims| - 1].status == status then 1 else 0
  }

  lemma {:induction false} CountsAddUp(claims: seq<Claim>)
    requires forall c :: c in claims ==> c.status in STATUSES
    ensures CountStatus(claims, "open") + CountStatus(claims, "in_progress") + CountStatus(claims, "hooked") == |claims|
  {
    if claims != [] {
      var n := |claims| - 1;
      assert claims[n] in claims;
      CountsAddUp(claims[..n]);
    }
  }

  lemma {:induction false} ClaimsAreOfStatuses(beads: seq<Bead>, now: int, maxAge: int)
    ensures forall c :: c in ClaimsOf(beads, now, maxAge) ==> c.status in STATUSES
  {
    if beads != [] { ClaimsAreOfStatuses(beads[..|beads| - 1], now, maxAge); }
  }

  /** Every classified claim is in exactly one of the published counts. */
  lemma PublishedCountsAddUp(beads: seq<Bead>, now: int, maxAge: int, claims: seq<Claim>)
    requires multiset(claims) == multiset(ClaimsOf(beads, now, maxAge))
    ensures CountStatus(claims, "open") + CountStatus(claims, "in_progress") + CountStatus(claims, "hooked")
         == |ClaimsOf(beads, now, maxAge)|
  {
    ClaimsAreOfStatuses(beads, now, maxAge);
    SameElements(claims, ClaimsOf(beads, now, maxAge));
    CountsAddUp(claims);
  }

  function UpdatesOf(claims: seq<Claim>): seq<Option<int>> {
    seq(|claims|, k requires 0 <= k < |claims| => claims[k].lastUpdate)
  }

  /** The counts by status and the oldest update. */
  ghost predicate Counted(claims: seq<Claim>, counts: map<string, nat>, oldest: Option<int>) {
    && (forall st :: At(counts, st) == CountStatus(claims, st)) && IsOldest(UpdatesOf(claims), oldest)
  }

  method CountClaims(claims: seq<Claim>) returns (counts: map<string, nat>, oldest: Option<int>)
    ensures Counted(claims, counts, oldest)
  {
    counts, oldest := map[], None;
    for k := 0 to |claims|
      invariant Counted(claims[..k], counts, oldest)
    {
      var c := claims[k];
      assert claims[..k + 1][..k] == claims[..k];
      OldestNext(UpdatesOf(claims[..k]), oldest, c.lastUpdate);
      assert UpdatesOf(claims[..k + 1]) == UpdatesOf(claims[..k]) + [c.lastUpdate];
      counts := counts[c.status := At(counts, c.status) + 1];
      oldest := Earlier(oldest, c.lastUpdate);
    }
    assert claims[..|claims|] == claims;
  }

  function StatusSeries(db: string, claims: seq<Claim>, status: string): Sample {
    Series(StrandedClaims, db, StatusLabel, status, CountStatus(claims, status) as real)
  }

  function OldestSeries(db: string, t: int): Sample {
    Sample(OldestStranded, [Label(Db, db)], (t / 1_000_000_000) as real)
  }

  lemma StatusesDiffer(db: string, claims: seq<Claim>, i: nat, j: nat)
    requires i < j < |STATUSES|
    ensures !SameSeries(StatusSeries(db, claims, STATUSES[i]), StatusSeries(db, claims, STATUSES[j]))
  {
    SeriesDiffer(StrandedClaims, db, StatusLabel, STATUSES[i], StatusSeries(db, claims, STATUSES[i]).value,
                 STATUSES[j], StatusSeries(db, claims, STATUSES[j]).value);
    assert STATUSES[i][0] != STATUSES[j][0];
  }

  lemma StatusesApart(db: string, claims: seq<Claim>, out: seq<Sample>)
    requires |out| == |STATUSES| && forall j :: 0 <= j < |out| ==> out[j] == StatusSeries(db, claims, STATUSES[j])
    ensures NoRepeats(out) && Owned(out, db, DataOf(StrandedPass))
  {
    forall i, j | 0 <= i < j < |out| ensures !SameSeries(out[i], out[j]) {
      StatusesDiffer(db, claims, i, j);
    }
  }

  function OldestUpdate(claims: seq<Claim>): (t: Option<int>)
    ensures IsOldest(UpdatesOf(claims), t)
  {
    if claims == [] then None
    else
      var front, last := claims[..|claims| - 1], claims[|claims| - 1];
      OldestNext(UpdatesOf(front), OldestUpdate(front), last.lastUpdate);
      assert UpdatesOf(claims) == UpdatesOf(front) + [last.lastUpdate];
      Earlier(OldestUpdate(front), last.lastUpdate)
  }

  lemma OldestIsOne(times: seq<Option<int>>, a: Option<int>, b: Option<int>)
    requires IsOldest(times, a) && IsOldest(times, b)
    ensures a == b
  {
    if a.Some? { var k :| 0 <= k < |times| && times[k] == a; }
    if b.Some? { var k :| 0 <= k < |times| && times[k] == b; }
  }

  /** All series of the stranded pass. */
  ghost function ClaimSeries(db: string, claims: seq<Claim>): multiset<Sample> {
    multiset{StatusSeries(db, claims, "open"), StatusSeries(db, claims, "in_progress"),
             StatusSeries(db, claims, "hooked")}
    + if OldestUpdate(claims).Some? then multiset{OldestSeries(db, OldestUpdate(claims).value)} else multiset{}
  }

  /** A count for each status, that of none included. */
  ghost predicate IsStatusSample(s: Sample, db: string, claims: seq<Claim>) {
    exists st :: st in STATUSES && s == Sample(StrandedClaims, [Label(Db, db), Label(StatusLabel, st)],
                                               |PlacesOf(claims, st)| as real)
  }

  /** The oldest update, in seconds, if any claim has one. */
  ghost predicate IsOldestSample(s: Sample, db: string, claims: seq<Claim>) {
    exists k :: 0 <= k < |claims| && IsFirstUpdate(claims, claims[k].lastUpdate)
      && s == Sample(OldestStranded, [Label(Db, db)], (claims[k].lastUpdate.value / 1_000_000_000) as real)
  }

  predicate IsFirstUpdate(claims: seq<Claim>, t: Option<int>) {
    t.Some? && forall j :: 0 <= j < |claims| && claims[j].lastUpdate.Some? ==> t.value <= claims[j].lastUpdate.value
  }

  function PlacesOf(claims: seq<Claim>, st: string): set<int> {
    set k | 0 <= k < |claims| && claims[k].status == st
  }

  lemma PlacesNext(claims: seq<Claim>, st: string)
    requires claims != []
    ensures var n := |claims| - 1;
            PlacesOf(claims, st) == PlacesOf(claims[..n], st) + if claims[n].status == st then {n} else {}
  {
  }

  lemma {:induction false} CountStatusIs(claims: seq<Claim>, st: string)
    ensures CountStatus(claims, st) == |PlacesOf(claims, st)|
  {
    if claims != [] {
      CountStatusIs(claims[..|claims| - 1], st);
      PlacesNext(claims, st);
    }
  }

  lemma StatusSeriesIs(db: string, claims: seq<Claim>, st: string)
    ensures StatusSeries(db, claims, st) == Sample(StrandedClaims, [Label(Db, db), Label(StatusLabel, st)],
        |PlacesOf(claims, st)| as real)
  {
    CountStatusIs(claims, st);
  }

  lemma StatusSamplesAre(s: Sample, db: string, claims: seq<Claim>)
    ensures IsStatusSample(s, db, claims) <==> exists st :: st in STATUSES && s == StatusSeries(db, claims, st)
  {
    forall st ensures StatusSeries(db, claims, st) == Sample(StrandedClaims, [Label(Db, db), Label(StatusLabel, st)],
        |PlacesOf(claims, st)| as real) {
      StatusSeriesIs(db, claims, st);
    }
  }

  lemma FirstUpdateIs(claims: seq<Claim>, k: nat)
    requires k < |claims|
    ensures IsFirstUpdate(claims, claims[k].lastUpdate)
       <==> claims[k].lastUpdate.Some? && claims[k].lastUpdate == OldestUpdate(claims)
  {
    var ts, t := UpdatesOf(claims), OldestUpdate(claims);
    assert ts[k] == claims[k].lastUpdate;
    if IsFirstUpdate(claims, ts[k]) { OldestIsOne(ts, ts[k], t); }
    if ts[k].Some? && ts[k] == t {
      forall j | 0 <= j < |claims| && claims[j].lastUpdate.Some? ensures t.value <= claims[j].lastUpdate.value {
        assert ts[j] == claims[j].lastUpdate;
      }
    }
  }

  lemma OldestSampleIs(s: Sample, db: string, claims: seq<Claim>)
    ensures IsOldestSample(s, db, claims)
       <==> OldestUpdate(claims).Some? && s == OldestSeries(db, OldestUpdate(claims).value)
  {
    forall k: nat | k < |claims|
      ensures IsFirstUpdate(claims, claims[k].lastUpdate)
         <==> claims[k].lastUpdate.Some? && claims[k].lastUpdate == OldestUpdate(claims) {
      FirstUpdateIs(claims, k);
    }
    var ts, t := UpdatesOf(claims), OldestUpdate(claims);
    if t.Some? {
      var k :| 0 <= k < |ts| && ts[k] == t;
      assert claims[k].lastUpdate == t;
    }
  }

  /** The series of the stranded pass are the counts and the oldest update, and no others. */
  lemma InClaimSeries(s: Sample, db: string, claims: seq<Claim>)
    ensures s in ClaimSeries(db, claims) <==> IsStatusSample(s, db, claims) || IsOldestSample(s, db, claims)
  {
    StatusSamplesAre(s, db, claims);
    OldestSampleIs(s, db, claims);
  }

  method StrandedSamples(claims: seq<Claim>, db: string) returns (out: seq<Sample>, ghost oldest: Option<int>)
    ensures IsOldest(UpdatesOf(claims), oldest)
    ensures out == [StatusSeries(db, claims, "open"), StatusSeries(db, claims, "in_progress"),
        StatusSeries(db, claims, "hooked")]
                   + if oldest.Some? then [OldestSeries(db, oldest.value)] else []
    ensures NoRepeats(out) && Owned(out, db, DataOf(StrandedPass)) && multiset(out) == ClaimSeries(db, claims)
  {
    var counts, first := CountClaims(claims);
    oldest := first;
    OldestIsOne(UpdatesOf(claims), first, OldestUpdate(claims));
    out := [];
    for k := 0 to |STATUSES|
      invariant |out| == k && forall j :: 0 <= j < k ==> out[j] == StatusSeries(db, claims, STATUSES[j])
    {
      out := out + [Series(StrandedClaims, db, StatusLabel, STATUSES[k], At(counts, STATUSES[k]) as real)];
    }
    assert out == [StatusSeries(db, claims, "open"), StatusSeries(db, claims, "in_progress"),
      StatusSeries(db, claims, "hooked")];
    StatusesApart(db, claims, out);
    if first.Some? {
      AddApart(out, OldestSeries(db, first.value));
      out := out + [OldestSeries(db, first.value)];
    }
  }
}

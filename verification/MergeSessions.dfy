/** mergeSessions: file summaries grouped into sessions by union-find over the first file seen with each id and
    each event uuid, one record per group, filtered and ordered. */
module MergeSessions {
  import opened Wrappers
  import opened SessionTypes
  import opened MergeSession
  import opened SliceSort
  import opened UnionFind

  // ---------------------------------------------------------------- what belongs together

  /** Two files of one session: the same canonical id, or a common event uuid. */
  predicate Linked(a: FileSummary, b: FileSummary) {
    a.id == b.id || exists h :: h in a.uuids && h in b.uuids
  }

  /** A walk from `a` to `b` inside `files`, each step between linked files. */
  predicate IsPath(files: set<FileSummary>, p: seq<FileSummary>, a: FileSummary, b: FileSummary) {
    && p != [] && p[0] == a && p[|p| - 1] == b
    && (forall k :: 0 <= k < |p| ==> p[k] in files)
    && (forall k :: 0 <= k < |p| - 1 ==> Linked(p[k], p[k + 1]))
  }

  ghost predicate Connected(files: set<FileSummary>, a: FileSummary, b: FileSummary) {
    exists p :: IsPath(files, p, a, b)
  }

  /** The session of `x`: its connected component. */
  ghost function Component(files: set<FileSummary>, x: FileSummary): set<FileSummary> {
    set y | y in files && Connected(files, x, y)
  }

  lemma LinkConnects(files: set<FileSummary>, a: FileSummary, b: FileSummary)
    requires a in files && b in files && Linked(a, b)
    ensures Connected(files, a, b)
  {
    assert IsPath(files, [a, b], a, b);
  }

  lemma ConnectedIsTransitive(files: set<FileSummary>, a: FileSummary, b: FileSummary, c: FileSummary)
    requires Connected(files, a, b) && Connected(files, b, c)
    ensures Connected(files, a, c)
  {
    var p :| IsPath(files, p, a, b);
    var q :| IsPath(files, q, b, c);
    var r := p + q[1..];
    forall k | 0 <= k < |r| - 1 ensures Linked(r[k], r[k + 1]) {
      if k >= |p| - 1 {
        assert r[k] == q[k - |p| + 1] && r[k + 1] == q[k - |p| + 2];
      }
    }
    assert IsPath(files, r, a, c);
  }

  lemma ConnectedIsSymmetric(files: set<FileSummary>, a: FileSummary, b: FileSummary)
    requires Connected(files, a, b)
    ensures Connected(files, b, a)
  {
    var p :| IsPath(files, p, a, b);
    var r := seq(|p|, k requires 0 <= k < |p| => p[|p| - 1 - k]);
    forall k | 0 <= k < |r| - 1 ensures Linked(r[k], r[k + 1]) {
      assert Linked(p[|p| - 2 - k], p[|p| - 2 - k + 1]);
    }
    assert IsPath(files, r, b, a);
  }

  lemma SameComponent(files: set<FileSummary>, a: FileSummary, b: FileSummary)
    requires Connected(files, a, b)
    ensures Component(files, a) == Component(files, b)
  {
    ConnectedIsSymmetric(files, a, b);
    forall y | Connected(files, a, y) ensures Connected(files, b, y) { ConnectedIsTransitive(files, b, a, y); }
    forall y | Connected(files, b, y) ensures Connected(files, a, y) { ConnectedIsTransitive(files, a, b, y); }
  }

  // ---------------------------------------------------------------- the union loop

  function Files(sums: seq<FileSummary>): set<FileSummary> {
    set s | s in sums
  }

  /** Files with one root are of one session. */
  ghost predicate OnlyConnected(sums: seq<FileSummary>, rep: seq<nat>)
    requires |rep| == |sums|
  {
    forall a, b :: 0 <= a < |sums| && 0 <= b < |sums| && rep[a] == rep[b] ==> Connected(Files(sums), sums[a], sums[b])
  }

  /** The first `n` files have the root of the first file seen with their id. */
  predicate IdsJoined(sums: seq<FileSummary>, n: nat, byId: map<string, nat>, rep: seq<nat>)
    requires |rep| == |sums| && n <= |sums|
  {
    && (forall s :: s in byId ==> byId[s] < n && sums[byId[s]].id == s)
    && (forall k :: 0 <= k < n ==> sums[k].id in byId && rep[byId[sums[k].id]] == rep[k])
  }

  function UuidsOf(sums: seq<FileSummary>, i: nat): nat {
    if i < |sums| then |sums[i].uuids| else 0
  }

  /** Uuid `j` of file `k` is among those of the first `i` files and the first `m` of file `i`. */
  predicate UuidDue(sums: seq<FileSummary>, i: nat, m: nat, k: nat, j: nat) {
    k < |sums| && j < |sums[k].uuids| && (k < i || (k == i && j < m))
  }

  /** File `k` has the root of the first file seen with its uuid `j`. */
  predicate UuidJoined(sums: seq<FileSummary>, k: nat, j: nat, byUuid: map<Hash, nat>, rep: seq<nat>)
    requires |rep| == |sums| && k < |sums| && j < |sums[k].uuids|
  {
    var h := sums[k].uuids[j];
    h in byUuid && byUuid[h] < |sums| && rep[byUuid[h]] == rep[k]
  }

  /** The first `i` files, and file `i` for its first `m` uuids, have the root of the first file seen with each uuid. */
  ghost predicate UuidsJoined(sums: seq<FileSummary>, i: nat, m: nat, byUuid: map<Hash, nat>, rep: seq<nat>)
    requires |rep| == |sums| && i <= |sums| && m <= UuidsOf(sums, i)
  {
    && (forall h :: h in byUuid ==> byUuid[h] < |sums| && h in sums[byUuid[h]].uuids)
    && (forall k: nat, j: nat :: UuidDue(sums, i, m, k, j) ==> UuidJoined(sums, k, j, byUuid, rep))
  }

  lemma JoiningLinked(sums: seq<FileSummary>, rep: seq<nat>, a: nat, b: nat)
    requires |rep| == |sums| && a < |sums| && b < |sums| && Linked(sums[a], sums[b]) && OnlyConnected(sums, rep)
    ensures OnlyConnected(sums, Absorb(rep, rep[a], rep[b]))
  {
    var files, after := Files(sums), Absorb(rep, rep[a], rep[b]);
    LinkConnects(files, sums[a], sums[b]);
    ConnectedIsSymmetric(files, sums[a], sums[b]);
    forall x, y | 0 <= x < |sums| && 0 <= y < |sums| && after[x] == after[y]
      ensures Connected(files, sums[x], sums[y]) {
      if rep[x] != rep[y] {
        if rep[x] == rep[a] {
          ConnectedIsTransitive(files, sums[x], sums[a], sums[b]);
          ConnectedIsTransitive(files, sums[x], sums[b], sums[y]);
        } else {
          ConnectedIsTransitive(files, sums[x], sums[b], sums[a]);
          ConnectedIsTransitive(files, sums[x], sums[a], sums[y]);
        }
      }
    }
  }

  lemma SelfConnected(sums: seq<FileSummary>)
    ensures OnlyConnected(sums, seq(|sums|, i => i))
  {
    forall a | 0 <= a < |sums| ensures Connected(Files(sums), sums[a], sums[a]) {
      LinkConnects(Files(sums), sums[a], sums[a]);
    }
  }

  /** What the union loop keeps: `m` uuids of file `i` and everything of the files before it is joined. */
  ghost predicate Joining(sums: seq<FileSummary>, n: nat, i: nat, m: nat, byId: map<string, nat>,
                          byUuid: map<Hash, nat>, rep: seq<nat>)
    requires |rep| == |sums| && n <= |sums| && i <= |sums| && m <= UuidsOf(sums, i)
  {
    OnlyConnected(sums, rep) && IdsJoined(sums, n, byId, rep) && UuidsJoined(sums, i, m, byUuid, rep)
  }

  lemma JoiningUnion(sums: seq<FileSummary>, n: nat, i: nat, m: nat, byId: map<string, nat>, byUuid: map<Hash, nat>,
                     rep: seq<nat>, a: nat, b: nat)
    requires |rep| == |sums| && n <= |sums| && i <= |sums| && m <= UuidsOf(sums, i)
    requires Joining(sums, n, i, m, byId, byUuid, rep) && a < |sums| && b < |sums| && Linked(sums[a], sums[b])
    ensures Joining(sums, n, i, m, byId, byUuid, Absorb(rep, rep[a], rep[b]))
  {
    JoiningLinked(sums, rep, a, b);
    AbsorbKeepsIds(sums, n, byId, rep, rep[a], rep[b]);
    AbsorbKeepsUuids(sums, i, m, byUuid, rep, rep[a], rep[b]);
  }

  lemma AbsorbKeepsIds(sums: seq<FileSummary>, n: nat, byId: map<string, nat>, rep: seq<nat>, x: nat, y: nat)
    requires |rep| == |sums| && n <= |sums| && IdsJoined(sums, n, byId, rep)
    ensures IdsJoined(sums, n, byId, Absorb(rep, x, y))
  {
  }

  lemma AbsorbKeepsUuids(sums: seq<FileSummary>, i: nat, m: nat, byUuid: map<Hash, nat>, rep: seq<nat>, x: nat, y: nat)
    requires |rep| == |sums| && i <= |sums| && m <= UuidsOf(sums, i) && UuidsJoined(sums, i, m, byUuid, rep)
    ensures UuidsJoined(sums, i, m, byUuid, Absorb(rep, x, y))
  {
    var after := Absorb(rep, x, y);
    forall k: nat, j: nat | UuidDue(sums, i, m, k, j) ensures UuidJoined(sums, k, j, byUuid, after) {
      assert UuidJoined(sums, k, j, byUuid, rep);
    }
  }

  lemma IdsStep(sums: seq<FileSummary>, i: nat, before: map<string, nat>, after: map<string, nat>, rep: seq<nat>)
    requires |rep| == |sums| && i < |sums| && IdsJoined(sums, i, before, rep)
    requires var id := sums[i].id;
             (after == before && id in before && rep[before[id]] == rep[i])
               || (id !in before && after == before[id := i])
    ensures IdsJoined(sums, i + 1, after, rep)
  {
  }

  lemma UuidsStep(sums: seq<FileSummary>, i: nat, m: nat, before: map<Hash, nat>, after: map<Hash, nat>, rep: seq<nat>)
    requires |rep| == |sums| && i < |sums| && m < |sums[i].uuids| && UuidsJoined(sums, i, m, before, rep)
    requires var h := sums[i].uuids[m];
             (after == before && h in before && rep[before[h]] == rep[i]) || (h !in before && after == before[h := i])
    ensures UuidsJoined(sums, i, m + 1, after, rep)
  {
    forall k: nat, j: nat | UuidDue(sums, i, m + 1, k, j) ensures UuidJoined(sums, k, j, after, rep) {
      if k < i || j < m { assert UuidJoined(sums, k, j, before, rep); }
    }
  }

  lemma UuidsNextFile(sums: seq<FileSummary>, i: nat, byUuid: map<Hash, nat>, rep: seq<nat>)
    requires |rep| == |sums| && i < |sums| && UuidsJoined(sums, i, |sums[i].uuids|, byUuid, rep)
    ensures UuidsJoined(sums, i + 1, 0, byUuid, rep)
  {
    forall k: nat, j: nat | UuidDue(sums, i + 1, 0, k, j) ensures UuidJoined(sums, k, j, byUuid, rep) {
      assert UuidDue(sums, i, |sums[i].uuids|, k, j);
    }
  }

  method JoinUuids(sums: seq<FileSummary>, i: nat, f: Forest, ghost byId: map<string, nat>, byUuid0: map<Hash, nat>)
    returns (byUuid: map<Hash, nat>)
    requires i < |sums| && f.Valid() && |f.rep| == f.parent.Length == |sums|
    requires Joining(sums, i + 1, i, 0, byId, byUuid0, f.rep)
    modifies f, f.parent
    ensures f.Valid() && |f.rep| == |sums|
    ensures Joining(sums, i + 1, i + 1, 0, byId, byUuid, f.rep)
  {
    byUuid := byUuid0;
    var uuids := sums[i].uuids;
    for m := 0 to |uuids|
      invariant f.Valid() && |f.rep| == |sums|
      invariant Joining(sums, i + 1, i, m, byId, byUuid, f.rep)
    {
      ghost var before := byUuid;
      var h := uuids[m];
      if h in byUuid {
        JoiningUnion(sums, i + 1, i, m, byId, byUuid, f.rep, i, byUuid[h]);
        f.Union(i, byUuid[h]);
      } else {
        byUuid := byUuid[h := i];
      }
      UuidsStep(sums, i, m, before, byUuid, f.rep);
    }
    UuidsNextFile(sums, i, byUuid, f.rep);
  }

  method JoinId(sums: seq<FileSummary>, i: nat, f: Forest, byId0: map<string, nat>, ghost byUuid: map<Hash, nat>)
    returns (byId: map<string, nat>)
    requires i < |sums| && f.Valid() && |f.rep| == f.parent.Length == |sums|
    requires Joining(sums, i, i, 0, byId0, byUuid, f.rep)
    modifies f, f.parent
    ensures f.Valid() && |f.rep| == |sums|
    ensures Joining(sums, i + 1, i, 0, byId, byUuid, f.rep)
  {
    byId := byId0;
    var id := sums[i].id;
    if id in byId {
      JoiningUnion(sums, i, i, 0, byId, byUuid, f.rep, i, byId[id]);
      f.Union(i, byId[id]);
    } else {
      byId := byId[id := i];
    }
    IdsStep(sums, i, byId0, byId, f.rep);
  }

  /** The union loop: afterwards two files have one root exactly when they are connected. */
  method Join(sums: seq<FileSummary>) returns (f: Forest)
    ensures fresh(f) && fresh(f.parent) && f.Valid() && |f.rep| == f.parent.Length == |sums|
    ensures RootsAreComponents(sums, f.rep)
  {
    f := new Forest(|sums|);
    SelfConnected(sums);
    var byId: map<string, nat>, byUuid: map<Hash, nat> := map[], map[];
    for i := 0 to |sums|
      invariant f.Valid() && fresh(f) && fresh(f.parent) && |f.rep| == f.parent.Length == |sums|
      invariant Joining(sums, i, i, 0, byId, byUuid, f.rep)
    {
      byId := JoinId(sums, i, f, byId, byUuid);
      byUuid := JoinUuids(sums, i, f, byId, byUuid);
    }
    RootsAre(sums, byId, byUuid, f.rep);
  }

  ghost predicate RootsAreComponents(sums: seq<FileSummary>, rep: seq<nat>)
    requires |rep| == |sums|
  {
    forall a, b :: 0 <= a < |sums| && 0 <= b < |sums| ==>
      (rep[a] == rep[b] <==> Connected(Files(sums), sums[a], sums[b]))
  }

  lemma RootsAre(sums: seq<FileSummary>, byId: map<string, nat>, byUuid: map<Hash, nat>, rep: seq<nat>)
    requires |rep| == |sums| && Joining(sums, |sums|, |sums|, 0, byId, byUuid, rep)
    ensures RootsAreComponents(sums, rep)
  {
    forall a, b | 0 <= a < |sums| && 0 <= b < |sums| && Connected(Files(sums), sums[a], sums[b])
      ensures rep[a] == rep[b]
    {
      ConnectedHaveOneRoot(sums, byId, byUuid, rep, a, b);
    }
  }

  lemma LinkedHaveOneRoot(sums: seq<FileSummary>, byId: map<string, nat>, byUuid: map<Hash, nat>, rep: seq<nat>,
                          a: nat, b: nat)
    requires |rep| == |sums| && IdsJoined(sums, |sums|, byId, rep) && UuidsJoined(sums, |sums|, 0, byUuid, rep)
    requires a < |sums| && b < |sums| && Linked(sums[a], sums[b])
    ensures rep[a] == rep[b]
  {
    if sums[a].id != sums[b].id {
      var h :| h in sums[a].uuids && h in sums[b].uuids;
      var j :| 0 <= j < |sums[a].uuids| && sums[a].uuids[j] == h;
      var k :| 0 <= k < |sums[b].uuids| && sums[b].uuids[k] == h;
      assert UuidDue(sums, |sums|, 0, a, j) && UuidDue(sums, |sums|, 0, b, k);
    }
  }

  /** Along a walk the root never changes, although only first-seen files were united. */
  lemma {:induction false} WalkKeepsRoot(sums: seq<FileSummary>, byId: map<string, nat>, byUuid: map<Hash, nat>,
                                         rep: seq<nat>,
                                         p: seq<FileSummary>, a: nat, b: nat)
    requires |rep| == |sums| && IdsJoined(sums, |sums|, byId, rep) && UuidsJoined(sums, |sums|, 0, byUuid, rep)
    requires a < |sums| && b < |sums| && IsPath(Files(sums), p, sums[a], sums[b])
    ensures rep[a] == rep[b]
    decreases |p|
  {
    if |p| == 1 {
      LinkedHaveOneRoot(sums, byId, byUuid, rep, a, b);
    } else {
      assert p[1] in Files(sums);
      var c :| 0 <= c < |sums| && sums[c] == p[1];
      LinkedHaveOneRoot(sums, byId, byUuid, rep, a, c);
      assert IsPath(Files(sums), p[1..], sums[c], sums[b]);
      WalkKeepsRoot(sums, byId, byUuid, rep, p[1..], c, b);
    }
  }

  lemma ConnectedHaveOneRoot(sums: seq<FileSummary>, byId: map<string, nat>, byUuid: map<Hash, nat>, rep: seq<nat>,
                             a: nat, b: nat)
    requires |rep| == |sums| && IdsJoined(sums, |sums|, byId, rep) && UuidsJoined(sums, |sums|, 0, byUuid, rep)
    requires a < |sums| && b < |sums| && Connected(Files(sums), sums[a], sums[b])
    ensures rep[a] == rep[b]
  {
    var p :| IsPath(Files(sums), p, sums[a], sums[b]);
    WalkKeepsRoot(sums, byId, byUuid, rep, p, a, b);
  }

  // ---------------------------------------------------------------- one record per component

  ghost predicate DistinctPaths(files: set<FileSummary>) {
    forall x, y :: x in files && y in files && x.path == y.path ==> x == y
  }

  /** The members of a session in the order of their sort. */
  ghost function Canon(c: set<FileSummary>): seq<FileSummary> {
    if c == {} then []
    else
      var x :| x in c;
      Insert(x, Canon(c - {x}), MemberLess)
  }

  lemma {:induction false} CanonIsSorted(c: set<FileSummary>)
    ensures Sorted(Canon(c), MemberLess) && multiset(Canon(c)) == multiset(c)
    ensures c != {} ==> Canon(c) != []
  {
    if c != {} {
      var x :| x in c && Canon(c) == Insert(x, Canon(c - {x}), MemberLess);
      CanonIsSorted(c - {x});
      MemberLessIsAStrictOrder();
      InsertKeepsSorted(x, Canon(c - {x}), MemberLess);
      assert multiset(c) == multiset(c - {x}) + multiset{x};
    }
  }

  lemma SortedMembers(c: set<FileSummary>, ms: seq<FileSummary>)
    requires DistinctPaths(c) && Sorted(ms, MemberLess) && multiset(ms) == multiset(c)
    ensures ms == Canon(c)
  {
    CanonIsSorted(c);
    forall x, y | x in ms && y in ms && x != y ensures MemberLess(x, y) || MemberLess(y, x) {
      assert x in multiset(ms) && y in multiset(ms);
      MembersAreOrdered(x, y);
    }
    SortedIsUnique(ms, Canon(c), MemberLess);
  }

  /** The record of a session, whatever order its files are met in. */
  ghost function RecordOf(c: set<FileSummary>): SessionRecord
    requires c != {}
  {
    CanonIsSorted(c);
    RecordOfSeq(Canon(c))
  }

  lemma RecordIdIsAFilesId(c: set<FileSummary>)
    requires c != {}
    ensures exists x :: x in c && x.id == RecordOf(c).sessionId
  {
    CanonIsSorted(c);
    var x := Canon(c)[0];
    assert x in multiset(Canon(c));
    assert x in c;
  }

  /** No two sessions share a session id. */
  lemma SessionIdsDiffer(files: set<FileSummary>, a: FileSummary, b: FileSummary)
    requires a in files && b in files
    requires a in Component(files, a) && b in Component(files, b)
    requires RecordOf(Component(files, a)).sessionId == RecordOf(Component(files, b)).sessionId
    ensures Component(files, a) == Component(files, b)
  {
    RecordIdIsAFilesId(Component(files, a));
    RecordIdIsAFilesId(Component(files, b));
    var x :| x in Component(files, a) && x.id == RecordOf(Component(files, a)).sessionId;
    var y :| y in Component(files, b) && y.id == RecordOf(Component(files, b)).sessionId;
    LinkConnects(files, x, y);
    SameComponent(files, a, x);
    SameComponent(files, x, y);
    SameComponent(files, b, y);
  }

  lemma InOwnComponent(files: set<FileSummary>, x: FileSummary)
    requires x in files
    ensures x in Component(files, x)
  {
    LinkConnects(files, x, x);
  }

  // ---------------------------------------------------------------- the result

  predicate RecordLess(a: SessionRecord, b: SessionRecord) {
    if a.startedAt != b.startedAt then a.startedAt < b.startedAt else Less(a.sessionId, b.sessionId)
  }

  lemma RecordLessIsAStrictOrder()
    ensures StrictOrder(RecordLess)
  {
    LessIsAStrictOrder();
  }

  /** Started in [since, before), either bound absent for a zero time. */
  predicate InRange(r: SessionRecord, since: Option<Time>, before: Option<Time>) {
    (since.None? || since.value <= r.startedAt) && (before.None? || r.startedAt < before.value)
  }

  /** `r` is the record of the session of some file, and in range. */
  ghost predicate Reported(files: set<FileSummary>, since: Option<Time>, before: Option<Time>, r: SessionRecord) {
    InRange(r, since, before) && exists x :: x in files && IsRecordOf(files, x, r)
  }

  ghost predicate IsRecordOf(files: set<FileSummary>, x: FileSummary, r: SessionRecord)
    requires x in files
  {
    InOwnComponent(files, x);
    r == RecordOf(Component(files, x))
  }

  /** The records of exactly the sessions in range, strictly ascending by start and session id. */
  ghost predicate IsRollup(files: set<FileSummary>, since: Option<Time>, before: Option<Time>,
                           out: seq<SessionRecord>) {
    && (forall r :: r in out <==> Reported(files, since, before, r))
    && (forall i, j :: 0 <= i < j < |out| ==> RecordLess(out[i], out[j]))
  }

  /** A session starts when its first file does. */
  lemma StartIsLeast(c: set<FileSummary>)
    requires c != {}
    ensures forall x :: x in c ==> RecordOf(c).startedAt <= x.first
    ensures exists x :: x in c && RecordOf(c).startedAt == x.first
  {
    CanonIsSorted(c);
    var ms := Canon(c);
    assert ms[0] in multiset(ms) && ms[0] in c;
    forall x | x in c ensures ms[0].first <= x.first {
      assert x in multiset(ms);
      HeadIsLeast(ms, x, MemberLess);
    }
  }

  /** Reported are the sessions whose start is not before the one bound and before the other, and no others, the
      earlier first and of two that start together the one whose id comes first. */
  ghost predicate ByStart(files: set<FileSummary>, since: Option<Time>, before: Option<Time>, out: seq<SessionRecord>) {
    && (forall r :: r in out && since.Some? ==> since.value <= r.startedAt)
    && (forall r :: r in out && before.Some? ==> r.startedAt < before.value)
    && (forall x, r :: (x in files && IsRecordOf(files, x, r) && (since.Some? ==> since.value <= r.startedAt)
                        && (before.Some? ==> r.startedAt < before.value)) ==> r in out)
    && forall i, j :: 0 <= i < j < |out| ==>
         (|| out[i].startedAt < out[j].startedAt
          || (out[i].startedAt == out[j].startedAt && exists k: nat ::
             ComesFirst(out[i].sessionId, out[j].sessionId, k)))
  }

  lemma RollupIsByStart(files: set<FileSummary>, since: Option<Time>, before: Option<Time>, out: seq<SessionRecord>)
    requires IsRollup(files, since, before, out)
    ensures ByStart(files, since, before, out)
  {
    forall i, j | 0 <= i < j < |out| && out[i].startedAt >= out[j].startedAt
      ensures out[i].startedAt == out[j].startedAt && exists k: nat :: ComesFirst(out[i].sessionId, out[j].sessionId, k)
    {
      assert RecordLess(out[i], out[j]);
      LessIs(out[i].sessionId, out[j].sessionId);
    }
    forall x, r | x in files && IsRecordOf(files, x, r) && (since.Some? ==> since.value <= r.startedAt)
                  && (before.Some? ==> r.startedAt < before.value)
      ensures r in out
    {
      assert Reported(files, since, before, r);
    }
  }

  lemma {:induction false} AscendingIsUnique(a: seq<SessionRecord>, b: seq<SessionRecord>)
    requires forall i, j :: 0 <= i < j < |a| ==> RecordLess(a[i], a[j])
    requires forall i, j :: 0 <= i < j < |b| ==> RecordLess(b[i], b[j])
    requires forall r :: r in a <==> r in b
    ensures a == b
  {
    RecordLessIsAStrictOrder();
    if a == [] {
      FirstIsIn(b);
    } else {
      assert a[0] in a && a[0] in b && b[0] in b && b[0] in a;
      assert a[0] == b[0];
      assert a == [a[0]] + a[1..] && b == [b[0]] + b[1..];
      assert a[0] !in a[1..] && b[0] !in b[1..];
      forall r ensures r in a[1..] <==> r in b[1..] {
        assert r in a <==> r == a[0] || r in a[1..];
        assert r in b <==> r == b[0] || r in b[1..];
      }
      AscendingIsUnique(a[1..], b[1..]);
    }
  }

  /** The same files give the same records in the same order, whatever the order the files, the groups and the
      equal elements of the sorts came in. */
  lemma RollupIsUnique(files: set<FileSummary>, since: Option<Time>, before: Option<Time>, a: seq<SessionRecord>,
                       b: seq<SessionRecord>)
    requires IsRollup(files, since, before, a) && IsRollup(files, since, before, b)
    ensures a == b
  {
    AscendingIsUnique(a, b);
  }

  // ---------------------------------------------------------------- grouping

  /** The files of the first `n` whose root is `r`, in file order. */
  function Members(sums: seq<FileSummary>, rep: seq<nat>, n: nat, r: nat): seq<FileSummary>
    requires |rep| == |sums| && n <= |sums|
  {
    if n == 0 then []
    else Members(sums, rep, n - 1, r) + if rep[n - 1] == r then [sums[n - 1]] else []
  }

  function MemberSet(sums: seq<FileSummary>, rep: seq<nat>, n: nat, r: nat): set<FileSummary>
    requires |rep| == |sums| && n <= |sums|
  {
    if n == 0 then {}
    else MemberSet(sums, rep, n - 1, r) + if rep[n - 1] == r then {sums[n - 1]} else {}
  }

  lemma {:induction false} InMemberSet(sums: seq<FileSummary>, rep: seq<nat>, n: nat, r: nat, x: FileSummary)
    requires |rep| == |sums| && n <= |sums|
    ensures x in MemberSet(sums, rep, n, r) <==> exists k :: 0 <= k < n && rep[k] == r && sums[k] == x
  {
    if n > 0 { InMemberSet(sums, rep, n - 1, r, x); }
  }

  ghost predicate NoSharedPath(sums: seq<FileSummary>) {
    forall i, j :: 0 <= i < j < |sums| ==> sums[i].path != sums[j].path
  }

  lemma {:induction false} MembersAre(sums: seq<FileSummary>, rep: seq<nat>, n: nat, r: nat)
    requires |rep| == |sums| && n <= |sums| && NoSharedPath(sums)
    ensures multiset(Members(sums, rep, n, r)) == multiset(MemberSet(sums, rep, n, r))
  {
    if n > 0 {
      MembersAre(sums, rep, n - 1, r);
      NotYetMember(sums, rep, n - 1, r);
      OneMore(Members(sums, rep, n - 1, r), MemberSet(sums, rep, n - 1, r), sums[n - 1], rep[n - 1] == r);
    }
  }

  lemma NotYetMember(sums: seq<FileSummary>, rep: seq<nat>, n: nat, r: nat)
    requires |rep| == |sums| && n < |sums| && NoSharedPath(sums)
    ensures sums[n] !in MemberSet(sums, rep, n, r)
  {
    InMemberSet(sums, rep, n, r, sums[n]);
    assert forall k :: 0 <= k < n ==> sums[k].path != sums[n].path;
  }

  lemma OneMore<T>(s: seq<T>, c: set<T>, x: T, more: bool)
    requires multiset(s) == multiset(c) && x !in c
    ensures multiset(s + if more then [x] else []) == multiset(c + if more then {x} else {})
  {
    if more {
      assert multiset(c + {x}) == multiset(c) + multiset{x};
    } else {
      assert s + [] == s && c + {} == c;
    }
  }

  lemma ClassIsComponent(sums: seq<FileSummary>, rep: seq<nat>, k: nat)
    requires |rep| == |sums| && k < |sums| && NoSharedPath(sums) && RootsAreComponents(sums, rep)
    ensures MemberSet(sums, rep, |sums|, rep[k]) == Component(Files(sums), sums[k])
  {
    var files, c := Files(sums), MemberSet(sums, rep, |sums|, rep[k]);
    forall y | y in Component(files, sums[k]) ensures y in c {
      InMemberSet(sums, rep, |sums|, rep[k], y);
      var j :| 0 <= j < |sums| && sums[j] == y;
      assert rep[k] == rep[j];
    }
    forall y | y in c ensures y in Component(files, sums[k]) {
      InMemberSet(sums, rep, |sums|, rep[k], y);
      var j :| 0 <= j < |sums| && rep[j] == rep[k] && sums[j] == y;
      assert Connected(files, sums[k], sums[j]);
    }
  }

  function Roots(rep: seq<nat>, n: nat): set<nat>
    requires n <= |rep|
  {
    if n == 0 then {} else Roots(rep, n - 1) + {rep[n - 1]}
  }

  lemma {:induction false} InRoots(rep: seq<nat>, n: nat, r: nat)
    requires n <= |rep|
    ensures r in Roots(rep, n) <==> exists k :: 0 <= k < n && rep[k] == r
  {
    if n > 0 { InRoots(rep, n - 1, r); }
  }

  lemma {:induction false} OnlyRootsHaveMembers(sums: seq<FileSummary>, rep: seq<nat>, n: nat, r: nat)
    requires |rep| == |sums| && n <= |sums|
    ensures Members(sums, rep, n, r) == [] <==> r !in Roots(rep, n)
  {
    if n > 0 { OnlyRootsHaveMembers(sums, rep, n - 1, r); }
  }

  /** Every file has its place in the group of its root. */
  ghost predicate Grouped(sums: seq<FileSummary>, rep: seq<nat>, n: nat, groups: map<nat, seq<FileSummary>>)
    requires |rep| == |sums| && n <= |sums|
  {
    groups.Keys == Roots(rep, n) && forall r :: r in groups ==> groups[r] == Members(sums, rep, n, r)
  }

  method Group(sums: seq<FileSummary>, f: Forest) returns (groups: map<nat, seq<FileSummary>>)
    requires f.Valid() && |f.rep| == f.parent.Length == |sums|
    modifies f.parent
    ensures f.rep == old(f.rep) && Grouped(sums, f.rep, |sums|, groups)
  {
    groups := map[];
    ghost var rep := f.rep;
    for i := 0 to |sums|
      invariant f.Valid() && f.rep == rep && Grouped(sums, rep, i, groups)
    {
      var r := f.Find(i);
      GroupedNext(sums, rep, i, groups);
      groups := groups[r := GroupAt(groups, r) + [sums[i]]];
    }
  }

  function GroupAt(groups: map<nat, seq<FileSummary>>, r: nat): seq<FileSummary> {
    if r in groups then groups[r] else []
  }

  lemma GroupedNext(sums: seq<FileSummary>, rep: seq<nat>, i: nat, groups: map<nat, seq<FileSummary>>)
    requires |rep| == |sums| && i < |sums| && Grouped(sums, rep, i, groups)
    ensures Grouped(sums, rep, i + 1, groups[rep[i] := GroupAt(groups, rep[i]) + [sums[i]]])
  {
    OnlyRootsHaveMembers(sums, rep, i, rep[i]);
  }

  /** The records of the groups with a root in `done`, filtered, without repeats. */
  ghost predicate Collected(sums: seq<FileSummary>, rep: seq<nat>, done: set<nat>, since: Option<Time>,
                            before: Option<Time>, out: seq<SessionRecord>)
    requires |rep| == |sums|
  {
    && (forall r :: r in out ==> exists k ::
       0 <= k < |sums| && rep[k] in done && InRange(r, since, before) && RecordAt(sums, k, r))
    && (forall k, r :: 0 <= k < |sums| && rep[k] in done && RecordAt(sums, k, r) && InRange(r, since, before) ==>
       r in out)
    && (forall i, j :: 0 <= i < j < |out| ==> out[i].sessionId != out[j].sessionId)
  }

  ghost predicate RecordAt(sums: seq<FileSummary>, k: nat, r: SessionRecord)
    requires k < |sums|
  {
    IsRecordOf(Files(sums), sums[k], r)
  }

  lemma CollectedNext(sums: seq<FileSummary>, rep: seq<nat>, done: set<nat>, since: Option<Time>, before: Option<Time>,
                      out: seq<SessionRecord>, k: nat, rec: SessionRecord)
    requires |rep| == |sums| && RootsAreComponents(sums, rep) && Collected(sums, rep, done, since, before, out)
    requires k < |sums| && rep[k] !in done && RecordAt(sums, k, rec)
    ensures Collected(sums, rep, done + {rep[k]}, since, before, if InRange(rec, since, before) then out + [rec]
        else out)
  {
    var all, more := done + {rep[k]}, if InRange(rec, since, before) then out + [rec] else out;
    forall j, r | 0 <= j < |sums| && rep[j] in all && RecordAt(sums, j, r) && InRange(r, since, before)
      ensures r in more {
      StillCollected(sums, rep, done, since, before, out, k, rec, j, r);
    }
    forall r | r in more
      ensures exists j :: 0 <= j < |sums| && rep[j] in all && InRange(r, since, before) && RecordAt(sums, j, r) {
      if r in out {
        var j :| 0 <= j < |sums| && rep[j] in done && InRange(r, since, before) && RecordAt(sums, j, r);
        assert rep[j] in all;
      } else {
        assert r == rec && rep[k] in all;
      }
    }
    forall i | 0 <= i < |out| ensures out[i].sessionId != rec.sessionId {
      CollectedElsewhere(sums, rep, done, since, before, out, k, rec, i);
    }
  }

  lemma StillCollected(sums: seq<FileSummary>, rep: seq<nat>, done: set<nat>, since: Option<Time>, before: Option<Time>,
                       out: seq<SessionRecord>, k: nat, rec: SessionRecord, j: nat, r: SessionRecord)
    requires |rep| == |sums| && RootsAreComponents(sums, rep) && Collected(sums, rep, done, since, before, out)
    requires k < |sums| && RecordAt(sums, k, rec)
    requires j < |sums| && rep[j] in done + {rep[k]} && RecordAt(sums, j, r) && InRange(r, since, before)
    ensures r in if InRange(rec, since, before) then out + [rec] else out
  {
    if rep[j] == rep[k] { SameRootSameRecord(sums, rep, j, k, r, rec); }
  }

  lemma SameRootSameRecord(sums: seq<FileSummary>, rep: seq<nat>, j: nat, k: nat, a: SessionRecord, b: SessionRecord)
    requires |rep| == |sums| && RootsAreComponents(sums, rep) && j < |sums| && k < |sums| && rep[j] == rep[k]
    requires RecordAt(sums, j, a) && RecordAt(sums, k, b)
    ensures a == b
  {
    SameComponent(Files(sums), sums[j], sums[k]);
  }

  lemma CollectedElsewhere(sums: seq<FileSummary>, rep: seq<nat>, done: set<nat>, since: Option<Time>,
                           before: Option<Time>,
                           out: seq<SessionRecord>, k: nat, rec: SessionRecord, i: nat)
    requires |rep| == |sums| && RootsAreComponents(sums, rep) && Collected(sums, rep, done, since, before, out)
    requires k < |sums| && rep[k] !in done && RecordAt(sums, k, rec) && i < |out|
    ensures out[i].sessionId != rec.sessionId
  {
    assert out[i] in out;
    var j :| 0 <= j < |sums| && rep[j] in done && InRange(out[i], since, before) && RecordAt(sums, j, out[i]);
    OtherRootOtherId(sums, rep, j, k, out[i], rec);
  }

  lemma OtherRootOtherId(sums: seq<FileSummary>, rep: seq<nat>, j: nat, k: nat, a: SessionRecord, b: SessionRecord)
    requires |rep| == |sums| && RootsAreComponents(sums, rep) && j < |sums| && k < |sums| && rep[j] != rep[k]
    requires RecordAt(sums, j, a) && RecordAt(sums, k, b)
    ensures a.sessionId != b.sessionId
  {
    var files := Files(sums);
    InOwnComponent(files, sums[j]);
    InOwnComponent(files, sums[k]);
    if a.sessionId == b.sessionId {
      SessionIdsDiffer(files, sums[j], sums[k]);
      assert false;
    }
  }

  lemma GroupMakesRecord(sums: seq<FileSummary>, rep: seq<nat>, k: nat, ms: seq<FileSummary>, rec: SessionRecord)
    requires |rep| == |sums| && NoSharedPath(sums) && RootsAreComponents(sums, rep) && k < |sums|
    requires ms != [] && Sorted(ms, MemberLess) && multiset(ms) == multiset(Members(sums, rep, |sums|, rep[k]))
    requires rec == RecordOfSeq(ms)
    ensures RecordAt(sums, k, rec)
  {
    MembersAre(sums, rep, |sums|, rep[k]);
    ClassIsComponent(sums, rep, k);
    SortedMembers(Component(Files(sums), sums[k]), ms);
  }

  /** The record of one group is that of its component. */
  method MergeGroup(group: seq<FileSummary>, ghost sums: seq<FileSummary>, ghost rep: seq<nat>, ghost k: nat)
      returns (rec: SessionRecord)
    requires |rep| == |sums| && NoSharedPath(sums) && RootsAreComponents(sums, rep) && k < |sums|
    requires group != [] && group == Members(sums, rep, |sums|, rep[k])
    ensures RecordAt(sums, k, rec)
  {
    rec := MergeSession.MergeSession(group);
    ghost var ms :| SortOf(group, ms) && ms != [] && rec == RecordOfSeq(ms);
    GroupMakesRecord(sums, rep, k, ms, rec);
  }

  /** mergeSessions: the sessions of the files, in range, ordered. */
  method MergeSessions(sums: seq<FileSummary>, since: Option<Time>, before: Option<Time>)
      returns (out: seq<SessionRecord>)
    requires NoSharedPath(sums)
    ensures IsRollup(Files(sums), since, before, out) && ByStart(Files(sums), since, before, out)
  {
    var f := Join(sums);
    ghost var rep := f.rep;
    var groups := Group(sums, f);
    out := [];
    var todo := groups.Keys;
    ghost var done: set<nat> := {};
    while todo != {}
      invariant todo <= groups.Keys && done == groups.Keys - todo
      invariant Collected(sums, rep, done, since, before, out)
      decreases todo
    {
      var r :| r in todo;
      ghost var k := RootOf(sums, rep, r);
      var rec := MergeGroup(groups[r], sums, rep, k);
      CollectedNext(sums, rep, done, since, before, out, k, rec);
      assert groups.Keys - (todo - {r}) == done + {r};
      done, todo := done + {r}, todo - {r};
      if (since.Some? && rec.startedAt < since.value) || (before.Some? && rec.startedAt >= before.value) {
        continue;
      }
      out := out + [rec];
    }
    RecordLessIsAStrictOrder();
    ghost var found := out;
    out := Sort(out, RecordLess);
    CollectedIsRollup(sums, rep, groups, since, before, found, out);
    RollupIsByStart(Files(sums), since, before, out);
  }

  ghost function RootOf(sums: seq<FileSummary>, rep: seq<nat>, r: nat): (k: nat)
    requires |rep| == |sums| && r in Roots(rep, |rep|)
    ensures k < |rep| && rep[k] == r && Members(sums, rep, |sums|, r) != []
  {
    InRoots(rep, |rep|, r);
    OnlyRootsHaveMembers(sums, rep, |sums|, r);
    var k :| 0 <= k < |rep| && rep[k] == r;
    k
  }

  lemma CollectedIsRollup(sums: seq<FileSummary>, rep: seq<nat>, groups: map<nat, seq<FileSummary>>,
                          since: Option<Time>, before: Option<Time>, found: seq<SessionRecord>, out: seq<SessionRecord>)
    requires |rep| == |sums| && Grouped(sums, rep, |sums|, groups)
             && Collected(sums, rep, groups.Keys, since, before, found)
    requires Sorted(out, RecordLess) && multiset(out) == multiset(found)
    ensures IsRollup(Files(sums), since, before, out)
  {
    SameElements(out, found);
    var files := Files(sums);
    forall r ensures r in out <==> Reported(files, since, before, r) {
      if r in found {
        var k :| 0 <= k < |sums| && rep[k] in groups.Keys && InRange(r, since, before) && RecordAt(sums, k, r);
        assert sums[k] in files && IsRecordOf(files, sums[k], r);
      }
      if Reported(files, since, before, r) {
        var x :| x in files && IsRecordOf(files, x, r);
        var k :| 0 <= k < |sums| && sums[k] == x;
        InRoots(rep, |sums|, rep[k]);
        assert RecordAt(sums, k, r);
      }
    }
    ApartIsKept(found, out, (r: SessionRecord, s: SessionRecord) => r.sessionId == s.sessionId);
    forall i, j | 0 <= i < j < |out| ensures RecordLess(out[i], out[j]) {
      LessIsTotal(out[i].sessionId, out[j].sessionId);
      assert !RecordLess(out[j], out[i]);
    }
  }
}

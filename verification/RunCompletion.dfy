module RunCompletion {
  // What a program of the run lifecycle has done when it was left undisturbed: no operation fails, the process does not
  // die and nobody else acts between its operations.

  import opened Wrappers
  import opened RunLifecycle

  /** What a program leaves; `refused` when the store refused one of its operations. */
  datatype End = End(st: Store, log: seq<Emission>, refused: bool)

  function LogAfter(st: Store, op: Op, log: seq<Emission>): seq<Emission> {
    if op.Claim? && Wins(st, op.run) then log + [EmissionOf(op.run, op.snap)] else log
  }

  /** The operations to do, each meeting the next of the worlds, none of which fails, end in `end`. */
  ghost predicate Alone(st: Store, log: seq<Emission>, id: Id, todo: seq<Op>, ws: seq<World>, end: End)
    decreases |ws|
  {
    if todo == [] then ws == [] && end == End(st, log, false)
    else
      && ws != [] && !ws[0].fails && Answers(st, id, todo[0], ws[0])
      && if Rejected(st, id, todo[0]) then |ws| == 1 && end == End(st, log, true)
         else Alone(Effect(st, id, todo[0], ws[0]), LogAfter(st, todo[0], log), id,
                Next(st, id, todo[0], ws[0]) + todo[1..], ws[1..], end)
  }

  /** The process takes these steps and no other action comes between. */
  ghost predicate Steps(s: State, p: Process, ws: seq<World>, t: State)
    decreases |ws|
  {
    if ws == [] then t == s
    else Enabled(s, Step(p, ws[0])) && Steps(Apply(s, Step(p, ws[0])), p, ws[1..], t)
  }

  /** Steps of an undisturbed process until it has nothing to do, or is refused, are its program alone. */
  lemma {:induction false} StepsAreAlone(s: State, p: Process, ws: seq<World>, t: State, end: End)
    requires Inv(s) && p in s.procs && Steps(s, p, ws, t) && forall w :: w in ws ==> !w.fails
    requires p in t.procs ==> t.procs[p].todo == []
    requires end == End(t.store, t.log, p !in t.procs)
    ensures Alone(s.store, s.log, s.procs[p].id, s.procs[p].todo, ws, end)
    decreases |ws|
  {
    if ws != [] {
      assert ws[0] in ws;
      var u := Apply(s, Step(p, ws[0]));
      assert ProcInv(s.store, s.procs[p]);
      assert !s.procs[p].locked ==> Harmless(s.procs[p].todo[0]);
      if p in u.procs {
        ActionKeepsInv(s, Step(p, ws[0]));
        StepsAreAlone(u, p, ws[1..], t, end);
      }
    }
  }

  // ---------------------------------------------------------------- what the parts leave

  /** The run ended: a pending reason is kept. */
  function Ended(run: Run, at: int, reason: string, source: Source): Run {
    run.(endedAt := Some(at), endSource := source, endReason := if run.endReason != "" then run.endReason else reason)
  }

  /** The open run of `id`, if any, has ended. */
  function WithEnded(st: Store, id: Id, at: int, reason: string, source: Source): Store {
    st.(runs := map q | q in st.runs ::
                  if OpenOf(st, id, q) then Ended(st.runs[q], at, reason, source) else st.runs[q])
  }

  /** Of one session, or of any. */
  predicate IsOf(run: Run, whose: Option<Id>) {
    whose.None? || run.session == whose.value
  }

  predicate Due(st: Store, whose: Option<Id>, r: RunId) {
    r in st.runs && IsOf(st.runs[r], whose) && !st.runs[r].IsOpen() && !st.runs[r].emitted
  }

  /** The ended runs have been emitted. */
  function WithEmitted(st: Store, whose: Option<Id>): Store {
    st.(runs := map q | q in st.runs ::
                  if Due(st, whose, q) then st.runs[q].(emitted := true) else st.runs[q])
  }

  /** The row and its runs are gone. */
  function Without(st: Store, id: Id): Store {
    st.(rows := st.rows - {id}, runs := map q | q in st.runs && st.runs[q].session != id :: st.runs[q])
  }

  /** The log grew by one emission of each run that was due, with its reason and duration. */
  ghost predicate Emits(st: Store, whose: Option<Id>, log: seq<Emission>, after: seq<Emission>) {
    && log <= after
    && var es := after[|log|..];
    && (forall k :: 0 <= k < |es| ==> Due(st, whose, es[k].run) && es[k] == EmissionOf(es[k].run, st.runs[es[k].run]))
    && (forall r :: Due(st, whose, r) ==> HasRun(es, r))
    && (forall j, k :: 0 <= j < k < |es| ==> es[j].run != es[k].run)
  }

  // ---------------------------------------------------------------- one operation

  lemma OneAlone(st: Store, log: seq<Emission>, id: Id, op: Op, rest: seq<Op>, ws: seq<World>, end: End)
    requires Alone(st, log, id, [op] + rest, ws, end) && !Rejected(st, id, op)
    ensures ws != [] && Answers(st, id, op, ws[0])
    ensures Alone(Effect(st, id, op, ws[0]), LogAfter(st, op, log), id, Next(st, id, op, ws[0]) + rest, ws[1..], end)
  {
    assert ([op] + rest)[1..] == rest;
  }

  // ---------------------------------------------------------------- claims

  function Claimed(st: Store, r: RunId): Store {
    if Wins(st, r) then st.(runs := st.runs[r := st.runs[r].(emitted := true)]) else st
  }

  function ClaimedAll(st: Store, listed: seq<RunId>): Store
    decreases |listed|
  {
    if listed == [] then st else ClaimedAll(Claimed(st, listed[0]), listed[1..])
  }

  function Emissions(st: Store, listed: seq<RunId>): seq<Emission>
    requires forall r :: r in listed ==> r in st.runs
    decreases |listed|
  {
    if listed == [] then []
    else
      (if Wins(st, listed[0]) then [EmissionOf(listed[0], st.runs[listed[0]])] else [])
      + Emissions(Claimed(st, listed[0]), listed[1..])
  }

  /** The snapshots are of the runs as they are but for the flag. */
  predicate Current(st: Store, st0: Store, listed: seq<RunId>) {
    forall r :: r in listed ==>
      r in st.runs && r in st0.runs && !st.runs[r].IsOpen() && st0.runs[r].(emitted := st.runs[r].emitted) == st.runs[r]
  }

  lemma ClaimsSplit(st0: Store, listed: seq<RunId>, rest: seq<Op>)
    requires listed != [] && forall r :: r in listed ==> r in st0.runs
    ensures ClaimOps(st0, listed) + rest
         == [Claim(listed[0], st0.runs[listed[0]])] + (ClaimOps(st0, listed[1..]) + rest)
  {
  }

  lemma ClaimedIs(st: Store, id: Id, r: RunId, snap: Run, w: World, log: seq<Emission>)
    requires r in st.runs && !st.runs[r].IsOpen() && snap.(emitted := st.runs[r].emitted) == st.runs[r]
    ensures Effect(st, id, Claim(r, snap), w) == Claimed(st, r)
    ensures LogAfter(st, Claim(r, snap), log) == log + if Wins(st, r) then [EmissionOf(r, st.runs[r])] else []
  {
  }

  lemma {:induction false} ClaimsAlone(st: Store, st0: Store, log: seq<Emission>, id: Id, listed: seq<RunId>,
                                       rest: seq<Op>, ws: seq<World>, end: End, t: Store, after: seq<Emission>)
      returns (left: seq<World>)
    requires Current(st, st0, listed) && Alone(st, log, id, ClaimOps(st0, listed) + rest, ws, end)
    requires t == ClaimedAll(st, listed) && after == log + Emissions(st, listed)
    ensures |listed| <= |ws| && left == ws[|listed|..] && Alone(t, after, id, rest, left, end)
    decreases |listed|
  {
    if listed == [] {
      left := ws;
      assert ClaimOps(st0, listed) + rest == rest && log + [] == log;
    } else {
      var r, more := listed[0], listed[1..];
      var e := if Wins(st, r) then [EmissionOf(r, st.runs[r])] else [];
      FirstClaim(st, st0, log, id, listed, rest, ws, end);
      CurrentNext(st, st0, listed);
      EmissionsSplit(st, listed, log, e);
      left := ClaimsAlone(Claimed(st, r), st0, log + e, id, more, rest, ws[1..], end, t, after);
    }
  }

  lemma EmissionsSplit(st: Store, listed: seq<RunId>, log: seq<Emission>, e: seq<Emission>)
    requires listed != [] && forall r :: r in listed ==> r in st.runs
    requires e == if Wins(st, listed[0]) then [EmissionOf(listed[0], st.runs[listed[0]])] else []
    ensures log + e + Emissions(Claimed(st, listed[0]), listed[1..]) == log + Emissions(st, listed)
  {
    var more := Emissions(Claimed(st, listed[0]), listed[1..]);
    assert Emissions(st, listed) == e + more;
    assert log + e + more == log + (e + more);
  }

  lemma CurrentNext(st: Store, st0: Store, listed: seq<RunId>)
    requires listed != [] && Current(st, st0, listed)
    ensures Current(Claimed(st, listed[0]), st0, listed[1..])
  {
  }

  lemma FirstClaim(st: Store, st0: Store, log: seq<Emission>, id: Id, listed: seq<RunId>, rest: seq<Op>,
                   ws: seq<World>, end: End)
    requires listed != [] && Current(st, st0, listed) && Alone(st, log, id, ClaimOps(st0, listed) + rest, ws, end)
    ensures var r := listed[0];
            var e := if Wins(st, r) then [EmissionOf(r, st.runs[r])] else [];
            ws != [] && Alone(Claimed(st, r), log + e, id, ClaimOps(st0, listed[1..]) + rest, ws[1..], end)
  {
    var r := listed[0];
    var claim := Claim(r, st0.runs[r]);
    assert r in st.runs && st0.runs[r].(emitted := st.runs[r].emitted) == st.runs[r];
    ClaimsSplit(st0, listed, rest);
    OneAlone(st, log, id, claim, ClaimOps(st0, listed[1..]) + rest, ws, end);
    ClaimedIs(st, id, r, st0.runs[r], ws[0], log);
    assert [] + (ClaimOps(st0, listed[1..]) + rest) == ClaimOps(st0, listed[1..]) + rest;
  }

  lemma {:induction false} ClaimedAllIs(st: Store, listed: seq<RunId>)
    requires forall r :: r in listed ==> r in st.runs && !st.runs[r].IsOpen()
    ensures ClaimedAll(st, listed)
         == st.(runs := map q | q in st.runs :: if q in listed then st.runs[q].(emitted := true) else st.runs[q])
    decreases |listed|
  {
    if listed == [] {
      assert (map q | q in st.runs :: st.runs[q]) == st.runs;
    } else {
      var next := Claimed(st, listed[0]);
      ClaimedAllIs(next, listed[1..]);
      assert listed == [listed[0]] + listed[1..];
    }
  }

  /** One emission of each listed run that was not emitted. */
  ghost predicate OneEach(st: Store, listed: seq<RunId>, es: seq<Emission>)
    requires forall r :: r in listed ==> r in st.runs
  {
    && (forall k :: 0 <= k < |es| ==> es[k].run in listed && !st.runs[es[k].run].emitted
                                      && es[k] == EmissionOf(es[k].run, st.runs[es[k].run]))
    && (forall r :: r in listed && !st.runs[r].emitted ==> HasRun(es, r))
    && (forall j, k :: 0 <= j < k < |es| ==> es[j].run != es[k].run)
  }

  ghost predicate HasRun(es: seq<Emission>, r: RunId) {
    exists k :: 0 <= k < |es| && es[k].run == r
  }

  lemma OneMoreEach(st: Store, r: RunId, rest: seq<RunId>, more: seq<Emission>)
    requires r in st.runs && !st.runs[r].IsOpen() && !st.runs[r].emitted && forall q :: q in rest ==> q in st.runs
    requires OneEach(Claimed(st, r), rest, more)
    ensures OneEach(st, [r] + rest, [EmissionOf(r, st.runs[r])] + more)
  {
    var es := [EmissionOf(r, st.runs[r])] + more;
    assert es[0].run == r;
    forall q | q in rest && q != r && !st.runs[q].emitted ensures HasRun(es, q) {
      assert HasRun(more, q);
      var k :| 0 <= k < |more| && more[k].run == q;
      assert es[k + 1].run == q;
    }
    forall k | 0 <= k < |es|
      ensures es[k].run in [r] + rest && !st.runs[es[k].run].emitted
              && es[k] == EmissionOf(es[k].run, st.runs[es[k].run])
    {
      if k > 0 { assert es[k] == more[k - 1]; }
    }
  }

  lemma {:induction false} EmissionsAre(st: Store, listed: seq<RunId>)
    requires forall r :: r in listed ==> r in st.runs && !st.runs[r].IsOpen()
    ensures OneEach(st, listed, Emissions(st, listed))
    decreases |listed|
  {
    if listed != [] {
      var r, rest := listed[0], listed[1..];
      assert listed == [r] + rest;
      EmissionsAre(Claimed(st, r), rest);
      if Wins(st, r) {
        OneMoreEach(st, r, rest, Emissions(Claimed(st, r), rest));
      } else {
        assert Emissions(st, listed) == Emissions(st, rest);
      }
    }
  }

  // ---------------------------------------------------------------- listings

  lemma ListedIsDue(st: Store, log: seq<Emission>, whose: Option<Id>, listed: seq<RunId>)
    requires forall r :: r in listed <==> Due(st, whose, r)
    ensures forall r :: r in listed ==> r in st.runs
    ensures ClaimedAll(st, listed) == WithEmitted(st, whose)
    ensures Emits(st, whose, log, log + Emissions(st, listed))
  {
    ClaimedAllIs(st, listed);
    assert ClaimedAll(st, listed).runs == WithEmitted(st, whose).runs;
    EmissionsAre(st, listed);
    assert (log + Emissions(st, listed))[|log|..] == Emissions(st, listed);
  }

  lemma ListsDue(st: Store, id: Id, op: Op, whose: Option<Id>, w: World)
    requires StoreInv(st) && Answers(st, id, op, w)
    requires (op.EmitEndedRuns? && whose == Some(id)) || (op.EmitPendingRuns? && whose == None)
    ensures forall r :: r in w.listed <==> Due(st, whose, r)
    ensures Current(st, st, w.listed) && Next(st, id, op, w) == ClaimOps(st, w.listed) && !Rejected(st, id, op)
    ensures Effect(st, id, op, w) == st
  {
  }

  /** A listing claims what is due: the store and the log after it. */
  lemma ListingAlone(st: Store, log: seq<Emission>, id: Id, op: Op, whose: Option<Id>, rest: seq<Op>, ws: seq<World>,
                     end: End)
      returns (k: nat, after: seq<Emission>)
    requires StoreInv(st) && Alone(st, log, id, [op] + rest, ws, end)
    requires (op.EmitEndedRuns? && whose == Some(id)) || (op.EmitPendingRuns? && whose == None)
    ensures 1 <= k <= |ws| && Emits(st, whose, log, after)
    ensures Alone(WithEmitted(st, whose), after, id, rest, ws[k..], end)
  {
    OneAlone(st, log, id, op, rest, ws, end);
    var listed := ws[0].listed;
    ListsDue(st, id, op, whose, ws[0]);
    ListedIsDue(st, log, whose, listed);
    k, after := 1 + |listed|, log + Emissions(st, listed);
    var left := ClaimsAlone(st, st, log, id, listed, rest, ws[1..], end, WithEmitted(st, whose), after);
  }

  lemma FinalizedIsEnded(st: Store, id: Id, r: RunId, at: int, reason: string, source: Source, w: World)
    requires StoreInv(st) && OpenOf(st, id, r)
    ensures Effect(st, id, FinalizeRun(r, at, reason, source), w) == WithEnded(st, id, at, reason, source)
  {
    assert forall q :: OpenOf(st, id, q) ==> q == r;
    assert Effect(st, id, FinalizeRun(r, at, reason, source), w).runs == WithEnded(st, id, at, reason, source).runs;
  }

  lemma NothingToEnd(st: Store, id: Id, at: int, reason: string, source: Source)
    requires forall q :: !OpenOf(st, id, q)
    ensures WithEnded(st, id, at, reason, source) == st
  {
    assert WithEnded(st, id, at, reason, source).runs == st.runs;
  }

  /** Ending the open run takes one operation, or two when there is one. */
  lemma EndingAlone(st: Store, log: seq<Emission>, id: Id, at: Option<int>, reason: string, source: Source,
                    rest: seq<Op>, ws: seq<World>, end: End)
      returns (k: nat)
    requires StoreInv(st) && Alone(st, log, id, [EndOpenRun(at, reason, source)] + rest, ws, end)
    ensures 1 <= k <= |ws|
    ensures Alone(WithEnded(st, id, if at.None? then ws[0].now else at.value, reason, source), log, id, rest,
        ws[k..], end)
  {
    var op := EndOpenRun(at, reason, source);
    var when := if at.None? then ws[0].now else at.value;
    assert ([op] + rest)[1..] == rest && [] + rest == rest;
    if ws[0].found.Some? {
      var fin := FinalizeRun(ws[0].found.value, when, reason, source);
      assert ([fin] + rest)[1..] == rest;
      FinalizedIsEnded(st, id, fin.run, when, reason, source, ws[1]);
      k := 2;
    } else {
      NothingToEnd(st, id, when, reason, source);
      k := 1;
    }
  }

  // ---------------------------------------------------------------- deleting a session

  lemma EndedKeepsInv(st: Store, id: Id, at: int, reason: string, source: Source)
    requires StoreInv(st) && at > 0
    ensures StoreInv(WithEnded(st, id, at, reason, source))
    ensures forall i, r :: OpenOf(WithEnded(st, id, at, reason, source), i, r) <==> OpenOf(st, i, r) && i != id
  {
    var t := WithEnded(st, id, at, reason, source);
    forall i, r ensures OpenOf(t, i, r) <==> OpenOf(st, i, r) && i != id {}
  }

  /** When the session was last seen active; nothing to end if it has no row. */
  function LastSeen(st: Store, id: Id): int {
    if id in st.rows then st.rows[id].lastActivityAt else 1
  }

  /** The session's runs ended as the reaper ends them. */
  function Reaped(st: Store, id: Id): Store {
    WithEnded(st, id, LastSeen(st, id), "exited", ByReaper)
  }

  lemma DeletedIs(st: Store, id: Id, w: World)
    requires StoreInv(st)
    ensures Effect(WithEmitted(Reaped(st, id), Some(id)), id, DeleteRow, w) == Without(st, id)
    ensures id !in st.rows ==> Reaped(st, id) == st == Without(st, id)
    ensures id !in st.rows ==> Effect(st, id, DeleteRow, w) == Without(st, id)
  {
    var t := WithEmitted(Reaped(st, id), Some(id));
    if id in st.rows {
      assert Effect(t, id, DeleteRow, w).runs == Without(st, id).runs;
    } else {
      assert Reaped(st, id).runs == st.runs == Without(st, id).runs && st.rows - {id} == st.rows;
      assert t.runs == st.runs;
    }
  }

  /** Deleting a session ends its open run, emits what it has not emitted and leaves neither row nor runs. */
  lemma DeletingAlone(st: Store, log: seq<Emission>, id: Id, rest: seq<Op>, ws: seq<World>, end: End)
      returns (k: nat, after: seq<Emission>)
    requires StoreInv(st) && Alone(st, log, id, [DeleteSession] + rest, ws, end)
    ensures k <= |ws| && Emits(Reaped(st, id), Some(id), log, after)
    ensures Alone(Without(st, id), after, id, rest, ws[k..], end)
  {
    OneAlone(st, log, id, DeleteSession, rest, ws, end);
    if id in st.rows {
      var emit := [EmitEndedRuns] + ([DeleteRow] + rest);
      assert Next(st, id, DeleteSession, ws[0]) + rest
          == [EndOpenRun(Some(LastSeen(st, id)), "exited", ByReaper)] + emit;
      var a := EndingAlone(st, log, id, Some(LastSeen(st, id)), "exited", ByReaper, emit, ws[1..], end);
      k, after := EmittingThenDeleting(st, log, id, rest, ws[1..][a..], end);
      assert ws[1..][a..][k..] == ws[1 + a + k..];
      k := 1 + a + k;
    } else {
      assert Next(st, id, DeleteSession, ws[0]) + rest == [DeleteRow] + rest;
      k, after := 2, log;
      NothingToDelete(st, log, id, rest, ws[1..], end);
      assert ws[1..][1..] == ws[2..];
    }
  }

  lemma NothingToDelete(st: Store, log: seq<Emission>, id: Id, rest: seq<Op>, ws: seq<World>, end: End)
    requires StoreInv(st) && id !in st.rows && Alone(st, log, id, [DeleteRow] + rest, ws, end)
    ensures ws != [] && Emits(Reaped(st, id), Some(id), log, log)
    ensures Alone(Without(st, id), log, id, rest, ws[1..], end)
  {
    OneAlone(st, log, id, DeleteRow, rest, ws, end);
    DeletedIs(st, id, ws[0]);
    assert [] + rest == rest && log[|log|..] == [];
    assert forall r :: !Due(st, Some(id), r);
  }

  lemma EmittingThenDeleting(st: Store, log: seq<Emission>, id: Id, rest: seq<Op>, ws: seq<World>, end: End)
      returns (k: nat, after: seq<Emission>)
    requires StoreInv(st) && id in st.rows
    requires Alone(Reaped(st, id), log, id, [EmitEndedRuns] + ([DeleteRow] + rest), ws, end)
    ensures k <= |ws| && Emits(Reaped(st, id), Some(id), log, after)
    ensures Alone(Without(st, id), after, id, rest, ws[k..], end)
  {
    EndedKeepsInv(st, id, LastSeen(st, id), "exited", ByReaper);
    var b;
    b, after := ListingAlone(Reaped(st, id), log, id, EmitEndedRuns, Some(id), [DeleteRow] + rest, ws, end);
    OneAlone(WithEmitted(Reaped(st, id), Some(id)), after, id, DeleteRow, rest, ws[b..], end);
    DeletedIs(st, id, ws[b]);
    assert [] + rest == rest;
    k := b + 1;
    assert ws[b..][1..] == ws[k..];
  }

  // ---------------------------------------------------------------- the lock-free programs

  /** The end hook ends the open run, if any, at its clock, and does nothing else. */
  lemma EndHookCompletes(st: Store, log: seq<Emission>, id: Id, ws: seq<World>, end: End)
    requires StoreInv(st) && Alone(st, log, id, [EndOpenRun(None, "exited", ByHook)], ws, end)
    ensures ws != [] && end == End(WithEnded(st, id, ws[0].now, "exited", ByHook), log, false)
  {
    assert [EndOpenRun(None, "exited", ByHook)] + [] == [EndOpenRun(None, "exited", ByHook)];
    var k := EndingAlone(st, log, id, None, "exited", ByHook, [], ws, end);
  }

  /** The sweep leaves no ended run unemitted, and emits each that was just once. */
  lemma SweepCompletes(st: Store, log: seq<Emission>, ws: seq<World>, end: End)
    requires StoreInv(st) && Alone(st, log, "", [EmitPendingRuns], ws, end)
    ensures end.st == WithEmitted(st, None) && !end.refused && Emits(st, None, log, end.log)
    ensures forall r :: r in end.st.runs && !end.st.runs[r].IsOpen() ==> end.st.runs[r].emitted
  {
    assert [EmitPendingRuns] + [] == [EmitPendingRuns];
    var k, after := ListingAlone(st, log, "", EmitPendingRuns, None, [], ws, end);
  }

  // ---------------------------------------------------------------- a close

  /** The runs of the session while its close has ended them and emitted nothing yet. */
  function ClosedRuns(st: Store, id: Id, reason: string, at: int): Store {
    st.(runs := map q | q in st.runs ::
                  if OpenOf(st, id, q)
                  then st.runs[q].(endedAt := Some(at), endReason := reason, endSource := ByClose) else st.runs[q])
  }

  lemma StampedThenEnded(st: Store, id: Id, reason: string, at: int, w: World)
    requires StoreInv(st) && w.now > 0
    ensures StoreInv(Effect(st, id, SetPendingReason(reason), w))
    ensures reason != "" || at > 0 ==>
              WithEnded(Effect(st, id, SetPendingReason(reason), w), id, at, reason, ByClose)
              == ClosedRuns(st, id, reason, at)
  {
    var t := Effect(st, id, SetPendingReason(reason), w);
    EffectKeepsStore(st, id, SetPendingReason(reason), w);
    forall q ensures OpenOf(t, id, q) <==> OpenOf(st, id, q) {}
    assert WithEnded(t, id, at, reason, ByClose).runs == ClosedRuns(st, id, reason, at).runs;
  }

  lemma ClosedKeepsInv(st: Store, id: Id, reason: string, at: int)
    requires StoreInv(st) && at > 0
    ensures StoreInv(ClosedRuns(st, id, reason, at))
    ensures id in st.rows ==> LastSeen(ClosedRuns(st, id, reason, at), id) == LastSeen(st, id)
    ensures Reaped(ClosedRuns(st, id, reason, at), id) == ClosedRuns(st, id, reason, at)
    ensures Without(ClosedRuns(st, id, reason, at), id) == Without(st, id)
  {
    var t := ClosedRuns(st, id, reason, at);
    forall i, r ensures OpenOf(t, i, r) <==> OpenOf(st, i, r) && i != id {}
    NothingToEnd(t, id, LastSeen(t, id), "exited", ByReaper);
    assert Without(t, id).runs == Without(st, id).runs;
  }

  /** Stamp, teardown and end: the open run carries the close's reason and ends at the clock of its end. */
  lemma ClosingAlone(st: Store, log: seq<Emission>, id: Id, reason: string, rest: seq<Op>, ws: seq<World>, end: End)
      returns (k: nat)
    requires StoreInv(st)
    requires Alone(st, log, id,
               [SetPendingReason(reason)] + ([Teardown] + ([EndOpenRun(None, reason, ByClose)] + rest)), ws, end)
    ensures 2 < k <= |ws| && ws[2].now > 0
    ensures Alone(ClosedRuns(st, id, reason, ws[2].now), log, id, rest, ws[k..], end)
  {
    var stamp, tail := SetPendingReason(reason), [EndOpenRun(None, reason, ByClose)] + rest;
    OneAlone(st, log, id, stamp, [Teardown] + tail, ws, end);
    var t := Effect(st, id, stamp, ws[0]);
    assert [] + ([Teardown] + tail) == [Teardown] + tail && [] + tail == tail;
    OneAlone(t, log, id, Teardown, tail, ws[1..], end);
    assert ws[1..][1..] == ws[2..];
    StampedThenEnded(st, id, reason, 1, ws[0]);
    var a := EndingAlone(t, log, id, None, reason, ByClose, rest, ws[2..], end);
    StampedThenEnded(st, id, reason, ws[2].now, ws[0]);
    k := 2 + a;
    assert ws[2..][a..] == ws[k..];
  }

  /** A close that is refused changes nothing: a reason that is none, or no row. */
  predicate Refuses(st: Store, id: Id, reason: string) {
    reason !in CLOSE_REASONS || id !in st.rows
  }

  function WithReason(st: Store, id: Id, reason: string): Store
    requires id in st.rows
  {
    st.(rows := st.rows[id := st.rows[id].(closeReason := reason)])
  }

  /** A close that keeps the row: it has the reason, the run that was open has ended at the close's clock with that
      reason, and every run of the session that had not been emitted has been, once. */
  lemma CloseCompletes(st: Store, log: seq<Emission>, id: Id, reason: string, ws: seq<World>, end: End)
    requires StoreInv(st) && Alone(st, log, id, CloseOps(reason, false), ws, end)
    ensures Refuses(st, id, reason) ==> end == End(st, log, true)
    ensures !Refuses(st, id, reason) ==> |ws| > 3 && ws[3].now > 0 && !end.refused
    ensures !Refuses(st, id, reason) ==>
              var closed := ClosedRuns(WithReason(st, id, reason), id, reason, ws[3].now);
              end.st == WithEmitted(closed, Some(id)) && Emits(closed, Some(id), log, end.log)
  {
    var tail := [EndOpenRun(None, reason, ByClose)] + ([EmitEndedRuns] + []);
    var body := [SetPendingReason(reason)] + ([Teardown] + tail);
    assert CloseOps(reason, false) == [SetCloseReason(reason)] + body;
    if !Refuses(st, id, reason) {
      OneAlone(st, log, id, SetCloseReason(reason), body, ws, end);
      assert [] + body == body;
      var t := WithReason(st, id, reason);
      EffectKeepsStore(st, id, SetCloseReason(reason), ws[0]);
      var k := ClosingAlone(t, log, id, reason, [EmitEndedRuns] + [], ws[1..], end);
      ClosedKeepsInv(t, id, reason, ws[3].now);
      var j, after := ListingAlone(ClosedRuns(t, id, reason, ws[3].now), log, id, EmitEndedRuns, Some(id), [],
        ws[1..][k..], end);
    }
  }

  /** A purge: row and runs are gone, and every run of the session that had not been emitted has been, once, the one
      that was open with the close's reason and clock. */
  lemma PurgeCompletes(st: Store, log: seq<Emission>, id: Id, reason: string, ws: seq<World>, end: End)
    requires StoreInv(st) && Alone(st, log, id, CloseOps(reason, true), ws, end)
    ensures |ws| > 2 && ws[2].now > 0 && end.st == Without(st, id) && !end.refused
    ensures Emits(ClosedRuns(st, id, reason, ws[2].now), Some(id), log, end.log)
  {
    var tail := [EndOpenRun(None, reason, ByClose)] + ([DeleteSession] + []);
    assert CloseOps(reason, true) == [SetPendingReason(reason)] + ([Teardown] + tail);
    var k := ClosingAlone(st, log, id, reason, [DeleteSession] + [], ws, end);
    var closed := ClosedRuns(st, id, reason, ws[2].now);
    ClosedKeepsInv(st, id, reason, ws[2].now);
    ReapedIsClosed(st, id, reason, ws[2].now);
    var j, after := DeletingAlone(closed, log, id, [], ws[k..], end);
  }

  lemma ReapedIsClosed(st: Store, id: Id, reason: string, at: int)
    requires StoreInv(st) && at > 0
    ensures Reaped(ClosedRuns(st, id, reason, at), id) == ClosedRuns(st, id, reason, at)
  {
    ClosedKeepsInv(st, id, reason, at);
  }

  /** What that says of the run that was open: how it ended, and the one emission of it. */
  lemma ClosedRunIs(st: Store, id: Id, reason: string, at: int, log: seq<Emission>, after: seq<Emission>, r: RunId)
    requires StoreInv(st) && OpenOf(st, id, r) && reason in CLOSE_REASONS && at > 0
    requires Emits(ClosedRuns(st, id, reason, at), Some(id), log, after)
    ensures WithEmitted(ClosedRuns(st, id, reason, at), Some(id)).runs[r]
         == Run(id, st.runs[r].startedAt, Some(at), reason, ByClose, true)
    ensures exists k :: |log| <= k < |after|
              && after[k] == Emission(r, reason, if at < st.runs[r].startedAt then 0 else at - st.runs[r].startedAt)
              && forall j :: |log| <= j < |after| && j != k ==> after[j].run != r
  {
    var closed := ClosedRuns(st, id, reason, at);
    var es := after[|log|..];
    assert Due(closed, Some(id), r);
    assert HasRun(es, r);
    var k :| 0 <= k < |es| && es[k].run == r;
    assert after[|log| + k] == es[k];
    forall j | |log| <= j < |after| && j != |log| + k ensures after[j].run != r {
      assert after[j] == es[j - |log|];
    }
  }

  // ---------------------------------------------------------------- Ensure

  function WithRun(st: Store, id: Id, at: int): Store {
    st.(runs := st.runs[st.nextRun := Run(id, at, None, "", Pending, false)], nextRun := st.nextRun + 1)
  }

  function WithRow(st: Store, id: Id, row: Row): Store {
    st.(rows := st.rows[id := row])
  }

  /** The first step finds the session live, to be resumed, or to be made anew. */
  predicate Resumes(st: Store, id: Id, w: World) {
    id in st.rows && (w.resumable || w.young)
  }

  /** A live session is reused: nothing changes. */
  lemma ReuseCompletes(st: Store, log: seq<Emission>, id: Id, ws: seq<World>, end: End)
    requires Alone(st, log, id, [EnsureRow], ws, end) && ws != [] && ws[0].live
    ensures end == End(st, log, false)
  {
    assert [EnsureRow] == [EnsureRow] + [];
    OneAlone(st, log, id, EnsureRow, [], ws, end);
  }

  /** A resume: a stale open run has ended when the session was last seen, and one run is open, started at the clock of
      its step; the row is touched after it. */
  lemma ResumeCompletes(st: Store, log: seq<Emission>, id: Id, ws: seq<World>, end: End)
    requires StoreInv(st) && Alone(st, log, id, [EnsureRow], ws, end)
    requires ws != [] && !ws[0].live && Resumes(st, id, ws[0])
    ensures |ws| > 2 && end.log == log && !end.refused
    ensures end.st == WithRow(WithRun(Reaped(st, id), id, ws[|ws| - 2].now), id,
                        st.rows[id].(lastActivityAt := ws[|ws| - 1].now))
  {
    assert [EnsureRow] == [EnsureRow] + [];
    OneAlone(st, log, id, EnsureRow, [], ws, end);
    var rest := [OpenRun] + ([Touch] + []);
    assert Next(st, id, EnsureRow, ws[0]) + [] == [EndOpenRun(Some(LastSeen(st, id)), "exited", ByReaper)] + rest;
    var k := EndingAlone(st, log, id, Some(LastSeen(st, id)), "exited", ByReaper, rest, ws[1..], end);
    OpenAndTouch(Reaped(st, id), log, id, ws[1..][k..], end);
  }

  lemma OpenAndTouch(st: Store, log: seq<Emission>, id: Id, ws: seq<World>, end: End)
    requires id in st.rows && Alone(st, log, id, [OpenRun] + ([Touch] + []), ws, end)
    ensures |ws| == 2
    ensures end == End(WithRow(WithRun(st, id, ws[0].now), id, st.rows[id].(lastActivityAt := ws[1].now)), log, false)
  {
    OneAlone(st, log, id, OpenRun, [Touch] + [], ws, end);
    assert [] + ([Touch] + []) == [Touch] + [];
    OneAlone(WithRun(st, id, ws[0].now), log, id, Touch, [], ws[1..], end);
  }

  /** A new session: what was there of that id is emitted and gone, and there is one row and one run, open, each of the
      clock of its step. */
  lemma NewCompletes(st: Store, log: seq<Emission>, id: Id, ws: seq<World>, end: End) returns (k: nat)
    requires StoreInv(st) && Alone(st, log, id, [EnsureRow], ws, end)
    requires ws != [] && !ws[0].live && !Resumes(st, id, ws[0])
    ensures k < |ws| && !end.refused
    ensures end.st == WithRun(WithRow(Without(st, id), id, Row(ws[k].now, "")), id, ws[|ws| - 1].now)
    ensures Emits(Reaped(st, id), Some(id), log, end.log)
  {
    assert [EnsureRow] == [EnsureRow] + [];
    OneAlone(st, log, id, EnsureRow, [], ws, end);
    var start := [Insert] + StartRunOps(0);
    if id in st.rows {
      assert Next(st, id, EnsureRow, ws[0]) + [] == [DeleteSession] + start;
      var j, after := DeletingAlone(st, log, id, start, ws[1..], end);
      WithoutKeepsInv(st, id);
      InsertAndRun(Without(st, id), after, id, ws[1..][j..], end);
      k := 1 + j;
    } else {
      assert Next(st, id, EnsureRow, ws[0]) + [] == start;
      DeletedIs(st, id, ws[0]);
      InsertAndRun(st, log, id, ws[1..], end);
      k := 1;
    }
  }

  lemma WithoutKeepsInv(st: Store, id: Id)
    requires StoreInv(st)
    ensures StoreInv(Without(st, id)) && forall r :: r in Without(st, id).runs ==> Without(st, id).runs[r].session != id
  {
    forall i, r ensures OpenOf(Without(st, id), i, r) ==> OpenOf(st, i, r) {}
  }

  lemma InsertAndRun(st: Store, log: seq<Emission>, id: Id, ws: seq<World>, end: End)
    requires id !in st.rows && (forall r :: r in st.runs ==> st.runs[r].session != id)
    requires StoreInv(st) && Alone(st, log, id, [Insert] + StartRunOps(0), ws, end)
    ensures ws != []
    ensures end == End(WithRun(WithRow(st, id, Row(ws[0].now, "")), id, ws[|ws| - 1].now), log, false)
  {
    OneAlone(st, log, id, Insert, StartRunOps(0), ws, end);
    var t := WithRow(st, id, Row(ws[0].now, ""));
    EffectKeepsStore(st, id, Insert, ws[0]);
    assert [] + StartRunOps(0) == [EndOpenRun(Some(0), "exited", ByReaper)] + ([OpenRun] + []);
    var k := EndingAlone(t, log, id, Some(0), "exited", ByReaper, [OpenRun] + [], ws[1..], end);
    NothingToEnd(t, id, 0, "exited", ByReaper);
    OneAlone(t, log, id, OpenRun, [], ws[1..][k..], end);

  }

  /** After an Ensure that launched, the session has a row and exactly one open run, which is new. */
  lemma EnsureOpensOneRun(st: Store, log: seq<Emission>, id: Id, ws: seq<World>, end: End)
    requires StoreInv(st) && Alone(st, log, id, [EnsureRow], ws, end) && ws != [] && !ws[0].live
    ensures id in end.st.rows && st.nextRun in end.st.runs && st.nextRun !in st.runs
    ensures forall r :: OpenOf(end.st, id, r) <==> r == st.nextRun
    ensures exists w :: w in ws && end.st.runs[st.nextRun] == Run(id, w.now, None, "", Pending, false)
  {
    if Resumes(st, id, ws[0]) {
      ResumeCompletes(st, log, id, ws, end);
      EndedKeepsInv(st, id, LastSeen(st, id), "exited", ByReaper);
      assert ws[|ws| - 2] in ws;
    } else {
      var k := NewCompletes(st, log, id, ws, end);
      assert ws[|ws| - 1] in ws;
    }
  }

  // ---------------------------------------------------------------- the reaper's rows

  lemma ReapedTwice(st: Store, id: Id)
    requires StoreInv(st)
    ensures StoreInv(Reaped(st, id)) && Reaped(Reaped(st, id), id) == Reaped(st, id)
    ensures Without(Reaped(st, id), id) == Without(st, id)
  {
    EndedKeepsInv(st, id, LastSeen(st, id), "exited", ByReaper);
    NothingToEnd(Reaped(st, id), id, LastSeen(st, id), "exited", ByReaper);
    assert Without(Reaped(st, id), id).runs == Without(st, id).runs;
  }

  /** A dead row: its open run has ended when it was last seen, and a row that cannot be resumed, or expired, is gone
      with its runs, each emitted. A row that is missing, live or young is left alone. */
  lemma ReapDeadCompletes(st: Store, log: seq<Emission>, id: Id, ws: seq<World>, end: End)
    requires StoreInv(st) && Alone(st, log, id, [ReapRow], ws, end)
    ensures ws != [] && !end.refused
    ensures var w := ws[0];
            if id !in st.rows || w.live || w.young then end == End(st, log, false)
            else if w.resumable && !w.expired then end == End(Reaped(st, id), log, false)
            else end.st == Without(st, id) && Emits(Reaped(st, id), Some(id), log, end.log)
  {
    assert [ReapRow] == [ReapRow] + [];
    OneAlone(st, log, id, ReapRow, [], ws, end);
    var w := ws[0];
    if id in st.rows && !w.live && !w.young {
      var rest := if !w.resumable || w.expired then [DeleteSession] + [] else [];
      assert Next(st, id, ReapRow, w) + [] == [EndOpenRun(Some(LastSeen(st, id)), "exited", ByReaper)] + rest;
      var k := EndingAlone(st, log, id, Some(LastSeen(st, id)), "exited", ByReaper, rest, ws[1..], end);
      ReapedTwice(st, id);
      if rest != [] {
        var j, after := DeletingAlone(Reaped(st, id), log, id, [], ws[1..][k..], end);
      }
    }
  }

  /** A row re-read under its lock is closed if it still qualifies, and left alone if not. */
  lemma ReapCloseCompletes(st: Store, log: seq<Emission>, id: Id, reason: string, ws: seq<World>, end: End)
    requires StoreInv(st) && Alone(st, log, id, [RecheckRow(reason)], ws, end)
    ensures ws != []
    ensures if id in st.rows && ws[0].qualifies then Alone(st, log, id, CloseOps(reason, false), ws[1..], end)
            else end == End(st, log, false)
  {
    assert [RecheckRow(reason)] == [RecheckRow(reason)] + [];
    OneAlone(st, log, id, RecheckRow(reason), [], ws, end);
    assert CloseOps(reason, false) + [] == CloseOps(reason, false);
  }

  // ---------------------------------------------------------------- from a state

  /** The process an action begins, and the session it is for. */
  function BegunBy(a: Action): Option<Process> {
    match a
    case BeginEnsure(p, _) => Some(p)
    case BeginClose(p, _, _, _) => Some(p)
    case BeginReapDead(p, _) => Some(p)
    case BeginReapClose(p, _, _) => Some(p)
    case BeginEndHook(p, _) => Some(p)
    case BeginSweep(p) => Some(p)
    case _ => None
  }

  function IdOf(a: Action): Id {
    match a
    case BeginEnsure(_, id) => id
    case BeginClose(_, id, _, _) => id
    case BeginReapDead(_, id) => id
    case BeginReapClose(_, id, _) => id
    case BeginEndHook(_, id) => id
    case _ => ""
  }

  function ProgramOf(a: Action): seq<Op> {
    match a
    case BeginEnsure(_, _) => [EnsureRow]
    case BeginClose(_, _, reason, purge) => CloseOps(reason, purge)
    case BeginReapDead(_, _) => [ReapRow]
    case BeginReapClose(_, _, reason) => [RecheckRow(reason)]
    case BeginEndHook(_, _) => [EndOpenRun(None, "exited", ByHook)]
    case BeginSweep(_) => [EmitPendingRuns]
    case _ => []
  }

  /** In any state of any run: a process begun and left undisturbed until it is done leaves what its program alone
      leaves. */
  lemma Undisturbed(s: State, a: Action, p: Process, ws: seq<World>, t: State, id: Id, todo: seq<Op>, end: End)
    requires Inv(s) && Enabled(s, a) && BegunBy(a) == Some(p) && id == IdOf(a) && todo == ProgramOf(a)
    requires Steps(Apply(s, a), p, ws, t) && (forall w :: w in ws ==> !w.fails)
    requires p in t.procs ==> t.procs[p].todo == []
    requires end == End(t.store, t.log, p !in t.procs)
    ensures Alone(s.store, s.log, id, todo, ws, end)
  {
    ActionKeepsInv(s, a);
    StepsAreAlone(Apply(s, a), p, ws, t, end);
  }

  /** Whatever the SessionStart hook finds, the row is there after it; one that was there is as it was, and so is
      everything else. */
  lemma StartHookOnlyAddsARow(s: State, id: Id, now: int, t: State)
    requires now > 0 && t == Apply(s, StartHookUpsert(id, now))
    ensures t.store.runs == s.store.runs && t.store.nextRun == s.store.nextRun && t.log == s.log && t.procs == s.procs
    ensures t.store.rows.Keys == s.store.rows.Keys + {id}
    ensures forall o :: o in t.store.rows ==> t.store.rows[o] == if o in s.store.rows then s.store.rows[o]
        else Row(now, "")
  {
  }

  /** An activity hook moves the last activity of a row that is there, and nothing else. */
  lemma ActivityHookOnlyTouches(s: State, id: Id, now: int, t: State)
    requires now > 0 && t == Apply(s, ActivityHook(id, now))
    ensures t.store.runs == s.store.runs && t.store.nextRun == s.store.nextRun && t.log == s.log && t.procs == s.procs
    ensures t.store.rows.Keys == s.store.rows.Keys
    ensures forall o :: o in t.store.rows ==>
              t.store.rows[o] == if o == id then Row(now, s.store.rows[o].closeReason) else s.store.rows[o]
  {
  }
}

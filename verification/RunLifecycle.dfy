module RunLifecycle {
  // Session runs in ccpool's store, under every interleaving of the processes that touch them.
  //
  // Ensure, close and the reaper's per-row work hold the per-id lock (whose exclusion module LockProtocol
  // proves); the SessionEnd hook, the reaper's pending-emission sweep and the SessionStart hook's upsert take no
  // lock. Every store operation is one atomic conditional update, as in the store's SQL. A process is the list of
  // operations it still has to do; one action takes one operation of one process, which may put further operations
  // in front of its list, may fail (the process returns its error), and a process may die at any time.

  import opened Wrappers

  type Id = string
  type RunId = nat
  type Process = nat

  datatype Source = Pending | ByClose | ByHook | ByReaper

  datatype Row = Row(lastActivityAt: int, closeReason: string)

  /** `endedAt` is the nullable column; on an open run `endReason` is the pending reason. */
  datatype Run = Run(session: Id, startedAt: int, endedAt: Option<int>, endReason: string, endSource: Source,
                     emitted: bool)
  {
    /** The store's test: ended_at IS NULL. */
    predicate IsOpen() { endedAt.None? }

    /** The reader's test on the scanned value, where NULL reads as 0. */
    predicate ReadsOpen() { endedAt.None? || endedAt.value == 0 }
  }

  datatype Store = Store(rows: map<Id, Row>, runs: map<RunId, Run>, nextRun: RunId)

  /** What the winner of a run's emission claim records. */
  datatype Emission = Emission(run: RunId, result: string, duration: int)

  const CLOSE_REASONS: set<string> :=
    {"idle_ttl", "cap_eviction", "operator", "handler", "exited", "dead_needs_input_ttl"}

  function EmissionOf(r: RunId, snap: Run): Emission {
    var ended := if snap.endedAt.None? then 0 else snap.endedAt.value;
    Emission(r,
             if snap.endReason in CLOSE_REASONS then snap.endReason else "exited",
             if ended - snap.startedAt < 0 then 0 else ended - snap.startedAt)
  }

  datatype Op =
    | EnsureRow                                                        // ensureLocked: read the row and decide
    | ReapRow                                                          // reapDeadRow: read the row and decide
    | RecheckRow(reason: string)                                       // closeRevalidated, closeStaleDeadNeedsInput
    | DeleteSession                                                    // deleteSessionLocked: read the row
    | SetCloseReason(reason: string)
    | SetPendingReason(reason: string)
    | Teardown                                                         // /exit, wait, kill
    | EndOpenRun(at: Option<int>, reason: string, source: Source)      // at None: the clock when it runs
    | FinalizeRun(run: RunId, endedAt: int, reason: string, source: Source)
    | OpenRun
    | Touch                                                            // Transition to starting
    | Insert
    | EmitEndedRuns                                                    // list the session's ended, unemitted runs
    | EmitPendingRuns                                                  // list every ended, unemitted run
    | Claim(run: RunId, snap: Run)
    | DeleteRow                                                        // Store.Delete

  datatype Proc = Proc(id: Id, locked: bool, todo: seq<Op>)

  datatype State = State(store: Store, procs: map<Process, Proc>, log: seq<Emission>)

  const Init := State(Store(map[], map[], 0), map[], [])

  /** What one operation meets: the clock, whether it fails, and the answers of tmux and the disk. */
  datatype World = World(now: int, fails: bool, live: bool, resumable: bool, young: bool, expired: bool,
                         qualifies: bool,
                         found: Option<RunId>, listed: seq<RunId>)

  datatype Action =
    | BeginEnsure(p: Process, id: Id)
    | BeginClose(p: Process, id: Id, reason: string, purge: bool)
    | BeginReapDead(p: Process, id: Id)
    | BeginReapClose(p: Process, id: Id, reason: string)
    | BeginEndHook(p: Process, id: Id)
    | BeginSweep(p: Process)
    | Step(p: Process, w: World)
    | Die(p: Process)
    | StartHookUpsert(id: Id, now: int)
    | ActivityHook(id: Id, now: int)

  // ---------------------------------------------------------------- the programs

  function CloseOps(reason: string, purge: bool): seq<Op> {
    (if purge then [] else [SetCloseReason(reason)])
    + [SetPendingReason(reason), Teardown, EndOpenRun(None, reason, ByClose)]
    + (if purge then [DeleteSession] else [EmitEndedRuns])
  }

  function StartRunOps(lastActivityAt: int): seq<Op> {
    [EndOpenRun(Some(lastActivityAt), "exited", ByReaper), OpenRun]
  }

  function ClaimOps(st: Store, listed: seq<RunId>): seq<Op>
    requires forall r :: r in listed ==> r in st.runs
    ensures |ClaimOps(st, listed)| == |listed|
    ensures forall k :: 0 <= k < |listed| ==> ClaimOps(st, listed)[k] == Claim(listed[k], st.runs[listed[k]])
  {
    seq(|listed|, k requires 0 <= k < |listed| => Claim(listed[k], st.runs[listed[k]]))
  }

  // ---------------------------------------------------------------- store reads

  predicate OpenOf(st: Store, id: Id, r: RunId) {
    r in st.runs && st.runs[r].session == id && st.runs[r].IsOpen()
  }

  /** OpenRunFor: the newest open run, if there is one. */
  ghost predicate IsOpenRunFor(st: Store, id: Id, found: Option<RunId>) {
    match found
    case None => forall r :: !OpenOf(st, id, r)
    case Some(r) => OpenOf(st, id, r) && forall q: RunId :: OpenOf(st, id, q) ==> q <= r
  }

  predicate Unemitted(st: Store, r: RunId) {
    r in st.runs && !st.runs[r].ReadsOpen() && !st.runs[r].emitted
  }

  /** RunsFor filtered as emitEndedRuns does. */
  ghost predicate ListsEnded(st: Store, id: Id, listed: seq<RunId>) {
    forall r :: r in listed <==> Unemitted(st, r) && st.runs[r].session == id
  }

  /** RunsPendingEmission: its ended test is the store's, not the reader's. */
  ghost predicate ListsPending(st: Store, listed: seq<RunId>) {
    forall r :: r in listed <==> r in st.runs && !st.runs[r].IsOpen() && !st.runs[r].emitted
  }

  // ---------------------------------------------------------------- one operation

  function Running(s: State, p: Process): bool {
    p in s.procs && s.procs[p].todo != []
  }

  ghost predicate LockFree(s: State, id: Id) {
    forall p :: p in s.procs ==> !(s.procs[p].locked && s.procs[p].id == id)
  }

  ghost predicate Enabled(s: State, a: Action) {
    match a
    case BeginEnsure(p, id) => p !in s.procs && LockFree(s, id)
    case BeginClose(p, id, _, _) => p !in s.procs && LockFree(s, id)
    case BeginReapDead(p, id) => p !in s.procs && LockFree(s, id)
    case BeginReapClose(p, id, _) => p !in s.procs && LockFree(s, id)
    case BeginEndHook(p, _) => p !in s.procs
    case BeginSweep(p) => p !in s.procs
    case Step(p, w) =>
      && Running(s, p) && w.now > 0
      && var op, id := s.procs[p].todo[0], s.procs[p].id;
         && (op.EndOpenRun? ==> IsOpenRunFor(s.store, id, w.found))
         && (op.EmitEndedRuns? ==> ListsEnded(s.store, id, w.listed))
         && (op.EmitPendingRuns? ==> ListsPending(s.store, w.listed))
    case Die(p) => p in s.procs
    case StartHookUpsert(_, now) => now > 0
    case ActivityHook(_, now) => now > 0
  }

  /** Whether the operation itself returns an error: a refused reason, a missing row, a unique-key clash. */
  predicate Rejected(st: Store, id: Id, op: Op) {
    match op
    case SetCloseReason(r) => r !in CLOSE_REASONS || id !in st.rows
    case OpenRun => id !in st.rows
    case Touch => id !in st.rows
    case Insert => id in st.rows
    case _ => false
  }

  /** The store after the operation. */
  function Effect(st: Store, id: Id, op: Op, w: World): Store
    requires !Rejected(st, id, op)
  {
    match op
    case SetCloseReason(r) => st.(rows := st.rows[id := st.rows[id].(closeReason := r)])
    case SetPendingReason(r) =>
      st.(runs := map q | q in st.runs :: if OpenOf(st, id, q) then st.runs[q].(endReason := r) else st.runs[q])
    case FinalizeRun(r, at, reason, source) =>
      if r in st.runs && st.runs[r].IsOpen() then
        var pending := st.runs[r].endReason;
        st.(runs := st.runs[r := st.runs[r].(endedAt := Some(at), endSource := source,
                                             endReason := if pending != "" then pending else reason)])
      else st
    case OpenRun =>
      st.(runs := st.runs[st.nextRun := Run(id, w.now, None, "", Pending, false)], nextRun := st.nextRun + 1)
    case Touch => st.(rows := st.rows[id := st.rows[id].(lastActivityAt := w.now)])
    case Insert => st.(rows := st.rows[id := Row(w.now, "")])
    case Claim(r, _) =>
      if Wins(st, r) then st.(runs := st.runs[r := st.runs[r].(emitted := true)]) else st
    case DeleteRow =>
      if id in st.rows then st.(rows := st.rows - {id}, runs := map q | q in st.runs && st.runs[q].session != id ::
        st.runs[q])
      else st
    case _ => st
  }

  /** ClaimRunEmission's WHERE clause. */
  predicate Wins(st: Store, r: RunId) {
    r in st.runs && !st.runs[r].emitted && !st.runs[r].IsOpen()
  }

  /** The operations the process puts in front of the rest of its list. */
  function Next(st: Store, id: Id, op: Op, w: World): seq<Op>
    requires op.EmitEndedRuns? || op.EmitPendingRuns? ==> forall r :: r in w.listed ==> r in st.runs
  {
    match op
    case EnsureRow =>
      if w.live then []
      else if id in st.rows then
        if w.resumable || w.young then StartRunOps(st.rows[id].lastActivityAt) + [Touch]
        else [DeleteSession, Insert] + StartRunOps(0)
      else [Insert] + StartRunOps(0)
    case ReapRow =>
      if id !in st.rows || w.live || w.young then []
      else [EndOpenRun(Some(st.rows[id].lastActivityAt), "exited", ByReaper)]
           + (if !w.resumable || w.expired then [DeleteSession] else [])
    case RecheckRow(reason) => if id in st.rows && w.qualifies then CloseOps(reason, false) else []
    case DeleteSession =>
      if id in st.rows then [EndOpenRun(Some(st.rows[id].lastActivityAt), "exited", ByReaper), EmitEndedRuns, DeleteRow]
      else [DeleteRow]
    case EndOpenRun(at, reason, source) =>
      if w.found.Some? then [FinalizeRun(w.found.value, if at.None? then w.now else at.value, reason, source)] else []
    case EmitEndedRuns => ClaimOps(st, w.listed)
    case EmitPendingRuns => ClaimOps(st, w.listed)
    case _ => []
  }

  /** A failed claim of the sweep is logged and the sweep goes on; any other failed operation ends its process. */
  ghost function Apply(s: State, a: Action): State
    requires Enabled(s, a)
  {
    match a
    case BeginEnsure(p, id) => s.(procs := s.procs[p := Proc(id, true, [EnsureRow])])
    case BeginClose(p, id, reason, purge) => s.(procs := s.procs[p := Proc(id, true, CloseOps(reason, purge))])
    case BeginReapDead(p, id) => s.(procs := s.procs[p := Proc(id, true, [ReapRow])])
    case BeginReapClose(p, id, reason) => s.(procs := s.procs[p := Proc(id, true, [RecheckRow(reason)])])
    case BeginEndHook(p, id) => s.(procs := s.procs[p := Proc(id, false, [EndOpenRun(None, "exited", ByHook)])])
    case BeginSweep(p) => s.(procs := s.procs[p := Proc("", false, [EmitPendingRuns])])
    case Step(p, w) =>
      var Proc(id, locked, todo) := s.procs[p];
      var op := todo[0];
      if w.fails || Rejected(s.store, id, op) then
        if !locked && op.Claim? then s.(procs := s.procs[p := Proc(id, locked, todo[1..])])
        else s.(procs := s.procs - {p})
      else
        State(Effect(s.store, id, op, w),
              s.procs[p := Proc(id, locked, Next(s.store, id, op, w) + todo[1..])],
              if op.Claim? && Wins(s.store, op.run) then s.log + [EmissionOf(op.run, op.snap)] else s.log)
    case Die(p) => s.(procs := s.procs - {p})
    case StartHookUpsert(id, now) =>
      if id in s.store.rows then s else s.(store := s.store.(rows := s.store.rows[id := Row(now, "")]))
    case ActivityHook(id, now) =>
      if id in s.store.rows
      then s.(store := s.store.(rows := s.store.rows[id := s.store.rows[id].(lastActivityAt := now)]))
      else s
  }

  ghost predicate IsRun(acts: seq<Action>)
    decreases |acts|, 0
  {
    acts == [] || (IsRun(acts[..|acts| - 1]) && Enabled(After(acts[..|acts| - 1]), acts[|acts| - 1]))
  }

  ghost function After(acts: seq<Action>): State
    requires IsRun(acts)
    decreases |acts|, 1
  {
    if acts == [] then Init else Apply(After(acts[..|acts| - 1]), acts[|acts| - 1])
  }

  // ---------------------------------------------------------------- what the store keeps

  ghost predicate StoreInv(st: Store) {
    && (forall id :: id in st.rows ==> st.rows[id].lastActivityAt > 0)
    && (forall r :: r in st.runs ==> r < st.nextRun && st.runs[r].session in st.rows)
    && (forall r :: r in st.runs && st.runs[r].endedAt.Some? ==> st.runs[r].endedAt.value > 0)
    && (forall r :: r in st.runs && st.runs[r].emitted ==> !st.runs[r].IsOpen())
    && (forall id, r, q :: OpenOf(st, id, r) && OpenOf(st, id, q) ==> r == q)
  }

  ghost predicate Logged(log: seq<Emission>, r: RunId) {
    exists k :: 0 <= k < |log| && log[k].run == r
  }

  /** Every run ever opened is in the store or was emitted, nothing was emitted twice, and the flag in the store
      agrees with the log. */
  ghost predicate LogInv(st: Store, log: seq<Emission>) {
    && (forall j, k :: 0 <= j < k < |log| ==> log[j].run != log[k].run)
    && (forall k :: 0 <= k < |log| ==> log[k].run < st.nextRun)
    && (forall r :: r in st.runs ==> (st.runs[r].emitted <==> Logged(log, r)))
    && (forall r: RunId :: r < st.nextRun && r !in st.runs ==> Logged(log, r))
    && (forall k :: 0 <= k < |log| && log[k].run in st.runs ==> log[k] == EmissionOf(log[k].run, st.runs[log[k].run]))
  }

  // ---------------------------------------------------------------- what a lock holder knows

  /** What the holder of an id's lock can rely on about the runs of that id, whatever the lock-free processes do. */
  datatype Knowledge =
    | Nothing
    | Stamped(reason: string)       // an open run has this pending reason
    | OnlyOpen(run: RunId)          // no run but this one is open
    | NoneOpen
    | Owes(runs: set<RunId>)        // none is open and only these may be unemitted
    | NoRuns
  {
    predicate RulesOutOpen() { NoneOpen? || Owes? || NoRuns? }
  }

  ghost predicate Holds(k: Knowledge, st: Store, id: Id) {
    match k
    case Nothing => true
    case Stamped(reason) => forall r :: OpenOf(st, id, r) ==> st.runs[r].endReason == reason
    case OnlyOpen(q) => forall r :: OpenOf(st, id, r) ==> r == q
    case NoneOpen => forall r :: !OpenOf(st, id, r)
    case Owes(runs) =>
      && (forall r :: !OpenOf(st, id, r))
      && (forall r :: r in st.runs && st.runs[r].session == id && !st.runs[r].emitted ==> r in runs)
    case NoRuns => forall r :: r in st.runs ==> st.runs[r].session != id
  }

  predicate Decides(op: Op) { op.EnsureRow? || op.ReapRow? || op.RecheckRow? }

  /** What is known after the operation, or None when the operation must not be done knowing only `k`. */
  function Learn(k: Knowledge, op: Op): Option<Knowledge> {
    match op
    case EndOpenRun(at, reason, source) =>
      if source.ByClose? && k != Stamped(reason) then None
      else if k.NoRuns? then Some(NoRuns)
      else if at.Some? && at.value <= 0 then None
      else Some(NoneOpen)
    case FinalizeRun(r, at, _, _) => if at > 0 && k == OnlyOpen(r) then Some(NoneOpen) else None
    case OpenRun => if k.RulesOutOpen() then Some(Nothing) else None
    case Insert => Some(NoRuns)
    case EmitEndedRuns => if k.RulesOutOpen() then Some(Owes({})) else None
    case Claim(r, _) => Some(if k.Owes? then Owes(k.runs - {r}) else k)
    case DeleteSession => Some(NoRuns)
    case DeleteRow => if k.NoRuns? || k == Owes({}) then Some(NoRuns) else None
    case EmitPendingRuns => None
    case SetCloseReason(_) => Some(k)
    case SetPendingReason(reason) => Some(Stamped(reason))
    case Teardown => if k.Stamped? then Some(k) else None
    case Touch => Some(k)
    case _ => None
  }

  /** Knowing `k`, the operations to do never open a second run, never tear down before the stamp, and never delete
      a row that owes something. */
  predicate Careful(k: Knowledge, todo: seq<Op>)
    decreases |todo|
  {
    if todo == [] then true
    else if Decides(todo[0]) then |todo| == 1
    else Learn(k, todo[0]).Some? && Careful(Learn(k, todo[0]).value, todo[1..])
  }

  ghost predicate Sound(k: Knowledge, st: Store, id: Id, todo: seq<Op>) {
    Holds(k, st, id) && Careful(k, todo)
  }

  ghost predicate Harmless(op: Op) {
    match op
    case EndOpenRun(at, _, _) => at.None?
    case FinalizeRun(_, at, _, _) => at > 0
    case EmitPendingRuns => true
    case Claim(_, _) => true
    case _ => false
  }

  /** A snapshot a process still has to claim is the run as it ended. */
  predicate Faithful(st: Store, op: Op) {
    op.Claim? && op.run in st.runs ==>
      !st.runs[op.run].IsOpen() && op.snap.(emitted := st.runs[op.run].emitted) == st.runs[op.run]
  }

  ghost predicate ProcInv(st: Store, pr: Proc) {
    && (forall k :: 0 <= k < |pr.todo| ==> Faithful(st, pr.todo[k]))
    && (forall k :: 0 <= k < |pr.todo| && pr.todo[k].Claim? ==> pr.todo[k].run < st.nextRun)
    && (if pr.locked then exists k :: Sound(k, st, pr.id, pr.todo)
        else forall k :: 0 <= k < |pr.todo| ==> Harmless(pr.todo[k]))
  }

  ghost predicate Inv(s: State) {
    && StoreInv(s.store)
    && LogInv(s.store, s.log)
    && (forall p :: p in s.procs ==> ProcInv(s.store, s.procs[p]))
    && (forall p, q :: p in s.procs && q in s.procs && s.procs[p].locked && s.procs[q].locked ==>
          s.procs[p].id == s.procs[q].id ==> p == q)
  }

  // ---------------------------------------------------------------- one operation keeps the store's invariant

  /** What the store needs of the process that performs an operation. */
  ghost predicate Justified(st: Store, id: Id, op: Op) {
    && (op.OpenRun? ==> forall r :: !OpenOf(st, id, r))
    && (op.FinalizeRun? ==> op.endedAt > 0)
    && (op.DeleteRow? ==> forall r :: r in st.runs && st.runs[r].session == id ==> st.runs[r].emitted)
    && Faithful(st, op)
    && (op.Claim? ==> op.run < st.nextRun)
  }

  lemma EffectKeepsOneOpen(st: Store, id: Id, op: Op, w: World)
    requires StoreInv(st) && !Rejected(st, id, op) && Justified(st, id, op)
    ensures forall i, r, q :: OpenOf(Effect(st, id, op, w), i, r) && OpenOf(Effect(st, id, op, w), i, q) ==> r == q
  {
    var t := Effect(st, id, op, w);
    assert forall i, r :: OpenOf(t, i, r) ==> OpenOf(st, i, r) || (op.OpenRun? && i == id && r == st.nextRun);
  }

  lemma EffectKeepsStore(st: Store, id: Id, op: Op, w: World)
    requires StoreInv(st) && !Rejected(st, id, op) && w.now > 0 && Justified(st, id, op)
    ensures StoreInv(Effect(st, id, op, w))
  {
    EffectKeepsOneOpen(st, id, op, w);
    EffectKeepsColumns(st, id, op, w);
  }

  lemma EffectKeepsColumns(st: Store, id: Id, op: Op, w: World)
    requires StoreInv(st) && !Rejected(st, id, op) && w.now > 0 && Justified(st, id, op)
    ensures var t := Effect(st, id, op, w);
            && (forall i :: i in t.rows ==> t.rows[i].lastActivityAt > 0)
            && (forall r :: r in t.runs ==> r < t.nextRun && t.runs[r].session in t.rows)
            && (forall r :: r in t.runs && t.runs[r].endedAt.Some? ==> t.runs[r].endedAt.value > 0)
            && (forall r :: r in t.runs && t.runs[r].emitted ==> !t.runs[r].IsOpen())
  {
  }

  lemma LogAppended(log: seq<Emission>, e: Emission)
    ensures forall r :: Logged(log + [e], r) <==> Logged(log, r) || r == e.run
  {
    var longer := log + [e];
    assert longer[|log|] == e;
    forall r ensures Logged(longer, r) <==> Logged(log, r) || r == e.run {
      if Logged(log, r) {
        var k :| 0 <= k < |log| && log[k].run == r;
        assert longer[k].run == r;
      }
      if Logged(longer, r) && r != e.run {
        var k :| 0 <= k < |longer| && longer[k].run == r;
        assert log[k].run == r;
      }
    }
  }

  lemma ClaimKeepsLog(st: Store, id: Id, r: RunId, snap: Run, w: World, log: seq<Emission>)
    requires StoreInv(st) && LogInv(st, log) && Faithful(st, Claim(r, snap)) && r < st.nextRun && Wins(st, r)
    ensures LogInv(Effect(st, id, Claim(r, snap), w), log + [EmissionOf(r, snap)])
  {
    var longer, t := log + [EmissionOf(r, snap)], Effect(st, id, Claim(r, snap), w);
    LogAppended(log, EmissionOf(r, snap));
    forall k | 0 <= k < |log| ensures log[k].run != r { assert log[k].run == r ==> Logged(log, r); }
    forall k | 0 <= k < |longer| && longer[k].run in t.runs
      ensures longer[k] == EmissionOf(longer[k].run, t.runs[longer[k].run])
    {
      if k < |log| { assert longer[k] == log[k]; }
    }
  }

  /** No run's flag changes, an emitted run keeps its end or goes, and a run that goes was emitted. */
  ghost predicate KeepsFlags(st: Store, t: Store) {
    && (forall r :: r in t.runs && r in st.runs ==>
          t.runs[r].emitted == st.runs[r].emitted && (st.runs[r].emitted ==> t.runs[r] == st.runs[r]))
    && (forall r :: r in t.runs && r !in st.runs ==> r == st.nextRun && !t.runs[r].emitted)
    && (forall r :: r in st.runs && r !in t.runs ==> st.runs[r].emitted)
    && (t.nextRun == st.nextRun || (t.nextRun == st.nextRun + 1 && st.nextRun in t.runs))
  }

  lemma EffectKeepsFlags(st: Store, id: Id, op: Op, w: World)
    requires StoreInv(st) && !Rejected(st, id, op) && Justified(st, id, op)
    requires op.Claim? ==> !Wins(st, op.run)
    ensures KeepsFlags(st, Effect(st, id, op, w))
  {
  }

  lemma FlagsKeepLog(st: Store, t: Store, log: seq<Emission>)
    requires StoreInv(st) && LogInv(st, log) && KeepsFlags(st, t)
    ensures LogInv(t, log)
  {
    forall k | 0 <= k < |log| && log[k].run in t.runs ensures log[k] == EmissionOf(log[k].run, t.runs[log[k].run]) {
      assert Logged(log, log[k].run);
    }
  }

  lemma OtherKeepsLog(st: Store, id: Id, op: Op, w: World, log: seq<Emission>)
    requires StoreInv(st) && LogInv(st, log) && !Rejected(st, id, op) && Justified(st, id, op)
    requires op.Claim? ==> !Wins(st, op.run)
    ensures LogInv(Effect(st, id, op, w), log)
  {
    EffectKeepsFlags(st, id, op, w);
    FlagsKeepLog(st, Effect(st, id, op, w), log);
  }

  lemma FaithfulStays(st: Store, id: Id, op: Op, w: World, claim: Op)
    requires StoreInv(st) && !Rejected(st, id, op)
    requires Faithful(st, claim) && (claim.Claim? ==> claim.run < st.nextRun)
    ensures Faithful(Effect(st, id, op, w), claim)
    ensures claim.Claim? ==> claim.run < Effect(st, id, op, w).nextRun
  {
  }

  /** What a lock holder knows about its id survives every operation on another id and every lock-free one. */
  lemma KnowledgeStays(k: Knowledge, st: Store, mine: Id, id: Id, op: Op, w: World)
    requires Holds(k, st, mine) && StoreInv(st) && !Rejected(st, id, op)
    requires mine != id || Harmless(op)
    ensures Holds(k, Effect(st, id, op, w), mine)
  {
    var t := Effect(st, id, op, w);
    assert forall r :: OpenOf(t, mine, r) ==> OpenOf(st, mine, r);
  }

  // ---------------------------------------------------------------- one operation of a lock holder

  lemma {:induction false} CarefulThroughClaims(runs: set<RunId>, st: Store, listed: seq<RunId>, rest: seq<Op>)
    requires forall r :: r in listed ==> r in st.runs
    requires Careful(Owes({}), rest) && forall r :: r in runs ==> r in listed
    ensures Careful(Owes(runs), ClaimOps(st, listed) + rest)
    decreases |listed|
  {
    var claims := ClaimOps(st, listed);
    if listed == [] {
      assert claims + rest == rest && runs == {};
    } else {
      CarefulThroughClaims(runs - {listed[0]}, st, listed[1..], rest);
      assert ClaimOps(st, listed[1..]) == claims[1..];
      assert (claims + rest)[1..] == claims[1..] + rest;
    }
  }

  /** The world's answers fit the operation. */
  ghost predicate Answers(st: Store, id: Id, op: Op, w: World) {
    && w.now > 0
    && (op.EndOpenRun? ==> IsOpenRunFor(st, id, w.found))
    && (op.EmitEndedRuns? ==> ListsEnded(st, id, w.listed))
    && (op.EmitPendingRuns? ==> ListsPending(st, w.listed))
  }

  lemma SoundOpIsJustified(k: Knowledge, st: Store, id: Id, op: Op, rest: seq<Op>)
    requires StoreInv(st) && Sound(k, st, id, [op] + rest) && Faithful(st, op) && (op.Claim? ==> op.run < st.nextRun)
    ensures Justified(st, id, op)
  {
  }

  /** The row is read again before a delete, or a decision is taken: the new operations are careful from nothing. */
  lemma DecisionIsCareful(st: Store, id: Id, op: Op, w: World)
    requires StoreInv(st) && Decides(op)
    ensures Careful(if op.EnsureRow? && id !in st.rows then NoRuns else Nothing, Next(st, id, op, w))
  {
    match op
    case EnsureRow =>
      if id in st.rows {
        var at := st.rows[id].lastActivityAt;
        assert Careful(NoneOpen, [OpenRun, Touch]);
        assert Careful(Nothing, [EndOpenRun(Some(at), "exited", ByReaper), OpenRun, Touch]);
        assert StartRunOps(at) + [Touch] == [EndOpenRun(Some(at), "exited", ByReaper), OpenRun, Touch];
      }
      BrandNewIsCareful();
    case ReapRow =>
      if id in st.rows {
        var end := EndOpenRun(Some(st.rows[id].lastActivityAt), "exited", ByReaper);
        assert Careful(NoneOpen, [DeleteSession]);
        assert [end] + [DeleteSession] == [end, DeleteSession];
      }
    case RecheckRow(reason) => CloseIsCareful(reason, false);
  }

  lemma BrandNewIsCareful()
    ensures Careful(Nothing, [Insert] + StartRunOps(0))
    ensures Careful(NoRuns, [Insert] + StartRunOps(0))
    ensures Careful(Nothing, [DeleteSession, Insert] + StartRunOps(0))
  {
    assert Careful(NoRuns, [OpenRun]);
    assert StartRunOps(0)[1..] == [OpenRun];
    assert Careful(NoRuns, StartRunOps(0));
    assert ([Insert] + StartRunOps(0))[1..] == StartRunOps(0);
    assert ([DeleteSession, Insert] + StartRunOps(0))[1..] == [Insert] + StartRunOps(0);
  }

  lemma CarefulCons(k: Knowledge, op: Op, rest: seq<Op>)
    requires !Decides(op) && Learn(k, op).Some? && Careful(Learn(k, op).value, rest)
    ensures Careful(k, [op] + rest)
  {
    assert ([op] + rest)[1..] == rest;
  }

  lemma CloseIsCareful(reason: string, purge: bool)
    ensures Careful(Nothing, CloseOps(reason, purge))
  {
    var last := [if purge then DeleteSession else EmitEndedRuns];
    CarefulCons(NoneOpen, last[0], []);
    assert last == [last[0]] + [];
    CarefulCons(Stamped(reason), EndOpenRun(None, reason, ByClose), last);
    var end := [EndOpenRun(None, reason, ByClose)] + last;
    CarefulCons(Stamped(reason), Teardown, end);
    CarefulCons(Nothing, SetPendingReason(reason), [Teardown] + end);
    var body := [SetPendingReason(reason)] + ([Teardown] + end);
    CarefulCons(Nothing, SetCloseReason(reason), body);
    assert CloseOps(reason, purge) == if purge then body else [SetCloseReason(reason)] + body;
  }

  lemma ListingStaysSound(st: Store, id: Id, rest: seq<Op>, w: World)
    requires StoreInv(st) && ListsEnded(st, id, w.listed) && Careful(Owes({}), rest)
    requires forall r :: !OpenOf(st, id, r)
    ensures exists j :: Sound(j, st, id, ClaimOps(st, w.listed) + rest)
  {
    var runs := set r | r in w.listed;
    CarefulThroughClaims(runs, st, w.listed, rest);
    forall r | r in st.runs && st.runs[r].session == id && !st.runs[r].emitted ensures r in w.listed {
      assert !OpenOf(st, id, r);
      assert Unemitted(st, r);
    }
    assert Sound(Owes(runs), st, id, ClaimOps(st, w.listed) + rest);
  }

  lemma DeletingStaysSound(st: Store, id: Id, rest: seq<Op>, w: World)
    requires StoreInv(st) && Careful(NoRuns, rest)
    ensures exists j :: Sound(j, st, id, Next(st, id, DeleteSession, w) + rest)
  {
    var next := Next(st, id, DeleteSession, w);
    if id in st.rows {
      assert ([DeleteRow] + rest)[1..] == rest;
      assert ([EmitEndedRuns, DeleteRow] + rest)[1..] == [DeleteRow] + rest;
      assert Careful(NoneOpen, [EmitEndedRuns, DeleteRow] + rest);
      assert (next + rest)[1..] == [EmitEndedRuns, DeleteRow] + rest;
      assert Sound(Nothing, st, id, next + rest);
    } else {
      assert (next + rest)[1..] == rest;
      assert Sound(NoRuns, st, id, next + rest);
    }
  }

  /** After an operation that puts nothing in front, the holder knows what it should have learnt. */
  lemma LearntHolds(k: Knowledge, st: Store, id: Id, op: Op, w: World)
    requires StoreInv(st) && Holds(k, st, id) && !Rejected(st, id, op) && Learn(k, op).Some?
    requires !op.EndOpenRun? && !op.EmitEndedRuns? && !op.DeleteSession?
    ensures Holds(Learn(k, op).value, Effect(st, id, op, w), id)
  {
    var t := Effect(st, id, op, w);
    if op.FinalizeRun? {
      assert forall q :: OpenOf(t, id, q) ==> OpenOf(st, id, q) && q != op.run;
    } else {
      assert !op.OpenRun? ==> forall q :: OpenOf(t, id, q) ==> OpenOf(st, id, q);
      assert k.Owes? && op.Claim? ==> !OpenOf(st, id, op.run);
    }
  }

  lemma LockedStepStaysSound(k: Knowledge, st: Store, id: Id, op: Op, rest: seq<Op>, w: World)
    requires StoreInv(st) && Sound(k, st, id, [op] + rest) && !Rejected(st, id, op) && Answers(st, id, op, w)
    ensures exists j :: Sound(j, Effect(st, id, op, w), id, Next(st, id, op, w) + rest)
  {
    var t, next := Effect(st, id, op, w), Next(st, id, op, w);
    assert ([op] + rest)[1..] == rest;
    if Decides(op) {
      DecisionIsCareful(st, id, op, w);
      assert next + rest == next;
      assert Sound(if op.EnsureRow? && id !in st.rows then NoRuns else Nothing, t, id, next + rest);
    } else if op.EmitEndedRuns? {
      ListingStaysSound(st, id, rest, w);
    } else if op.DeleteSession? {
      DeletingStaysSound(st, id, rest, w);
    } else if op.EndOpenRun? && w.found.Some? {
      assert (next + rest)[1..] == rest;
      assert Sound(OnlyOpen(w.found.value), t, id, next + rest);
    } else {
      if !op.EndOpenRun? { LearntHolds(k, st, id, op, w); }
      assert next + rest == rest;
      assert Sound(Learn(k, op).value, t, id, next + rest);
    }
  }

  // ---------------------------------------------------------------- the inductive invariant

  lemma ProcSurvives(st: Store, pr: Proc, id: Id, op: Op, w: World)
    requires StoreInv(st) && ProcInv(st, pr) && !Rejected(st, id, op)
    requires pr.locked ==> pr.id != id || Harmless(op)
    ensures ProcInv(Effect(st, id, op, w), pr)
  {
    var t := Effect(st, id, op, w);
    forall k | 0 <= k < |pr.todo|
      ensures Faithful(t, pr.todo[k]) && (pr.todo[k].Claim? ==> pr.todo[k].run < t.nextRun) {
      FaithfulStays(st, id, op, w, pr.todo[k]);
    }
    if pr.locked {
      var k :| Sound(k, st, pr.id, pr.todo);
      KnowledgeStays(k, st, pr.id, id, op, w);
      assert Sound(k, t, pr.id, pr.todo);
    }
  }

  /** The operations a step puts in front stay claimable: their snapshots are of ended runs of this store. */
  lemma NewOpsAreFaithful(st: Store, id: Id, op: Op, w: World)
    requires StoreInv(st) && !Rejected(st, id, op) && Answers(st, id, op, w)
    ensures forall n :: n in Next(st, id, op, w) ==>
        Faithful(Effect(st, id, op, w), n) && (n.Claim? ==> n.run < Effect(st, id, op, w).nextRun)
    ensures Harmless(op) ==> forall n :: n in Next(st, id, op, w) ==> Harmless(n)
  {
    if op.EmitEndedRuns? || op.EmitPendingRuns? {
      var claims := ClaimOps(st, w.listed);
      forall n | n in claims ensures Faithful(st, n) && n.Claim? && n.run < st.nextRun {
        var k :| 0 <= k < |claims| && claims[k] == n;
        assert w.listed[k] in w.listed;
      }
    } else {
      assert forall n :: n in Next(st, id, op, w) ==> !n.Claim?;
    }
  }

  lemma StepperSurvives(s: State, p: Process, w: World)
    requires Inv(s) && Enabled(s, Step(p, w)) && !Rejected(s.store, s.procs[p].id, s.procs[p].todo[0])
    ensures Justified(s.store, s.procs[p].id, s.procs[p].todo[0])
    ensures var pr, op := s.procs[p], s.procs[p].todo[0];
            ProcInv(Effect(s.store, pr.id, op, w), Proc(pr.id, pr.locked, Next(s.store, pr.id, op, w) + pr.todo[1..]))
  {
    var Proc(id, locked, todo) := s.procs[p];
    var op, rest := todo[0], todo[1..];
    assert todo == [op] + rest;
    var t, next := Effect(s.store, id, op, w), Next(s.store, id, op, w);
    NewOpsAreFaithful(s.store, id, op, w);
    forall k | 0 <= k < |next + rest|
      ensures Faithful(t, (next + rest)[k]) && ((next + rest)[k].Claim? ==> (next + rest)[k].run < t.nextRun)
      ensures !locked ==> Harmless((next + rest)[k])
    {
      if k < |next| {
        assert next[k] in next;
      } else {
        var j := k - |next| + 1;
        assert (next + rest)[k] == todo[j];
        FaithfulStays(s.store, id, op, w, todo[j]);
      }
    }
    if locked {
      var k :| Sound(k, s.store, id, todo);
      SoundOpIsJustified(k, s.store, id, op, rest);
      LockedStepStaysSound(k, s.store, id, op, rest, w);
    }
  }

  lemma BegunKeepsInv(s: State, p: Process, pr: Proc)
    requires Inv(s) && p !in s.procs && (pr.locked ==> LockFree(s, pr.id) && Careful(Nothing, pr.todo))
    requires forall k :: 0 <= k < |pr.todo| ==> !pr.todo[k].Claim? && (!pr.locked ==> Harmless(pr.todo[k]))
    ensures Inv(s.(procs := s.procs[p := pr]))
  {
    assert pr.locked ==> Sound(Nothing, s.store, pr.id, pr.todo);
    assert ProcInv(s.store, pr);
  }

  lemma RowsDoNotMatter(st: Store, rows: map<Id, Row>, pr: Proc)
    requires ProcInv(st, pr)
    ensures ProcInv(st.(rows := rows), pr)
  {
    var t := st.(rows := rows);
    if pr.locked {
      var k :| Sound(k, st, pr.id, pr.todo);
      assert forall r :: OpenOf(t, pr.id, r) == OpenOf(st, pr.id, r);
      assert Sound(k, t, pr.id, pr.todo);
    }
  }

  lemma StepKeepsInv(s: State, p: Process, w: World)
    requires Inv(s) && Enabled(s, Step(p, w))
    ensures Inv(Apply(s, Step(p, w)))
  {
    var Proc(id, locked, todo) := s.procs[p];
    var op, t := todo[0], Apply(s, Step(p, w));
    if w.fails || Rejected(s.store, id, op) {
      if !locked && op.Claim? {
        assert forall k :: 0 <= k < |todo[1..]| ==> todo[1..][k] == todo[k + 1];
      }
    } else {
      StepperSurvives(s, p, w);
      EffectKeepsStore(s.store, id, op, w);
      if op.Claim? && Wins(s.store, op.run) {
        ClaimKeepsLog(s.store, id, op.run, op.snap, w, s.log);
      } else {
        OtherKeepsLog(s.store, id, op, w, s.log);
      }
      forall q | q in t.procs && q != p ensures ProcInv(t.store, t.procs[q]) {
        if !locked { assert Harmless(todo[0]); }
        ProcSurvives(s.store, s.procs[q], id, op, w);
      }
    }
  }

  lemma NewRowsKeepInv(s: State, rows: map<Id, Row>)
    requires Inv(s) && s.store.rows.Keys <= rows.Keys && forall id :: id in rows ==> rows[id].lastActivityAt > 0
    ensures Inv(s.(store := s.store.(rows := rows)))
  {
    var t := s.(store := s.store.(rows := rows));
    forall q | q in t.procs ensures ProcInv(t.store, t.procs[q]) { RowsDoNotMatter(s.store, rows, s.procs[q]); }
    assert forall i, r :: OpenOf(t.store, i, r) == OpenOf(s.store, i, r);
    assert LogInv(t.store, t.log);
  }

  lemma ActionKeepsInv(s: State, a: Action)
    requires Inv(s) && Enabled(s, a)
    ensures Inv(Apply(s, a))
  {
    match a
    case Step(p, w) => StepKeepsInv(s, p, w);
    case Die(p) => DeathKeepsInv(s, p);
    case StartHookUpsert(_, _) => NewRowsKeepInv(s, Apply(s, a).store.rows);
    case ActivityHook(_, _) => NewRowsKeepInv(s, Apply(s, a).store.rows);
    case BeginClose(p, id, reason, purge) =>
      CloseIsCareful(reason, purge);
      BegunKeepsInv(s, p, Proc(id, true, CloseOps(reason, purge)));
    case BeginEnsure(p, id) => BegunKeepsInv(s, p, Proc(id, true, [EnsureRow]));
    case BeginReapDead(p, id) => BegunKeepsInv(s, p, Proc(id, true, [ReapRow]));
    case BeginReapClose(p, id, reason) => BegunKeepsInv(s, p, Proc(id, true, [RecheckRow(reason)]));
    case BeginEndHook(p, id) => BegunKeepsInv(s, p, Proc(id, false, [EndOpenRun(None, "exited", ByHook)]));
    case BeginSweep(p) => BegunKeepsInv(s, p, Proc("", false, [EmitPendingRuns]));
  }

  lemma DeathKeepsInv(s: State, p: Process)
    requires Inv(s)
    ensures Inv(s.(procs := s.procs - {p}))
  {
  }

  lemma {:induction false} RunKeepsInv(acts: seq<Action>)
    requires IsRun(acts)
    ensures Inv(After(acts))
  {
    if acts == [] {
    } else {
      RunKeepsInv(acts[..|acts| - 1]);
      ActionKeepsInv(After(acts[..|acts| - 1]), acts[|acts| - 1]);
    }
  }

  // ---------------------------------------------------------------- safety over every interleaving

  /** A session never has two open runs, and each run's emission is claimed at most once and only after it ended. */
  lemma RunsAreExclusiveAndEmittedOnce(acts: seq<Action>)
    requires IsRun(acts)
    ensures var s := After(acts);
            && (forall id, r, q :: OpenOf(s.store, id, r) && OpenOf(s.store, id, q) ==> r == q)
            && (forall j, k :: 0 <= j < k < |s.log| ==> s.log[j].run != s.log[k].run)
            && (forall r :: Logged(s.log, r) && r in s.store.runs ==> !s.store.runs[r].IsOpen())
            && (forall r :: r in s.store.runs ==> s.store.runs[r].ReadsOpen() == s.store.runs[r].IsOpen())
  {
    RunKeepsInv(acts);
  }

  /** No run is ever lost: every run opened so far is still in the store or has been emitted, whoever deleted its
      session and whichever process ended it. */
  lemma NoRunIsLost(acts: seq<Action>, r: RunId)
    requires IsRun(acts) && r < After(acts).store.nextRun
    ensures r in After(acts).store.runs || Logged(After(acts).log, r)
  {
    RunKeepsInv(acts);
  }

  /** When a process is about to delete a session row, every run of that session has ended and been emitted, with
      the lock-free hook and sweep still running. */
  lemma DeleteIsLast(acts: seq<Action>, p: Process)
    requires IsRun(acts) && Running(After(acts), p) && After(acts).procs[p].todo[0].DeleteRow?
    ensures var s, id := After(acts), After(acts).procs[p].id;
            forall r :: r in s.store.runs && s.store.runs[r].session == id ==>
              !s.store.runs[r].IsOpen() && s.store.runs[r].emitted && Logged(s.log, r)
  {
    RunKeepsInv(acts);
    var s := After(acts);
    var pr := s.procs[p];
    assert !Harmless(pr.todo[0]);
    var k :| Sound(k, s.store, pr.id, pr.todo);
    assert Learn(k, DeleteRow).Some?;
  }

  /** What an emission recorded is the run's final end: its pending or given reason and its own duration. */
  lemma EmissionsRecordTheEnd(acts: seq<Action>, k: nat)
    requires IsRun(acts) && k < |After(acts).log| && After(acts).log[k].run in After(acts).store.runs
    ensures var e, run := After(acts).log[k], After(acts).store.runs[After(acts).log[k].run];
            && run.endedAt.Some?
            && e.result == (if run.endReason in CLOSE_REASONS then run.endReason else "exited")
            && e.duration == (if run.endedAt.value < run.startedAt then 0 else run.endedAt.value - run.startedAt)
  {
    RunKeepsInv(acts);
    assert Logged(After(acts).log, After(acts).log[k].run);
  }

  /** The process is in the part of a close for `reason` that tears the session down and then ends its run. */
  predicate TearsDown(pr: Proc, reason: string) {
    var end := EndOpenRun(None, reason, ByClose);
    pr.locked && ((|pr.todo| >= 1 && pr.todo[0] == end)
      || (|pr.todo| >= 2 && pr.todo[0].Teardown? && pr.todo[1] == end))
  }

  /** While a close tears its session down, an open run already carries the close's reason: the SessionEnd hook that
      the teardown provokes, or any other process, can only end it with that reason. */
  lemma CloseStampsBeforeTeardown(acts: seq<Action>, p: Process, reason: string, r: RunId)
    requires IsRun(acts) && p in After(acts).procs && TearsDown(After(acts).procs[p], reason)
    requires OpenOf(After(acts).store, After(acts).procs[p].id, r)
    ensures After(acts).store.runs[r].endReason == reason
  {
    RunKeepsInv(acts);
    var s := After(acts);
    var pr := s.procs[p];
    var k :| Sound(k, s.store, pr.id, pr.todo);
    assert pr.todo[0].Teardown? ==> Careful(k, pr.todo[1..]) && pr.todo[1..][0] == pr.todo[1];
    assert k == Stamped(reason);
  }

  /** The action stamps a pending reason on the open run of `id`. */
  predicate Stamps(s: State, a: Action, id: Id) {
    a.Step? && Running(s, a.p) && s.procs[a.p].id == id && s.procs[a.p].todo[0].SetPendingReason?
  }

  lemma EffectKeepsEnds(st: Store, id: Id, op: Op, w: World, r: RunId)
    requires StoreInv(st) && !Rejected(st, id, op) && r in st.runs && r in Effect(st, id, op, w).runs
    ensures var before, now := st.runs[r], Effect(st, id, op, w).runs[r];
            && now.session == before.session && now.startedAt == before.startedAt
            && (!before.IsOpen() ==> now.(emitted := before.emitted) == before)
            && (before.emitted ==> now.emitted)
            && (before.endReason != "" && !(op.SetPendingReason? && before.session == id) ==>
               now.endReason == before.endReason)
  {
    assert OpenOf(st, st.runs[r].session, r) <==> st.runs[r].IsOpen();
  }

  /** One action: an ended run keeps its end, a pending reason wins over the reason of whoever ends the run, and
      only a stamp changes it before. */
  lemma ActionKeepsEnds(s: State, a: Action, r: RunId)
    requires Inv(s) && Enabled(s, a) && r in s.store.runs && r in Apply(s, a).store.runs
    ensures var before, now := s.store.runs[r], Apply(s, a).store.runs[r];
            && now.session == before.session && now.startedAt == before.startedAt
            && (!before.IsOpen() ==> now.(emitted := before.emitted) == before)
            && (before.emitted ==> now.emitted)
            && (before.endReason != "" && !Stamps(s, a, before.session) ==> now.endReason == before.endReason)
  {
    if a.Step? && Apply(s, a).store != s.store {
      EffectKeepsEnds(s.store, s.procs[a.p].id, s.procs[a.p].todo[0], a.w, r);
    }
  }

  ghost predicate NoStampOf(acts: seq<Action>, more: seq<Action>, id: Id)
    requires IsRun(acts + more)
    decreases |more|
  {
    more == [] ||
    (var less := more[..|more| - 1];
     assert (acts + more)[..|acts + more| - 1] == acts + less;
     NoStampOf(acts, less, id) && !Stamps(After(acts + less), more[|more| - 1], id))
  }

  /** Once deleted, a run does not come back: run ids are never reused. */
  lemma RunIdsAreNotReused(s: State, a: Action, r: RunId)
    requires Inv(s) && Enabled(s, a) && r < s.store.nextRun
    ensures r in Apply(s, a).store.runs ==> r in s.store.runs
    ensures s.store.nextRun <= Apply(s, a).store.nextRun
  {
    if a.Step? && Apply(s, a).store != s.store {
      EffectReusesNoId(s.store, s.procs[a.p].id, s.procs[a.p].todo[0], a.w, r);
    }
  }

  lemma EffectReusesNoId(st: Store, id: Id, op: Op, w: World, r: RunId)
    requires !Rejected(st, id, op) && r < st.nextRun
    ensures r in Effect(st, id, op, w).runs ==> r in st.runs
    ensures st.nextRun <= Effect(st, id, op, w).nextRun
  {
  }

  /** Over every continuation: a finalized run never changes its end, and a run that had a pending reason ends with
      that reason unless a later close of the same session re-stamped it, whichever process finalizes it. */
  lemma {:induction false} EndsAreFinalAndPendingWins(acts: seq<Action>, more: seq<Action>, r: RunId)
    requires IsRun(acts) && IsRun(acts + more) && r in After(acts).store.runs && r in After(acts + more).store.runs
    ensures var before, now := After(acts).store.runs[r], After(acts + more).store.runs[r];
            && now.session == before.session
            && (!before.IsOpen() ==> now.(emitted := before.emitted) == before)
            && (before.endReason != "" && NoStampOf(acts, more, before.session) ==> now.endReason == before.endReason)
    decreases |more|
  {
    if more == [] {
      assert acts + more == acts;
    } else {
      var less := more[..|more| - 1];
      assert (acts + more)[..|acts + more| - 1] == acts + less;
      StillThere(acts, less, r);
      RunKeepsInv(acts + less);
      RunIdsAreNotReused(After(acts + less), more[|more| - 1], r);
      EndsAreFinalAndPendingWins(acts, less, r);
      ActionKeepsEnds(After(acts + less), more[|more| - 1], r);
    }
  }

  lemma {:induction false} StillThere(acts: seq<Action>, more: seq<Action>, r: RunId)
    requires IsRun(acts) && IsRun(acts + more) && r in After(acts).store.runs
    ensures r < After(acts + more).store.nextRun
    decreases |more|
  {
    if more == [] {
      assert acts + more == acts;
      RunKeepsInv(acts);
    } else {
      var less := more[..|more| - 1];
      assert (acts + more)[..|acts + more| - 1] == acts + less;
      StillThere(acts, less, r);
      RunKeepsInv(acts + less);
      RunIdsAreNotReused(After(acts + less), more[|more| - 1], r);
    }
  }
}

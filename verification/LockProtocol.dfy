module LockProtocol {
  // The per-name advisory lock and its unlinking garbage collector.
  //
  // `Lock` opens <dir>/<name>.lock, takes the flock on the inode it opened and then re-checks that the path
  // still names that inode; `RemoveIfFree` unlinks only while it holds the flock of the inode it unlinks.
  // Here every system call of either is one atomic action of one caller, and any number of callers interleave
  // in any order and may crash between any two actions.
  //
  // A caller is one call of `Lock` or `RemoveIfFree`: a flock belongs to the descriptor that call opened, so
  // two calls of one process exclude each other like calls of two processes. Inode numbers may be recycled:
  // a new file may get any number that no path names and no open descriptor refers to.

  type Caller = nat
  type Name = string
  type Inode = nat

  datatype Phase =
    | Idle
    // inside Lock
    | Opening                   // about to open with O_CREATE; also where the retry loop comes back to
    | Waiting(ino: Inode)       // descriptor open, flock not yet granted
    | Locked(ino: Inode)        // flock granted, path not yet re-checked
    | Stale(ino: Inode)         // re-check or one of its stats failed, about to unlock
    | Holding(ino: Inode)       // Lock returned
    // inside RemoveIfFree
    | Probing                   // about to open without O_CREATE
    | Trying(ino: Inode)        // descriptor open, about to try the non-blocking flock
    | Checking(ino: Inode)      // flock granted, about to re-check the path
    | Confirming(ino: Inode)    // path re-checked, about to call confirm
    | Unlinking(ino: Inode)     // confirm approved, about to unlink
    | Closing(ino: Inode)       // about to close, which drops the flock
  {
    /** The inode of the caller's open descriptor is `i`. */
    predicate Refers(i: Inode) {
      !Idle? && !Opening? && !Probing? && ino == i
    }

    /** The caller's descriptor owns the flock of inode `i`. */
    predicate Owns(i: Inode) {
      Refers(i) && !Waiting? && !Trying?
    }

    /** The caller has seen, under the flock, that the path names its inode. */
    predicate Verified(i: Inode) {
      (Holding? || Confirming? || Unlinking?) && ino == i
    }
  }

  datatype Local = Local(name: Name, phase: Phase)

  /** `paths`: the lock file each name has; `owner`: the caller whose descriptor owns an inode's flock;
      `rows`: the names that have a session row in the store. */
  datatype State = State(paths: map<Name, Inode>, owner: map<Inode, Caller>, callers: map<Caller, Local>,
                         rows: set<Name>)

  datatype Action =
    | StartLock(c: Caller, n: Name)
    | Open(c: Caller, newIno: Inode)
    | Acquire(c: Caller)
    | Verify(c: Caller, statOk: bool)  // statOk: neither the descriptor's stat nor the path's fails
    | Retry(c: Caller)
    | Release(c: Caller)
    | StartRemove(c: Caller, n: Name)
    | Probe(c: Caller)
    | TryLock(c: Caller)
    | Check(c: Caller, statOk: bool)
    | Confirm(c: Caller, aged: bool)   // aged: the age re-check passes
    | Unlink(c: Caller)
    | Close(c: Caller)
    | Crash(c: Caller)
    | InsertRow(c: Caller)
    | DeleteRow(c: Caller)
    | HookUpsert(n: Name)             // the SessionStart hook's insert, which takes no lock

  const Init := State(map[], map[], map[], {})

  function At(s: State, c: Caller): Local {
    if c in s.callers then s.callers[c] else Local("", Idle)
  }

  function PhaseOf(s: State, c: Caller): Phase {
    At(s, c).phase
  }

  predicate Names(s: State, n: Name, i: Inode) {
    n in s.paths && s.paths[n] == i
  }

  ghost predicate InUse(s: State, i: Inode) {
    (exists n :: Names(s, n, i)) || (exists c :: PhaseOf(s, c).Refers(i))
  }

  ghost predicate Enabled(s: State, a: Action) {
    match a
    case StartLock(c, _) => PhaseOf(s, c).Idle?
    case Open(c, newIno) => PhaseOf(s, c).Opening? && (At(s, c).name in s.paths || !InUse(s, newIno))
    case Acquire(c) => PhaseOf(s, c).Waiting? && PhaseOf(s, c).ino !in s.owner
    case Verify(c, _) => PhaseOf(s, c).Locked?
    case Retry(c) => PhaseOf(s, c).Stale?
    case Release(c) => PhaseOf(s, c).Holding?
    case StartRemove(c, _) => PhaseOf(s, c).Idle?
    case Probe(c) => PhaseOf(s, c).Probing?
    case TryLock(c) => PhaseOf(s, c).Trying?
    case Check(c, _) => PhaseOf(s, c).Checking?
    case Confirm(c, _) => PhaseOf(s, c).Confirming?
    case Unlink(c) => PhaseOf(s, c).Unlinking?
    case Close(c) => PhaseOf(s, c).Closing?
    case Crash(c) => !PhaseOf(s, c).Idle?
    case InsertRow(c) => PhaseOf(s, c).Holding?
    case DeleteRow(c) => PhaseOf(s, c).Holding?
    case HookUpsert(_) => true
  }

  function Go(s: State, c: Caller, p: Phase): State {
    s.(callers := s.callers[c := At(s, c).(phase := p)])
  }

  function Unlock(s: State, c: Caller): State {
    s.(owner := map i | i in s.owner && s.owner[i] != c :: s.owner[i])
  }

  ghost function Apply(s: State, a: Action): State
    requires Enabled(s, a)
  {
    match a
    case StartLock(c, n) => s.(callers := s.callers[c := Local(n, Opening)])
    case Open(c, newIno) =>
      var n := At(s, c).name;
      if n in s.paths then Go(s, c, Waiting(s.paths[n]))
      else Go(s.(paths := s.paths[n := newIno]), c, Waiting(newIno))
    case Acquire(c) => var i := PhaseOf(s, c).ino; Go(s.(owner := s.owner[i := c]), c, Locked(i))
    case Verify(c, statOk) =>
      var i := PhaseOf(s, c).ino;
      Go(s, c, if statOk && Names(s, At(s, c).name, i) then Holding(i) else Stale(i))
    case Retry(c) => Go(Unlock(s, c), c, Opening)
    case Release(c) => Go(Unlock(s, c), c, Idle)
    case StartRemove(c, n) => s.(callers := s.callers[c := Local(n, Probing)])
    case Probe(c) =>
      var n := At(s, c).name;
      Go(s, c, if n in s.paths then Trying(s.paths[n]) else Idle)
    case TryLock(c) =>
      var i := PhaseOf(s, c).ino;
      if i in s.owner then Go(s, c, Idle) else Go(s.(owner := s.owner[i := c]), c, Checking(i))
    case Check(c, statOk) =>
      var i := PhaseOf(s, c).ino;
      Go(s, c, if statOk && Names(s, At(s, c).name, i) then Confirming(i) else Closing(i))
    case Confirm(c, aged) =>
      var i := PhaseOf(s, c).ino;
      Go(s, c, if aged && At(s, c).name !in s.rows then Unlinking(i) else Closing(i))
    case Unlink(c) => Go(s.(paths := s.paths - {At(s, c).name}), c, Closing(PhaseOf(s, c).ino))
    case Close(c) => Go(Unlock(s, c), c, Idle)
    case Crash(c) => Go(Unlock(s, c), c, Idle)
    case InsertRow(c) => s.(rows := s.rows + {At(s, c).name})
    case DeleteRow(c) => s.(rows := s.rows - {At(s, c).name})
    case HookUpsert(n) => s.(rows := s.rows + {n})
  }

  /** A finite run from the empty lock directory, as the actions taken in order. */
  ghost predicate Run(acts: seq<Action>)
    decreases |acts|, 0
  {
    acts == [] || (Run(acts[..|acts| - 1]) && Enabled(After(acts[..|acts| - 1]), acts[|acts| - 1]))
  }

  ghost function After(acts: seq<Action>): State
    requires Run(acts)
    decreases |acts|, 1
  {
    if acts == [] then Init else Apply(After(acts[..|acts| - 1]), acts[|acts| - 1])
  }

  // ---------------------------------------------------------------- the inductive invariant

  /** The flock table says exactly which descriptors own a flock, and every verified caller's path still names
      its inode. */
  ghost predicate Inv(s: State) {
    && (forall c, i :: PhaseOf(s, c).Owns(i) ==> i in s.owner && s.owner[i] == c)
    && (forall i :: i in s.owner ==> PhaseOf(s, s.owner[i]).Owns(i))
    && (forall c, i :: PhaseOf(s, c).Verified(i) ==> Names(s, At(s, c).name, i))
  }

  lemma StepKeepsOwners(s: State, a: Action)
    requires Inv(s) && Enabled(s, a)
    ensures forall c, i :: PhaseOf(Apply(s, a), c).Owns(i) ==> i in Apply(s, a).owner && Apply(s, a).owner[i] == c
  {
    var t := Apply(s, a);
    forall c, i | PhaseOf(t, c).Owns(i) ensures i in t.owner && t.owner[i] == c {
      if !a.HookUpsert? && c == a.c {
      } else {
        assert PhaseOf(s, c).Owns(i);
      }
    }
  }

  lemma StepKeepsOwned(s: State, a: Action)
    requires Inv(s) && Enabled(s, a)
    ensures forall i :: i in Apply(s, a).owner ==> PhaseOf(Apply(s, a), Apply(s, a).owner[i]).Owns(i)
  {
    var t := Apply(s, a);
    forall i | i in t.owner ensures PhaseOf(t, t.owner[i]).Owns(i) {
      if i in s.owner { assert PhaseOf(s, s.owner[i]).Owns(i); }
    }
  }

  lemma OnlyOneVerified(s: State, c: Caller, i: Inode, d: Caller, j: Inode)
    requires Inv(s) && c != d
    requires PhaseOf(s, c).Verified(i) && PhaseOf(s, d).Verified(j)
    ensures At(s, c).name != At(s, d).name
  {
    assert PhaseOf(s, c).Owns(i) && PhaseOf(s, d).Owns(j);
    assert s.owner[i] == c && s.owner[j] == d;
    assert Names(s, At(s, c).name, i) && Names(s, At(s, d).name, j);
  }

  lemma StepKeepsVerifiedPaths(s: State, a: Action)
    requires Inv(s) && Enabled(s, a)
    ensures forall c, i :: PhaseOf(Apply(s, a), c).Verified(i) ==> Names(Apply(s, a), At(Apply(s, a), c).name, i)
  {
    var t := Apply(s, a);
    forall c, i | PhaseOf(t, c).Verified(i) ensures Names(t, At(t, c).name, i) {
      if !a.HookUpsert? && c == a.c {
        assert !a.Unlink?;
        if a.Confirm? || a.InsertRow? || a.DeleteRow? { assert PhaseOf(s, c).Verified(i); }
      } else {
        assert At(t, c) == At(s, c) && PhaseOf(s, c).Verified(i);
        assert Names(s, At(s, c).name, i) && PhaseOf(s, c).Owns(i);
        if a.Unlink? { OnlyOneVerified(s, c, i, a.c, PhaseOf(s, a.c).ino); }
      }
    }
  }

  lemma StepKeepsInv(s: State, a: Action)
    requires Inv(s) && Enabled(s, a)
    ensures Inv(Apply(s, a))
  {
    StepKeepsOwners(s, a);
    StepKeepsOwned(s, a);
    StepKeepsVerifiedPaths(s, a);
  }

  lemma {:induction false} RunKeepsInv(acts: seq<Action>)
    requires Run(acts)
    ensures Inv(After(acts))
  {
    if acts == [] {
    } else {
      RunKeepsInv(acts[..|acts| - 1]);
      StepKeepsInv(After(acts[..|acts| - 1]), acts[|acts| - 1]);
    }
  }

  // ---------------------------------------------------------------- safety of Lock

  /** In every interleaving at most one caller holds a verified lock of a name. While it is held the path names
      the inode that was locked, that caller owns its flock, and no remover of that name has got past its own
      path check. */
  lemma HeldLockIsExclusive(acts: seq<Action>, c: Caller)
    requires Run(acts) && PhaseOf(After(acts), c).Holding?
    ensures var s, n, i := After(acts), At(After(acts), c).name, PhaseOf(After(acts), c).ino;
            && Names(s, n, i) && i in s.owner && s.owner[i] == c
            && forall d :: d != c && At(s, d).name == n ==>
                 !PhaseOf(s, d).Holding? && !PhaseOf(s, d).Confirming? && !PhaseOf(s, d).Unlinking?
  {
    RunKeepsInv(acts);
    var s := After(acts);
    var n, i := At(s, c).name, PhaseOf(s, c).ino;
    assert PhaseOf(s, c).Verified(i) && PhaseOf(s, c).Owns(i);
    forall d | d != c && At(s, d).name == n
      ensures !PhaseOf(s, d).Holding? && !PhaseOf(s, d).Confirming? && !PhaseOf(s, d).Unlinking?
    {
      if PhaseOf(s, d).Holding? || PhaseOf(s, d).Confirming? || PhaseOf(s, d).Unlinking? {
        OnlyOneVerified(s, c, i, d, PhaseOf(s, d).ino);
      }
    }
  }

  /** Whatever any caller does next, a held lock's path goes on naming the locked inode until its holder acts. */
  lemma HeldPathSurvivesEveryStep(acts: seq<Action>, a: Action, c: Caller)
    requires Run(acts + [a]) && PhaseOf(After(acts), c).Holding?
    requires !a.HookUpsert? ==> a.c != c
    ensures Run(acts)
    ensures At(After(acts + [a]), c) == At(After(acts), c)
    ensures Names(After(acts + [a]), At(After(acts), c).name, PhaseOf(After(acts), c).ino)
  {
    assert (acts + [a])[..|acts + [a]| - 1] == acts;
    RunKeepsInv(acts + [a]);
    assert PhaseOf(After(acts + [a]), c).Verified(PhaseOf(After(acts), c).ino);
  }

  /** A remover unlinks exactly the inode whose flock it owns, and nobody holds that name's lock then. */
  lemma UnlinkIsSafe(acts: seq<Action>, c: Caller)
    requires Run(acts) && PhaseOf(After(acts), c).Unlinking?
    ensures var s, n := After(acts), At(After(acts), c).name;
            && Names(s, n, PhaseOf(s, c).ino)
            && PhaseOf(s, c).ino in s.owner && s.owner[PhaseOf(s, c).ino] == c
            && forall d :: At(s, d).name == n ==> !PhaseOf(s, d).Holding?
  {
    RunKeepsInv(acts);
    var s := After(acts);
    assert PhaseOf(s, c).Verified(PhaseOf(s, c).ino) && PhaseOf(s, c).Owns(PhaseOf(s, c).ino);
    forall d | At(s, d).name == At(s, c).name ensures !PhaseOf(s, d).Holding? {
      if PhaseOf(s, d).Holding? { HeldLockIsExclusive(acts, d); }
    }
  }

  /** A descriptor whose inode the path no longer names can never be verified later: the number cannot come back
      while the descriptor is open, so the caller's only way on is to drop it and retry. */
  lemma StaleDescriptorStaysStale(s: State, a: Action, c: Caller, i: Inode)
    requires Inv(s) && Enabled(s, a)
    requires PhaseOf(s, c).Refers(i) && !Names(s, At(s, c).name, i)
    requires PhaseOf(Apply(s, a), c).Refers(i)
    ensures !Names(Apply(s, a), At(s, c).name, i) && At(Apply(s, a), c).name == At(s, c).name
    ensures !PhaseOf(Apply(s, a), c).Holding?
  {
    if a.Open? && At(s, a.c).name == At(s, c).name && At(s, c).name !in s.paths {
      assert a.newIno != i;
    }
    assert PhaseOf(s, c).Holding? ==> PhaseOf(s, c).Verified(i);
  }

  /** From the action number `from` on the caller keeps a descriptor of that inode open. */
  ghost predicate KeepsOpen(acts: seq<Action>, from: nat, c: Caller, i: Inode) {
    forall k :: from <= k <= |acts| ==> Run(acts[..k]) && PhaseOf(After(acts[..k]), c).Refers(i)
  }

  /** As long as the caller keeps that descriptor open, whatever anyone does, the path does not come to name its inode
      and the caller does not come to hold the lock. */
  lemma {:induction false} StaleForGood(acts: seq<Action>, from: nat, c: Caller, i: Inode)
    requires Run(acts) && from <= |acts| && KeepsOpen(acts, from, c, i) && Run(acts[..from])
    requires !Names(After(acts[..from]), At(After(acts[..from]), c).name, i)
    ensures var s := After(acts);
            At(s, c).name == At(After(acts[..from]), c).name && !Names(s, At(s, c).name, i) && !PhaseOf(s, c).Holding?
  {
    assert acts[..|acts|] == acts;
    if from == |acts| {
      RunKeepsInv(acts);
      assert PhaseOf(After(acts), c).Holding? ==> PhaseOf(After(acts), c).Verified(i);
    } else {
      var front := acts[..|acts| - 1];
      assert front[..from] == acts[..from];
      forall k | from <= k <= |front| ensures Run(front[..k]) && PhaseOf(After(front[..k]), c).Refers(i) {
        assert front[..k] == acts[..k];
      }
      StaleForGood(front, from, c, i);
      RunKeepsInv(front);
      assert PhaseOf(After(acts[..|front|]), c).Refers(i) && PhaseOf(After(acts[..|acts|]), c).Refers(i);
      StaleDescriptorStaysStale(After(front), acts[|acts| - 1], c, i);
    }
  }

  /** With nobody in its way a caller gets the lock in three actions, whether or not the file exists. */
  lemma LockSucceedsAlone(s: State, c: Caller, newIno: Inode)
    requires Inv(s) && Enabled(s, Open(c, newIno))
    requires At(s, c).name in s.paths ==> s.paths[At(s, c).name] !in s.owner
    ensures var s1 := Apply(s, Open(c, newIno));
            && Enabled(s1, Acquire(c))
            && Enabled(Apply(s1, Acquire(c)), Verify(c, true))
            && PhaseOf(Apply(Apply(s1, Acquire(c)), Verify(c, true)), c).Holding?
  {
    var s1 := Apply(s, Open(c, newIno));
    assert newIno in s.owner ==> PhaseOf(s, s.owner[newIno]).Refers(newIno);
    assert PhaseOf(s1, c).ino !in s1.owner;
  }

  /** The same from the retry branch: a caller that found its inode replaced, left alone, locks the live file. */
  lemma RetryThenLocks(s: State, c: Caller, newIno: Inode)
    requires Inv(s) && PhaseOf(s, c).Stale?
    requires At(s, c).name in s.paths ==> s.paths[At(s, c).name] !in s.owner
    requires At(s, c).name !in s.paths ==> !InUse(Apply(s, Retry(c)), newIno)
    ensures var s0 := Apply(s, Retry(c));
            && Enabled(s0, Open(c, newIno))
            && var s1 := Apply(s0, Open(c, newIno));
            && Enabled(s1, Acquire(c))
            && Enabled(Apply(s1, Acquire(c)), Verify(c, true))
            && PhaseOf(Apply(Apply(s1, Acquire(c)), Verify(c, true)), c).Holding?
  {
    StepKeepsInv(s, Retry(c));
    LockSucceedsAlone(Apply(s, Retry(c)), c, newIno);
  }

  // ---------------------------------------------------------------- the retry loop cannot spin on its own

  function Retries(acts: seq<Action>, c: Caller): nat {
    if acts == [] then 0 else
      Retries(acts[..|acts| - 1], c) + if acts[|acts| - 1] == Retry(c) then 1 else 0
  }

  function Unlinks(acts: seq<Action>): nat {
    if acts == [] then 0 else
      Unlinks(acts[..|acts| - 1]) + if acts[|acts| - 1].Unlink? then 1 else 0
  }

  /** How often a stat of the caller's re-check failed. */
  function StatFailures(acts: seq<Action>, c: Caller): nat {
    if acts == [] then 0 else
      StatFailures(acts[..|acts| - 1], c) + if acts[|acts| - 1] == Verify(c, false) then 1 else 0
  }

  /** The caller is going to retry: its re-check failed, or it is inside Lock on an inode its path no longer names. */
  predicate Doomed(s: State, c: Caller) {
    var p := PhaseOf(s, c);
    p.Stale? || ((p.Waiting? || p.Locked?) && !Names(s, At(s, c).name, p.ino))
  }

  lemma StepKeepsDoomed(s: State, a: Action)
    requires Inv(s) && Enabled(s, a)
    ensures forall c :: !a.Unlink? && a != Verify(c, false) && Doomed(Apply(s, a), c) ==> Doomed(s, c)
    ensures a.Retry? ==> Doomed(s, a.c) && !Doomed(Apply(s, a), a.c)
  {
  }

  /** Each time a caller goes round Lock's loop, some lock file was unlinked in the run for it or a stat of its own
      failed: it cannot spin without one of these, whatever the schedule. */
  lemma {:induction false} EveryRetryHasItsUnlink(acts: seq<Action>, c: Caller)
    requires Run(acts)
    ensures Retries(acts, c) + (if Doomed(After(acts), c) then 1 else 0) <= Unlinks(acts) + StatFailures(acts, c)
  {
    if acts == [] {
    } else {
      var before, a := acts[..|acts| - 1], acts[|acts| - 1];
      EveryRetryHasItsUnlink(before, c);
      RunKeepsInv(before);
      StepKeepsDoomed(After(before), a);
    }
  }

  // ---------------------------------------------------------------- the lock GC and the session rows

  /** A lock-free hook insert of the remover's name came after the remover's confirm saw no row. */
  ghost predicate Slipped(acts: seq<Action>, c: Caller)
    requires Run(acts)
  {
    if acts == [] then false
    else
      var before, a := acts[..|acts| - 1], acts[|acts| - 1];
      if a.Confirm? && a.c == c then false
      else
        || (a.HookUpsert? && PhaseOf(After(before), c).Unlinking? && At(After(before), c).name == a.n)
        || Slipped(before, c)
  }

  /** The GC is about to unlink the lock file of an id that has a session row exactly when a lock-free hook insert
      slipped in after its confirm: no insert made under the lock can. */
  lemma {:induction false} GcRemovesRowedLockIffHookSlipped(acts: seq<Action>, c: Caller)
    requires Run(acts) && PhaseOf(After(acts), c).Unlinking?
    ensures At(After(acts), c).name in After(acts).rows <==> Slipped(acts, c)
  {
    var before, a := acts[..|acts| - 1], acts[|acts| - 1];
    var s := After(before);
    if PhaseOf(s, c).Unlinking? {
      GcRemovesRowedLockIffHookSlipped(before, c);
      UnlinkIsSafe(before, c);
      RowsWhileUnlinking(s, a, c);
    } else {
      assert a.Confirm? && a.c == c;
    }
  }

  lemma RowsWhileUnlinking(s: State, a: Action, c: Caller)
    requires Enabled(s, a) && PhaseOf(s, c).Unlinking? && PhaseOf(Apply(s, a), c).Unlinking?
    requires forall d :: At(s, d).name == At(s, c).name ==> !PhaseOf(s, d).Holding?
    ensures At(Apply(s, a), c) == At(s, c) && !(a.Confirm? && a.c == c)
    ensures At(s, c).name in Apply(s, a).rows <==>
            At(s, c).name in s.rows || (a.HookUpsert? && a.n == At(s, c).name)
  {
    if a.InsertRow? || a.DeleteRow? { assert At(s, a.c).name != At(s, c).name; }
  }

  /** When rows are inserted only under the verified lock, the GC never unlinks the lock file of an id that has a
      row, nor of one with an opener inside its critical section. */
  lemma {:induction false} GcIsSafeWithoutHookInserts(acts: seq<Action>, c: Caller)
    requires Run(acts) && PhaseOf(After(acts), c).Unlinking?
    requires forall k :: 0 <= k < |acts| ==> !acts[k].HookUpsert?
    ensures At(After(acts), c).name !in After(acts).rows
    ensures forall d :: At(After(acts), d).name == At(After(acts), c).name ==> !PhaseOf(After(acts), d).Holding?
  {
    GcRemovesRowedLockIffHookSlipped(acts, c);
    NoHookNoSlip(acts, c);
    UnlinkIsSafe(acts, c);
  }

  lemma {:induction false} NoHookNoSlip(acts: seq<Action>, c: Caller)
    requires Run(acts) && forall k :: 0 <= k < |acts| ==> !acts[k].HookUpsert?
    ensures !Slipped(acts, c)
  {
    if acts == [] {
    } else {
      NoHookNoSlip(acts[..|acts| - 1], c);
    }
  }

  lemma Extend(acts: seq<Action>, a: Action, t: State) returns (longer: seq<Action>)
    requires Run(acts) && Enabled(After(acts), a) && Apply(After(acts), a) == t
    ensures longer == acts + [a] && Run(longer) && After(longer) == t
  {
    longer := acts + [a];
    assert longer[..|longer| - 1] == acts;
  }

  lemma FirstLock() returns (acts: seq<Action>)
    ensures Run(acts) && After(acts) == State(map["a" := 7], map[7 := 0], map[0 := Local("a", Locked(7))], {})
  {
    acts := Extend([], StartLock(0, "a"), State(map[], map[], map[0 := Local("a", Opening)], {}));
    acts := Extend(acts, Open(0, 7), State(map["a" := 7], map[], map[0 := Local("a", Waiting(7))], {}));
    acts := Extend(acts, Acquire(0), State(map["a" := 7], map[7 := 0], map[0 := Local("a", Locked(7))], {}));
  }

  /** One lock and release of "a", which leaves its file behind. */
  lemma LockAndRelease() returns (acts: seq<Action>)
    ensures Run(acts) && After(acts) == State(map["a" := 7], map[], map[0 := Local("a", Idle)], {})
  {
    acts := FirstLock();
    acts := Extend(acts, Verify(0, true), State(map["a" := 7], map[7 := 0], map[0 := Local("a", Holding(7))], {}));
    acts := Extend(acts, Release(0), State(map["a" := 7], map[], map[0 := Local("a", Idle)], {}));
  }

  ghost function WithRemover(p: Phase, locked: bool, rows: set<Name>): State {
    State(map["a" := 7], if locked then map[7 := 1] else map[], map[0 := Local("a", Idle), 1 := Local("a", p)], rows)
  }

  lemma RemoverOpens() returns (acts: seq<Action>)
    ensures Run(acts) && After(acts) == WithRemover(Trying(7), false, {})
  {
    acts := LockAndRelease();
    acts := Extend(acts, StartRemove(1, "a"), WithRemover(Probing, false, {}));
    acts := Extend(acts, Probe(1), WithRemover(Trying(7), false, {}));
  }

  lemma RemoverLocks() returns (acts: seq<Action>)
    ensures Run(acts) && After(acts) == WithRemover(Confirming(7), true, {})
  {
    acts := RemoverOpens();
    acts := Extend(acts, TryLock(1), WithRemover(Checking(7), true, {}));
    acts := Extend(acts, Check(1, true), WithRemover(Confirming(7), true, {}));
  }

  /** The lock-free hook insert does break the GC's promise: a run that ends with the GC about to unlink the lock
      file of an id that has a row. */
  lemma HookInsertCanSlip() returns (acts: seq<Action>)
    ensures Run(acts) && PhaseOf(After(acts), 1).Unlinking? && At(After(acts), 1).name in After(acts).rows
  {
    acts := RemoverLocks();
    acts := Extend(acts, Confirm(1, true), WithRemover(Unlinking(7), true, {}));
    acts := Extend(acts, HookUpsert("a"), WithRemover(Unlinking(7), true, {"a"}));
  }
}

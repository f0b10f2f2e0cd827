module LockRemoval {
  // What the actions of the lock protocol change, and what a removal left alone comes to.

  import opened LockProtocol

  /** Only an unlink takes a name away, only an open gives one, and no action points a name elsewhere. */
  lemma OnlyUnlinkRemoves(s: State, a: Action, n: Name)
    requires Enabled(s, a)
    ensures n in s.paths && n !in Apply(s, a).paths <==> n in s.paths && a.Unlink? && At(s, a.c).name == n
    ensures n !in s.paths && n in Apply(s, a).paths <==> n !in s.paths && a.Open? && At(s, a.c).name == n
    ensures n in s.paths && n in Apply(s, a).paths ==> Apply(s, a).paths[n] == s.paths[n]
  {
  }

  /** The rows change only by inserts and deletes, of one name. */
  lemma OnlyRowActionsChangeRows(s: State, a: Action, n: Name)
    requires Enabled(s, a)
    ensures n in Apply(s, a).rows <==>
              (a.HookUpsert? && a.n == n) || (a.InsertRow? && At(s, a.c).name == n)
              || (n in s.rows && !(a.DeleteRow? && At(s, a.c).name == n))
  {
  }

  /** A flock is granted by a lock call that finds it free, and given up by whatever closes or unlocks the descriptor:
      the release, the retry, the close and the death of its owner. */
  lemma FlocksChangeHands(s: State, a: Action, i: Inode, c: Caller)
    requires Enabled(s, a)
    ensures (i in Apply(s, a).owner && Apply(s, a).owner[i] == c) <==>
              if i !in s.owner then (a == Acquire(c) || a == TryLock(c)) && PhaseOf(s, c).ino == i
              else s.owner[i] == c && a != Release(c) && a != Retry(c) && a != Close(c) && a != Crash(c)
  {
  }

  /** An unlink takes the remover's name away and leaves every other name, every flock, every row and every other
      caller as they are. */
  lemma UnlinkRemoves(s: State, c: Caller)
    requires Inv(s) && Enabled(s, Unlink(c))
    ensures var n, t := At(s, c).name, Apply(s, Unlink(c));
            && n in s.paths && n !in t.paths
            && (forall m :: m != n ==> (m in t.paths <==> m in s.paths) && (m in s.paths ==> t.paths[m] == s.paths[m]))
            && t.owner == s.owner && t.rows == s.rows
            && forall d :: d != c ==> At(t, d) == At(s, d)
  {
    assert PhaseOf(s, c).Verified(PhaseOf(s, c).ino);
  }

  // ---------------------------------------------------------------- a removal alone

  predicate Removing(p: Phase) {
    p.Probing? || p.Trying? || p.Checking? || p.Confirming? || p.Unlinking? || p.Closing?
  }

  function StepsLeft(p: Phase): nat {
    match p
    case Probing => 6
    case Trying(_) => 5
    case Checking(_) => 4
    case Confirming(_) => 3
    case Unlinking(_) => 2
    case Closing(_) => 1
    case _ => 0
  }

  /** What a remover does next; its stats do not fail, and its confirm finds the file aged or not. */
  function NextOf(p: Phase, c: Caller, aged: bool): Action
    requires Removing(p)
  {
    match p
    case Probing => Probe(c)
    case Trying(_) => TryLock(c)
    case Checking(_) => Check(c, true)
    case Confirming(_) => Confirm(c, aged)
    case Unlinking(_) => Unlink(c)
    case Closing(_) => Close(c)
  }

  /** The remover goes on to its end and nobody else acts. */
  ghost function Finished(s: State, c: Caller, aged: bool): State
    decreases StepsLeft(PhaseOf(s, c))
  {
    if !Removing(PhaseOf(s, c)) then s else Finished(Apply(s, NextOf(PhaseOf(s, c), c, aged)), c, aged)
  }

  /** The same but for a name that is gone, and idle. */
  ghost predicate Ends(s: State, t: State, c: Caller, paths: map<Name, Inode>) {
    && t.paths == paths && t.rows == s.rows && PhaseOf(t, c).Idle?
    && (forall i :: i in t.owner <==> i in s.owner && s.owner[i] != c)
    && (forall i :: i in t.owner ==> t.owner[i] == s.owner[i])
    && forall d :: d != c ==> At(t, d) == At(s, d)
  }

  lemma ClosingEnds(s: State, c: Caller, aged: bool)
    requires PhaseOf(s, c).Closing?
    ensures Ends(s, Finished(s, c, aged), c, s.paths)
  {
    assert Finished(s, c, aged) == Apply(s, Close(c));
  }

  lemma UnlinkingEnds(s: State, c: Caller, aged: bool)
    requires PhaseOf(s, c).Unlinking?
    ensures Ends(s, Finished(s, c, aged), c, s.paths - {At(s, c).name})
  {
    var t := Apply(s, Unlink(c));
    ClosingEnds(t, c, aged);
    assert Finished(s, c, aged) == Finished(t, c, aged);
  }

  lemma ConfirmingEnds(s: State, c: Caller, aged: bool)
    requires PhaseOf(s, c).Confirming?
    ensures Ends(s, Finished(s, c, aged), c,
              if aged && At(s, c).name !in s.rows then s.paths - {At(s, c).name} else s.paths)
  {
    var t := Apply(s, Confirm(c, aged));
    if PhaseOf(t, c).Unlinking? { UnlinkingEnds(t, c, aged); } else { ClosingEnds(t, c, aged); }
    assert Finished(s, c, aged) == Finished(t, c, aged);
  }

  lemma TryingEnds(s: State, c: Caller, aged: bool)
    requires PhaseOf(s, c).Trying? && Names(s, At(s, c).name, PhaseOf(s, c).ino)
    requires forall i :: i in s.owner ==> s.owner[i] != c
    ensures var n := At(s, c).name;
            var goes := PhaseOf(s, c).ino !in s.owner && aged && n !in s.rows;
            Ends(s, Finished(s, c, aged), c, if goes then s.paths - {n} else s.paths)
  {
    var t := Apply(s, TryLock(c));
    assert Finished(s, c, aged) == Finished(t, c, aged);
    if PhaseOf(t, c).Checking? {
      var u := Apply(t, Check(c, true));
      assert Finished(t, c, aged) == Finished(u, c, aged);
      ConfirmingEnds(u, c, aged);
    }
  }

  /** A whole removal left alone: it ends with the name gone exactly when the file is there, nobody holds it, it is aged
      and its name has no row; in any other case the file stays. Nothing else has changed. */
  lemma RemovalAlone(s: State, c: Caller, n: Name, aged: bool)
    requires Inv(s) && PhaseOf(s, c).Idle?
    ensures var t := Finished(Apply(s, StartRemove(c, n)), c, aged);
            var goes := n in s.paths && s.paths[n] !in s.owner && aged && n !in s.rows;
            && t.paths == (if goes then s.paths - {n} else s.paths)
            && t.owner == s.owner && t.rows == s.rows && PhaseOf(t, c).Idle?
            && forall d :: d != c ==> At(t, d) == At(s, d)
  {
    forall i | i in s.owner ensures s.owner[i] != c { assert PhaseOf(s, s.owner[i]).Owns(i); }
    var s1 := Apply(s, StartRemove(c, n));
    var s2 := Apply(s1, Probe(c));
    assert Finished(s1, c, aged) == Finished(s2, c, aged);
    if n in s.paths { TryingEnds(s2, c, aged); }
  }

  lemma StartUsesNoMore(s: State, c: Caller, n: Name, i: Inode)
    requires Enabled(s, StartLock(c, n)) && InUse(Apply(s, StartLock(c, n)), i)
    ensures InUse(s, i)
  {
    var t := Apply(s, StartLock(c, n));
    if m :| Names(t, m, i) {
      assert Names(s, m, i);
    } else {
      var d :| PhaseOf(t, d).Refers(i);
      assert PhaseOf(s, d).Refers(i);
    }
  }

  /** An idle caller left alone with a name nobody holds: it comes to hold it in four calls, and once it releases it
      only the file it may have made is left. */
  lemma LockingAlone(s: State, c: Caller, n: Name, newIno: Inode)
    requires Inv(s) && PhaseOf(s, c).Idle? && (if n in s.paths then s.paths[n] !in s.owner else !InUse(s, newIno))
    ensures var s1 := Apply(s, StartLock(c, n));
            && Enabled(s1, Open(c, newIno))
            && var s2 := Apply(s1, Open(c, newIno));
            && Enabled(s2, Acquire(c)) && Enabled(Apply(s2, Acquire(c)), Verify(c, true))
            && var s4 := Apply(Apply(s2, Acquire(c)), Verify(c, true));
            && PhaseOf(s4, c).Holding? && At(s4, c).name == n
            && var i := if n in s.paths then s.paths[n] else newIno;
            && s4.owner == s.owner[i := c] && s4.paths == s.paths[n := i] && s4.rows == s.rows
            && var t := Apply(s4, Release(c));
            && t.owner == s.owner && t.paths == s.paths[n := i] && t.rows == s.rows && PhaseOf(t, c).Idle?
            && forall d :: d != c ==> At(t, d) == At(s, d)
  {
    var s1 := Apply(s, StartLock(c, n));
    StepKeepsInv(s, StartLock(c, n));
    if InUse(s1, newIno) { StartUsesNoMore(s, c, n, newIno); }
    LockSucceedsAlone(s1, c, newIno);
    forall i | i in s.owner ensures s.owner[i] != c { assert PhaseOf(s, s.owner[i]).Owns(i); }
  }
}

module Reap {
  // The reaper's closures of live rows: which rows its two passes pick, and what it closes once it re-read them
  // under their locks, where they may have changed. Capacity shares the count.

  import opened Wrappers
  import opened SliceSort

  datatype State = Starting | Ready | Working | NeedsInput | Idle | Errored

  /** Times of a row are Unix seconds, durations and the clock nanoseconds. */
  datatype Session = Session(id: string, state: State, lastActivityAt: int)

  datatype Reason = IdleTtl | CapEviction

  const SECOND: int := 1_000_000_000

  predicate PreservedForHuman(r: Session) { r.state == NeedsInput }

  predicate Evictable(r: Session) { r.state == Idle || r.state == Errored }

  predicate PastTtl(r: Session, now: int, ttl: int) {
    ttl > 0 && now - r.lastActivityAt * SECOND > ttl
  }

  predicate DistinctIds(s: seq<Session>) {
    forall i, j :: 0 <= i < j < |s| ==> s[i].id != s[j].id
  }

  // ---------------------------------------------------------------- the selection

  /** The ids of the rows with a property. */
  function IdsWhere(s: seq<Session>, p: Session -> bool): set<string> {
    if s == [] then {} else IdsWhere(s[..|s| - 1], p) + if p(s[|s| - 1]) then {s[|s| - 1].id} else {}
  }

  lemma {:induction false} InIdsWhere(s: seq<Session>, p: Session -> bool, id: string)
    ensures id in IdsWhere(s, p) <==> exists k :: 0 <= k < |s| && s[k].id == id && p(s[k])
  {
    if s != [] { InIdsWhere(s[..|s| - 1], p, id); }
  }

  lemma RowIn(s: seq<Session>, p: Session -> bool, r: Session)
    requires DistinctIds(s) && r in s
    ensures r.id in IdsWhere(s, p) <==> p(r)
  {
    InIdsWhere(s, p, r.id);
    var k :| 0 <= k < |s| && s[k] == r;
  }

  function Count(s: seq<Session>, p: Session -> bool): nat {
    if s == [] then 0 else Count(s[..|s| - 1], p) + if p(s[|s| - 1]) then 1 else 0
  }

  lemma {:induction false} CountIsSize(s: seq<Session>, p: Session -> bool)
    requires DistinctIds(s)
    ensures Count(s, p) == |IdsWhere(s, p)|
  {
    if s != [] {
      var front := s[..|s| - 1];
      CountIsSize(front, p);
      InIdsWhere(front, p, s[|s| - 1].id);
    }
  }

  function Counts(): Session -> bool { r => !PreservedForHuman(r) }
  function Expires(now: int, ttl: int): Session -> bool { r => !PreservedForHuman(r) && PastTtl(r, now, ttl) }
  function Available(now: int, ttl: int): Session -> bool { r => Evictable(r) && !PastTtl(r, now, ttl) }

  method CountedSessions(live: seq<Session>) returns (n: nat)
    ensures n == Count(live, Counts())
  {
    n := 0;
    for k := 0 to |live|
      invariant n == Count(live[..k], Counts())
    {
      assert live[..k + 1][..k] == live[..k];
      if !PreservedForHuman(live[k]) {
        n := n + 1;
      }
    }
    assert live[..|live|] == live;
  }

  function Min(a: int, b: int): int { if a < b then a else b }
  function Max(a: int, b: int): int { if a < b then b else a }

  function CapPicks(toClose: map<string, Reason>): set<string> {
    set id | id in toClose && toClose[id] == CapEviction
  }

  /** How far the rows that count and do not expire exceed the cap. */
  function Excess(live: seq<Session>, maxSessions: int, now: int, ttl: int): int {
    Count(live, Counts()) - Count(live, Expires(now, ttl)) - maxSessions
  }

  /** Every expired row nobody waits for, and of the others whose turn has ended as many as the excess over the cap,
      or all, the least recently active first. */
  ghost predicate IsSelection(live: seq<Session>, toClose: map<string, Reason>, maxSessions: int, now: int, ttl: int) {
    && (forall id :: id in toClose ==> id in IdsWhere(live, Counts()))
    && (forall r :: r in live ==> (r.id in toClose && toClose[r.id] == IdleTtl <==> Expires(now, ttl)(r)))
    && (forall r :: r in live && r.id in CapPicks(toClose) ==> Available(now, ttl)(r))
    && |CapPicks(toClose)| == Min(Max(0, Excess(live, maxSessions, now, ttl)), Count(live, Available(now, ttl)))
    && (forall r, s :: r in live && s in live && r.id in CapPicks(toClose) && s.id !in toClose ==>
          Available(now, ttl)(s) ==> r.lastActivityAt <= s.lastActivityAt)
  }

  predicate OlderFirst(a: Session, b: Session) {
    a.lastActivityAt < b.lastActivityAt
  }

  lemma OlderFirstIsAStrictOrder()
    ensures StrictOrder(OlderFirst)
  {
  }

  /** The map after pass 1, and after pass 2 with the picks `cap`. */
  ghost predicate Picked(toClose: map<string, Reason>, ttl: set<string>, cap: set<string>) {
    && toClose.Keys == ttl + cap && ttl !! cap
    && forall id :: id in toClose ==> toClose[id] == if id in cap then CapEviction else IdleTtl
  }

  /** Pass 1: idle past the TTL, sparing sessions parked for a human. */
  method ExpirePass(live: seq<Session>, now: int, idleTtl: int) returns (toClose: map<string, Reason>)
    ensures Picked(toClose, IdsWhere(live, Expires(now, idleTtl)), {})
  {
    toClose := map[];
    for k := 0 to |live|
      invariant Picked(toClose, IdsWhere(live[..k], Expires(now, idleTtl)), {})
    {
      assert live[..k + 1][..k] == live[..k];
      if PreservedForHuman(live[k]) {
        continue;
      }
      if PastTtl(live[k], now, idleTtl) {
        toClose := toClose[live[k].id := IdleTtl];
      }
    }
    assert live[..|live|] == live;
  }

  /** One more row seen by pass 2, of which it picked `cap` so far. */
  lemma CapStep(live: seq<Session>, i: nat, now: int, ttl: int, toClose: map<string, Reason>, cap: set<string>)
    requires DistinctIds(live) && i < |live| && cap == IdsWhere(live[..i], Available(now, ttl))
    requires Picked(toClose, IdsWhere(live, Expires(now, ttl)), cap)
    ensures var r := live[i];
            var picks := Evictable(r) && r.id !in toClose;
            && IdsWhere(live[..i + 1], Available(now, ttl)) == (if picks then cap + {r.id} else cap)
            && (picks ==> r.id !in cap && Picked(toClose[r.id := CapEviction], IdsWhere(live, Expires(now, ttl)),
               cap + {r.id}))
  {
    NextRowIsNew(live, Available(now, ttl), i);
    RowIn(live, Expires(now, ttl), live[i]);
    PickGrows(toClose, IdsWhere(live, Expires(now, ttl)), cap, live[i].id);
  }

  lemma NextRowIsNew(live: seq<Session>, p: Session -> bool, i: nat)
    requires DistinctIds(live) && i < |live|
    ensures live[i].id !in IdsWhere(live[..i], p)
    ensures IdsWhere(live[..i + 1], p) == if p(live[i]) then IdsWhere(live[..i], p) + {live[i].id}
        else IdsWhere(live[..i], p)
  {
    assert live[..i + 1][..i] == live[..i];
    InIdsWhere(live[..i], p, live[i].id);
  }

  lemma PickGrows(toClose: map<string, Reason>, ttl: set<string>, cap: set<string>, id: string)
    requires Picked(toClose, ttl, cap)
    ensures id in toClose <==> id in ttl || id in cap
    ensures id !in toClose ==> Picked(toClose[id := CapEviction], ttl, cap + {id})
  {
  }

  /** Pass 2: of the rows whose turn has ended, the oldest, while the rest exceed the cap. */
  method CapPass(live: seq<Session>, toClose0: map<string, Reason>, capClosures0: int, now: int, ghost ttl: int)
    returns (toClose: map<string, Reason>, ghost i: nat, ghost cap: set<string>)
    requires DistinctIds(live) && Picked(toClose0, IdsWhere(live, Expires(now, ttl)), {})
    ensures i <= |live| && cap == IdsWhere(live[..i], Available(now, ttl))
            && Picked(toClose, IdsWhere(live, Expires(now, ttl)), cap)
    ensures (if capClosures0 < 0 then i == 0 else |cap| <= capClosures0) && (i == |live| || |cap| >= capClosures0)
  {
    toClose := toClose0;
    var capClosures := capClosures0;
    var k := 0;
    cap := {};
    while k < |live| && capClosures > 0
      invariant k <= |live| && cap == IdsWhere(live[..k], Available(now, ttl))
                && Picked(toClose, IdsWhere(live, Expires(now, ttl)), cap)
      invariant capClosures == capClosures0 - |cap|
      invariant capClosures >= 0 || (capClosures0 < 0 && k == 0)
    {
      CapStep(live, k, now, ttl, toClose, cap);
      if Evictable(live[k]) && live[k].id !in toClose {
        toClose := toClose[live[k].id := CapEviction];
        capClosures := capClosures - 1;
        cap := cap + {live[k].id};
      }
      k := k + 1;
    }
    i := k;
  }

  /** Passes 1 and 2 over the live rows, oldest activity first. */
  method Select(rows: seq<Session>, maxSessions: int, now: int, idleTtl: int)
      returns (live: seq<Session>, toClose: map<string, Reason>)
    requires DistinctIds(rows)
    ensures multiset(live) == multiset(rows) && DistinctIds(live) && Sorted(live, OlderFirst)
    ensures IsSelection(live, toClose, maxSessions, now, idleTtl)
  {
    OlderFirstIsAStrictOrder();
    live := Sort(rows, OlderFirst);
    SortedIdsAreDistinct(rows, live);
    toClose := ExpirePass(live, now, idleTtl);
    var counted := CountedSessions(live);
    CountIsSize(live, Expires(now, idleTtl));
    assert |toClose| == |toClose.Keys|;
    ghost var i, cap;
    toClose, i, cap := CapPass(live, toClose, counted - |toClose| - maxSessions, now, idleTtl);
    PicksAreASelection(live, toClose, maxSessions, now, idleTtl, i, cap);
  }

  lemma SortedIdsAreDistinct(rows: seq<Session>, live: seq<Session>)
    requires DistinctIds(rows) && multiset(live) == multiset(rows)
    ensures DistinctIds(live)
  {
    ApartIsKept(rows, live, (r: Session, s: Session) => r.id == s.id);
  }

  lemma {:induction false} PrefixIds(s: seq<Session>, p: Session -> bool, i: nat)
    requires i <= |s|
    ensures IdsWhere(s[..i], p) <= IdsWhere(s, p) && |IdsWhere(s[..i], p)| <= |IdsWhere(s, p)|
  {
    forall id | id in IdsWhere(s[..i], p) ensures id in IdsWhere(s, p) {
      InIdsWhere(s[..i], p, id);
      InIdsWhere(s, p, id);
    }
    SubsetIsSmaller(IdsWhere(s[..i], p), IdsWhere(s, p));
  }

  lemma PicksAreASelection(live: seq<Session>, toClose: map<string, Reason>, maxSessions: int, now: int, ttl: int,
                           i: nat, cap: set<string>)
    requires DistinctIds(live) && Sorted(live, OlderFirst) && i <= |live|
             && cap == IdsWhere(live[..i], Available(now, ttl))
    requires Picked(toClose, IdsWhere(live, Expires(now, ttl)), cap)
    requires var excess := Excess(live, maxSessions, now, ttl);
             (if excess < 0 then i == 0 else |cap| <= excess) && (i == |live| || |cap| >= excess)
    ensures IsSelection(live, toClose, maxSessions, now, ttl)
  {
    assert CapPicks(toClose) == cap;
    PicksSize(live, Available(now, ttl), Excess(live, maxSessions, now, ttl), i, cap);
    PicksCount(live, toClose, now, ttl, i);
    forall r, s | r in live && s in live && r.id in cap && Available(now, ttl)(s) && s.id !in toClose
      ensures r.lastActivityAt <= s.lastActivityAt
    {
      OldestArePicked(live, Available(now, ttl), i, r, s);
    }
  }

  lemma PicksSize(live: seq<Session>, p: Session -> bool, excess: int, i: nat, cap: set<string>)
    requires DistinctIds(live) && i <= |live| && cap == IdsWhere(live[..i], p)
    requires (if excess < 0 then i == 0 else |cap| <= excess) && (i == |live| || |cap| >= excess)
    ensures |cap| == Min(Max(0, excess), Count(live, p))
  {
    CountIsSize(live, p);
    PrefixIds(live, p, i);
    assert i == |live| ==> live[..i] == live;
  }

  lemma PicksCount(live: seq<Session>, toClose: map<string, Reason>, now: int, ttl: int, i: nat)
    requires DistinctIds(live) && i <= |live|
    requires Picked(toClose, IdsWhere(live, Expires(now, ttl)), IdsWhere(live[..i], Available(now, ttl)))
    ensures forall id :: id in toClose ==> id in IdsWhere(live, Counts())
    ensures forall r :: r in live ==> (r.id in toClose && toClose[r.id] == IdleTtl <==> Expires(now, ttl)(r))
    ensures forall r :: r in live && r.id in IdsWhere(live[..i], Available(now, ttl)) ==> Available(now, ttl)(r)
  {
    forall id | id in toClose ensures id in IdsWhere(live, Counts()) {
      InIdsWhere(live, Expires(now, ttl), id);
      InIdsWhere(live[..i], Available(now, ttl), id);
      InIdsWhere(live, Counts(), id);
    }
    forall r | r in live ensures r.id in toClose && toClose[r.id] == IdleTtl <==> Expires(now, ttl)(r) {
      RowIn(live, Expires(now, ttl), r);
    }
    forall r | r in live && r.id in IdsWhere(live[..i], Available(now, ttl)) ensures Available(now, ttl)(r) {
      PrefixIds(live, Available(now, ttl), i);
      RowIn(live, Available(now, ttl), r);
    }
  }

  lemma OldestArePicked(live: seq<Session>, p: Session -> bool, i: nat, r: Session, s: Session)
    requires DistinctIds(live) && Sorted(live, OlderFirst) && i <= |live| && r in live && s in live
    requires r.id in IdsWhere(live[..i], p) && p(s) && s.id !in IdsWhere(live[..i], p)
    ensures r.lastActivityAt <= s.lastActivityAt
  {
    InIdsWhere(live[..i], p, r.id);
    InIdsWhere(live[..i], p, s.id);
    var j :| 0 <= j < |live[..i]| && live[..i][j].id == r.id;
    var k :| 0 <= k < |live| && live[k] == s;
    assert live[j] == r;
    assert k >= i;
  }

  /** After the closures the rows that count fit the cap, or none of those left has ended its turn. */
  lemma FitsOrNothingToEvict(live: seq<Session>, toClose: map<string, Reason>, maxSessions: int, now: int, ttl: int)
    requires DistinctIds(live) && IsSelection(live, toClose, maxSessions, now, ttl)
    ensures Count(live, Counts()) - |toClose| <= maxSessions || forall r :: r in live && Evictable(r) ==>
        r.id in toClose
  {
    var available := Available(now, ttl);
    SelectionSize(live, toClose, maxSessions, now, ttl);
    CountIsSize(live, available);
    if Count(live, Counts()) - |toClose| > maxSessions {
      CapPicksAreAvailable(live, toClose, maxSessions, now, ttl);
      SubsetIsSmaller(CapPicks(toClose), IdsWhere(live, available));
      forall r | r in live && Evictable(r) ensures r.id in toClose { RowIn(live, available, r); }
    }
  }

  lemma CapPicksAreAvailable(live: seq<Session>, toClose: map<string, Reason>, maxSessions: int, now: int, ttl: int)
    requires DistinctIds(live) && IsSelection(live, toClose, maxSessions, now, ttl)
    ensures CapPicks(toClose) <= IdsWhere(live, Available(now, ttl))
  {
    forall id | id in CapPicks(toClose) ensures id in IdsWhere(live, Available(now, ttl)) {
      InIdsWhere(live, Available(now, ttl), id);
      InIdsWhere(live, Counts(), id);
    }
  }

  lemma SelectionSize(live: seq<Session>, toClose: map<string, Reason>, maxSessions: int, now: int, ttl: int)
    requires DistinctIds(live) && IsSelection(live, toClose, maxSessions, now, ttl)
    ensures |toClose| == Count(live, Expires(now, ttl)) + |CapPicks(toClose)|
  {
    var cap, expired := CapPicks(toClose), IdsWhere(live, Expires(now, ttl));
    forall id ensures id in toClose.Keys - cap <==> id in expired {
      InIdsWhere(live, Expires(now, ttl), id);
      InIdsWhere(live, Counts(), id);
    }
    assert toClose.Keys - cap == expired && cap <= toClose.Keys;
    assert |toClose| == |toClose.Keys| && |toClose.Keys - cap| == |toClose.Keys| - |cap|;
    CountIsSize(live, Expires(now, ttl));
  }

  /** A session parked for a human is never picked, nor is one whose turn has not ended and that has not expired. */
  lemma NeverPicked(live: seq<Session>, toClose: map<string, Reason>, maxSessions: int, now: int, ttl: int, r: Session)
    requires DistinctIds(live) && IsSelection(live, toClose, maxSessions, now, ttl) && r in live && r.id in toClose
    ensures !PreservedForHuman(r) && (PastTtl(r, now, ttl) || Evictable(r))
  {
    RowIn(live, Counts(), r);
  }

  /** For its age a row is picked exactly when nobody waits for it, there is a limit, and more nanoseconds than that
      have passed since the second of its last activity; for the cap only in a state that ends a turn. */
  lemma PickedFor(live: seq<Session>, toClose: map<string, Reason>, maxSessions: int, now: int, ttl: int, r: Session)
    requires DistinctIds(live) && IsSelection(live, toClose, maxSessions, now, ttl) && r in live
    ensures r.id in toClose && toClose[r.id] == IdleTtl
       <==> r.state != NeedsInput && ttl > 0 && r.lastActivityAt * 1_000_000_000 + ttl < now
    ensures r.id in toClose && toClose[r.id] == CapEviction ==>
        r.state in {Idle, Errored} && (ttl > 0 ==> now <= r.lastActivityAt * 1_000_000_000 + ttl)
  {
    assert Expires(now, ttl)(r) <==> r.state != NeedsInput && ttl > 0 && r.lastActivityAt * 1_000_000_000 + ttl < now;
  }

  // ---------------------------------------------------------------- admission

  datatype Capacity = Capacity(maxSessions: int, live: nat, preserved: nat, counted: nat, free: int)

  /** Capacity, over the rows tmux has a session for. */
  method CapacityOf(rows: seq<Session>, panes: set<string>, maxSessions: int) returns (c: Capacity)
    ensures var live := LiveOf(rows, panes);
            && c.counted == Count(live, Counts()) && c.live == |live| == c.counted + c.preserved
            && c.free == Max(0, maxSessions - c.counted)
  {
    var live: seq<Session> := [];
    for k := 0 to |rows|
      invariant live == LiveOf(rows[..k], panes)
    {
      assert rows[..k + 1][..k] == rows[..k];
      if rows[k].id in panes {
        live := live + [rows[k]];
      }
    }
    assert rows[..|rows|] == rows;
    var counted := CountedSessions(live);
    CountIsAtMost(live, Counts());
    var free := maxSessions - counted;
    if free < 0 {
      free := 0;
    }
    c := Capacity(maxSessions, |live|, |live| - counted, counted, free);
  }

  function LiveOf(rows: seq<Session>, panes: set<string>): seq<Session> {
    if rows == [] then []
    else LiveOf(rows[..|rows| - 1], panes) + if rows[|rows| - 1].id in panes then [rows[|rows| - 1]] else []
  }

  lemma {:induction false} CountIsAtMost(s: seq<Session>, p: Session -> bool)
    ensures Count(s, p) <= |s|
  {
    if s != [] { CountIsAtMost(s[..|s| - 1], p); }
  }

  /** A pool that admission sees a free slot in is not evicted from for its cap. */
  lemma FreeMeansNoEviction(live: seq<Session>, toClose: map<string, Reason>, maxSessions: int, now: int, ttl: int)
    requires DistinctIds(live) && IsSelection(live, toClose, maxSessions, now, ttl)
    requires maxSessions - Count(live, Counts()) > 0
    ensures CapPicks(toClose) == {}
  {
  }

  // ---------------------------------------------------------------- closing what was picked

  predicate StillQualifies(r: Session, reason: Reason, now: int, ttl: int) {
    !PreservedForHuman(r) &&
    match reason
    case IdleTtl => PastTtl(r, now, ttl)
    case CapEviction => Evictable(r)
  }

  /** A picked row that did not change since the snapshot still qualifies. */
  lemma UnchangedQualifies(live: seq<Session>, toClose: map<string, Reason>, maxSessions: int, now: int, ttl: int,
                           r: Session)
    requires DistinctIds(live) && IsSelection(live, toClose, maxSessions, now, ttl) && r in live && r.id in toClose
    ensures StillQualifies(r, toClose[r.id], now, ttl)
  {
    RowIn(live, Counts(), r);
  }

  /** A row as it is under its lock, which may differ from the snapshot or be gone. */
  type Reread = string -> Option<Session>

  predicate Closes(r: Session, toClose: map<string, Reason>, reread: Reread, now: int, ttl: int) {
    r.id in toClose && reread(r.id).Some? && StillQualifies(reread(r.id).value, toClose[r.id], now, ttl)
  }

  function Closures(live: seq<Session>, toClose: map<string, Reason>, reread: Reread, now: int,
                    ttl: int): seq<(string, Reason)> {
    if live == [] then []
    else
      var r := live[|live| - 1];
      Closures(live[..|live| - 1], toClose, reread, now, ttl) + if Closes(r, toClose, reread, now, ttl)
        then [(r.id, toClose[r.id])] else []
  }

  method CloseRevalidated(cur: Option<Session>, reason: Reason, now: int, ttl: int) returns (closed: bool)
    ensures closed <==> cur.Some? && StillQualifies(cur.value, reason, now, ttl)
  {
    if cur.None? || PreservedForHuman(cur.value) {
      return false;
    }
    match reason {
      case IdleTtl => return PastTtl(cur.value, now, ttl);
      case CapEviction => return Evictable(cur.value);
    }
  }

  /** Reap's closures of live rows: selected from the snapshot, re-judged one by one. */
  method ReapLive(rows: seq<Session>, maxSessions: int, now: int, idleTtl: int, reread: Reread)
    returns (live: seq<Session>, toClose: map<string, Reason>, closed: seq<(string, Reason)>)
    requires DistinctIds(rows)
    ensures multiset(live) == multiset(rows) && DistinctIds(live)
            && IsSelection(live, toClose, maxSessions, now, idleTtl)
    ensures closed == Closures(live, toClose, reread, now, idleTtl)
  {
    live, toClose := Select(rows, maxSessions, now, idleTtl);
    closed := [];
    for k := 0 to |live|
      invariant closed == Closures(live[..k], toClose, reread, now, idleTtl)
    {
      assert live[..k + 1][..k] == live[..k];
      if live[k].id !in toClose {
        continue;
      }
      var reason := toClose[live[k].id];
      var done := CloseRevalidated(reread(live[k].id), reason, now, idleTtl);
      if done {
        closed := closed + [(live[k].id, reason)];
      }
    }
    assert live[..|live|] == live;
  }

  lemma {:induction false} InClosures(live: seq<Session>, toClose: map<string, Reason>, reread: Reread, now: int,
                                      ttl: int, c: (string, Reason))
    ensures c in Closures(live, toClose, reread, now, ttl)
            <==> exists k :: 0 <= k < |live| && Closes(live[k], toClose, reread, now, ttl) && c == (live[k].id,
              toClose[live[k].id])
  {
    if live != [] { InClosures(live[..|live| - 1], toClose, reread, now, ttl, c); }
  }

  /** Closed are exactly the picked rows that are still there under their lock, not parked for a human, and still past
      the age they were picked for, or still at the end of a turn. */
  lemma ClosedIff(live: seq<Session>, toClose: map<string, Reason>, now: int, ttl: int, reread: Reread, r: Session,
                  reason: Reason)
    requires r in live && DistinctIds(live)
    ensures (r.id, reason) in Closures(live, toClose, reread, now, ttl)
       <==> && r.id in toClose && toClose[r.id] == reason && reread(r.id).Some?
            && reread(r.id).value.state != NeedsInput
            && (reason == IdleTtl ==> ttl > 0 && reread(r.id).value.lastActivityAt * 1_000_000_000 + ttl < now)
            && (reason == CapEviction ==> reread(r.id).value.state in {Idle, Errored})
  {
    InClosures(live, toClose, reread, now, ttl, (r.id, reason));
    var k :| 0 <= k < |live| && live[k] == r;
  }

  /** The re-read under the lock only shrinks the picks: what is closed was picked for that reason and is not parked
      for a human now; and a picked row that did not change is closed. */
  lemma RevalidationOnlyShrinks(live: seq<Session>, toClose: map<string, Reason>, maxSessions: int, now: int,
                                ttl: int, reread: Reread,
                                r: Session)
    requires DistinctIds(live) && IsSelection(live, toClose, maxSessions, now, ttl) && r in live
    ensures forall reason :: (r.id, reason) in Closures(live, toClose, reread, now, ttl) ==>
              r.id in toClose && toClose[r.id] == reason && reread(r.id).Some? && !PreservedForHuman(reread(r.id).value)
    ensures r.id in toClose && reread(r.id) == Some(r) ==>
        (r.id, toClose[r.id]) in Closures(live, toClose, reread, now, ttl)
  {
    forall reason | (r.id, reason) in Closures(live, toClose, reread, now, ttl)
      ensures r.id in toClose && toClose[r.id] == reason && reread(r.id).Some? && !PreservedForHuman(reread(r.id).value)
    {
      InClosures(live, toClose, reread, now, ttl, (r.id, reason));
    }
    if r.id in toClose && reread(r.id) == Some(r) {
      UnchangedQualifies(live, toClose, maxSessions, now, ttl, r);
      InClosures(live, toClose, reread, now, ttl, (r.id, toClose[r.id]));
    }
  }
}

module SourceScheduler {
  // The source layer's scheduler: a timer, an in-flight fetch, a failure backoff and a forced rerun per source, over
  // visibility and idleness. One registry generation: every id is defined once.

  import opened Wrappers

  datatype Surface = Band | Modal | Alert

  datatype Def = Def(intervalMs: int, hasFetch: bool, feeds: set<Surface>)

  datatype Entry = Entry(def: Def, inFlight: bool, rerun: bool, forced: bool, failures: nat,
                         lastAttemptAt: Option<int>, timer: Option<nat>)

  /** What a fetch does before its first await: waits for something, finds no shared key, or throws. */
  datatype Opening = Awaits | NoKey | Throws

  const IDLE_AFTER_MS: int := 300000
  const MAX_BACKOFF_MS: int := 600000

  predicate Polled(d: Def) {
    d.intervalMs > 0
  }

  predicate Active(d: Def, visible: set<Surface>) {
    Polled(d) && (Alert in d.feeds || d.feeds * visible != {})
  }

  predicate Idle(now: int, lastEventAt: int) {
    now - lastEventAt >= IDLE_AFTER_MS
  }

  /** `base` times two to the power `n`. */
  function Doubled(base: int, n: nat): int {
    if n == 0 then base else 2 * Doubled(base, n - 1)
  }

  function Max(a: int, b: int): int { if a < b then b else a }
  function Min(a: int, b: int): int { if a < b then a else b }

  /** One interval between attempts, four when idle. */
  function Base(d: Def, idle: bool): int {
    if idle then 4 * d.intervalMs else d.intervalMs
  }

  /** The delay between two attempts. */
  function DelayOf(d: Def, failures: nat, idle: bool): int {
    var base := Base(d, idle);
    if failures == 0 then base else Max(base * 2, Min(Doubled(base, failures), MAX_BACKOFF_MS))
  }

  lemma {:induction false} DoubledGrows(a: int, b: int, m: nat, n: nat)
    requires 0 <= a <= b && m <= n
    ensures a <= Doubled(a, m) <= Doubled(b, n)
  {
    if m > 0 {
      DoubledGrows(a, b, m - 1, n - 1);
    } else if n > 0 {
      DoubledGrows(a, b, 0, n - 1);
    }
  }

  /** After a failure the delay is longer than the interval, grows with the failures, and is at most the larger of
      twice the base and ten minutes; idleness only lengthens it. */
  lemma DelayBounds(d: Def, m: nat, n: nat, idle: bool)
    requires Polled(d) && m <= n
    ensures n > 0 ==> DelayOf(d, n, idle) > d.intervalMs
    ensures DelayOf(d, m, idle) <= DelayOf(d, n, idle)
    ensures DelayOf(d, n, idle) <= Max(2 * Base(d, idle), MAX_BACKOFF_MS)
    ensures d.intervalMs <= DelayOf(d, n, false) <= DelayOf(d, n, true)
  {
    DoubledGrows(Base(d, idle), Base(d, idle), m, n);
    DoubledGrows(Base(d, false), Base(d, true), n, n);
  }

  function TwoToThe(n: nat): nat {
    if n == 0 then 1 else 2 * TwoToThe(n - 1)
  }

  lemma {:induction false} DoubledIs(base: int, n: nat)
    ensures Doubled(base, n) == base * TwoToThe(n)
  {
    if n > 0 { DoubledIs(base, n - 1); }
  }

  /** The delay in numbers: the interval, four times that when idle; after failures that doubled as often, but no more
      than ten minutes unless two intervals are more. */
  lemma DelayInNumbers(d: Def, failures: nat, idle: bool)
    requires Polled(d)
    ensures var base := if idle then 4 * d.intervalMs else d.intervalMs;
            var doubled := base * TwoToThe(failures);
            && (failures == 0 ==> DelayOf(d, failures, idle) == base)
            && (failures > 0 && doubled <= 600000 ==> DelayOf(d, failures, idle) == doubled)
            && (failures > 0 && doubled > 600000 && 2 * base <= 600000 ==> DelayOf(d, failures, idle) == 600000)
            && (failures > 0 && 2 * base > 600000 ==> DelayOf(d, failures, idle) == 2 * base)
  {
    var base := Base(d, idle);
    DoubledIs(base, failures);
    if failures > 0 {
      DoubledGrows(base, base, 1, failures);
      assert Doubled(base, 1) == 2 * Doubled(base, 0) == 2 * base;
    }
  }

  datatype Armed = Armed(id: string, due: int)

  /** An attempt: whether a refresh forced it, when the one before it began, and the delay in force. */
  datatype Attempt = Attempt(id: string, at: int, polled: bool, forced: bool, before: Option<int>, delay: int)

  function LastStart(attempts: seq<Attempt>, id: string): Option<int> {
    if attempts == [] then None
    else if attempts[|attempts| - 1].id == id then Some(attempts[|attempts| - 1].at)
    else LastStart(attempts[..|attempts| - 1], id)
  }

  /** The throttle: an attempt nobody forced keeps its distance from the one before. */
  predicate Throttled(a: Attempt) {
    a.polled && !a.forced && a.before.Some? ==> a.at >= a.before.value + a.delay
  }

  /** What holds of an entry on its own. */
  predicate Basic(e: Entry, now: int) {
    && (e.rerun ==> e.inFlight) && (e.inFlight ==> e.def.hasFetch && e.lastAttemptAt.Some?)
    && (e.forced ==> Polled(e.def) && !e.inFlight && e.def.hasFetch)
    && (e.lastAttemptAt.Some? ==> e.lastAttemptAt.value <= now)
  }

  /** When the next attempt may begin. */
  function DueAt(e: Entry, now: int, lastEventAt: int): int {
    if e.lastAttemptAt.None? || e.forced then now
    else Max(now, e.lastAttemptAt.value + DelayOf(e.def, e.failures, Idle(now, lastEventAt)))
  }

  /** An active source with a fetch is in flight or has a timer, which is not later than its delay demands; only an
      active source has a timer. */
  predicate Placed(e: Entry, visible: set<Surface>, now: int, lastEventAt: int, armed: map<nat, Armed>) {
    && (Active(e.def, visible) && e.def.hasFetch ==> e.inFlight || e.timer.Some?)
    && (e.timer.Some? ==> Active(e.def, visible))
    && (e.timer.Some? && !e.inFlight && e.timer.value in armed ==>
       armed[e.timer.value].due <= DueAt(e, now, lastEventAt))
  }

  /** The source's timer, if it has one, is due at once for a source never attempted or forced, and otherwise when the
      delay since the last attempt is over, or at once if that is past. */
  predicate DueRight(e: Entry, now: int, lastEventAt: int, armed: map<nat, Armed>) {
    e.timer.Some? ==>
      && e.timer.value in armed
      && armed[e.timer.value].due ==
           if e.lastAttemptAt.None? || e.forced then now
           else Max(now, e.lastAttemptAt.value + DelayOf(e.def, e.failures, Idle(now, lastEventAt)))
  }

  /** An active source has a timer, rightly due, and another has none. */
  predicate Rearms(e: Entry, visible: set<Surface>, now: int, lastEventAt: int, armed: map<nat, Armed>) {
    (e.timer.Some? <==> Active(e.def, visible)) && DueRight(e, now, lastEventAt, armed)
  }

  /** Only timers of `id` come and go. */
  ghost predicate OnlyTimersOf(id: string, before: map<nat, Armed>, after: map<nat, Armed>) {
    && (forall t :: t in before && before[t].id != id ==> t in after && after[t] == before[t])
    && (forall t :: t in after && after[t].id != id ==> t in before)
  }

  // ---------------------------------------------------------------- what always holds

  /** Every armed timer is the timer of one entry, and the other way round: never two for a source. */
  predicate TimerHasEntry(entries: map<string, Entry>, armed: map<nat, Armed>, t: nat)
    requires t in armed
  {
    armed[t].id in entries && entries[armed[t].id].timer == Some(t)
  }

  predicate EntryHasTimer(e: Entry, armed: map<nat, Armed>, id: string) {
    e.timer.Some? ==> e.timer.value in armed && armed[e.timer.value].id == id
  }

  ghost predicate TimersOk(entries: map<string, Entry>, armed: map<nat, Armed>, nextTimer: nat) {
    && (forall t :: t in armed ==> t < nextTimer && TimerHasEntry(entries, armed, t))
    && (forall id {:trigger EntryHasTimer(entries[id], armed, id)} :: id in entries ==>
          EntryHasTimer(entries[id], armed, id))
  }

  predicate CountedAt(e: Entry, id: string, flying: multiset<string>, asked: nat) {
    flying[id] == (if e.inFlight then 1 else 0) && (e.rerun <==> asked > 0)
  }

  ghost predicate Counted(entries: map<string, Entry>, flying: multiset<string>, asked: map<string, nat>) {
    && asked.Keys == entries.Keys && (forall id :: id in flying ==> id in entries)
    && (forall id {:trigger CountedAt(entries[id], id, flying, asked[id])} :: id in entries ==>
          CountedAt(entries[id], id, flying, asked[id]))
  }

  predicate SoundAt(e: Entry, id: string, attempts: seq<Attempt>, now: int) {
    Basic(e, now) && LastStart(attempts, id) == e.lastAttemptAt
  }

  ghost predicate Sound(entries: map<string, Entry>, attempts: seq<Attempt>, now: int) {
    && (forall id {:trigger SoundAt(entries[id], id, attempts, now)} :: id in entries ==>
          SoundAt(entries[id], id, attempts, now))
    && (forall id :: id !in entries ==> LastStart(attempts, id) == None)
    && AttemptsOk(attempts)
  }

  /** Every attempt names the one of its source before it, and keeps its distance. */
  predicate AttemptsOk(attempts: seq<Attempt>) {
    attempts == [] ||
    var before, a := attempts[..|attempts| - 1], attempts[|attempts| - 1];
    AttemptsOk(before) && a.before == LastStart(before, a.id) && Throttled(a)
  }

  ghost predicate AllPlaced(entries: map<string, Entry>, visible: set<Surface>, now: int, lastEventAt: int,
                            armed: map<nat, Armed>) {
    forall id {:trigger Placed(entries[id], visible, now, lastEventAt, armed)} :: id in entries ==>
      Placed(entries[id], visible, now, lastEventAt, armed)
  }

  /** The armed timers after the timer of `id` was cancelled and, with a due time, armed anew. */
  function Rearmed(entries: map<string, Entry>, armed: map<nat, Armed>, n: nat, id: string,
                   due: Option<int>): map<nat, Armed>
    requires id in entries
  {
    var left := if entries[id].timer.Some? then armed - {entries[id].timer.value} else armed;
    if due.Some? then left[n := Armed(id, due.value)] else left
  }

  function WithTimer(entries: map<string, Entry>, id: string, n: nat, due: Option<int>): map<string, Entry>
    requires id in entries
  {
    entries[id := entries[id].(timer := if due.Some? then Some(n) else None)]
  }

  lemma RearmKeepsTimers(entries: map<string, Entry>, armed: map<nat, Armed>, n: nat, id: string, due: Option<int>)
    requires TimersOk(entries, armed, n) && id in entries
    ensures TimersOk(WithTimer(entries, id, n, due), Rearmed(entries, armed, n, id, due), n + 1)
  {
    var e, after := entries[id], Rearmed(entries, armed, n, id, due);
    assert EntryHasTimer(e, armed, id);
    forall t | t in after ensures t < n + 1 && TimerHasEntry(WithTimer(entries, id, n, due), after, t) {
      assert t in armed ==> TimerHasEntry(entries, armed, t);
    }
    forall o | o in entries ensures EntryHasTimer(WithTimer(entries, id, n, due)[o], after, o) {
      assert EntryHasTimer(entries[o], armed, o);
      assert entries[o].timer.Some? ==> TimerHasEntry(entries, armed, entries[o].timer.value);
    }
  }

  /** Another source's timer is not touched. */
  lemma RearmKeepsOthers(entries: map<string, Entry>, armed: map<nat, Armed>, n: nat, id: string, due: Option<int>,
                         o: string,
                         visible: set<Surface>, now: int, lastEventAt: int)
    requires TimersOk(entries, armed, n) && id in entries && o in entries && o != id
    requires Placed(entries[o], visible, now, lastEventAt, armed)
    ensures Placed(WithTimer(entries, id, n, due)[o], visible, now, lastEventAt, Rearmed(entries, armed, n, id, due))
  {
    assert EntryHasTimer(entries[o], armed, o) && EntryHasTimer(entries[id], armed, id);
    assert entries[o].timer.Some? ==> TimerHasEntry(entries, armed, entries[o].timer.value);
  }

  lemma OnlyTimerKeepsRest(entries: map<string, Entry>, id: string, timer: Option<nat>, flying: multiset<string>,
                           asked: map<string, nat>,
                           attempts: seq<Attempt>, now: int)
    requires id in entries && Counted(entries, flying, asked) && Sound(entries, attempts, now)
    ensures Counted(entries[id := entries[id].(timer := timer)], flying, asked)
    ensures Sound(entries[id := entries[id].(timer := timer)], attempts, now)
  {
    assert CountedAt(entries[id], id, flying, asked[id]) && SoundAt(entries[id], id, attempts, now);
  }

  /** Every source but `id` stays as it is, in its place if it was. */
  ghost predicate KeepsPlaces(before: map<string, Entry>, armed0: map<nat, Armed>, after: map<string, Entry>,
                              armed: map<nat, Armed>,
                              id: string, visible: set<Surface>, now: int, lastEventAt: int) {
    && after.Keys == before.Keys + {id}
    && (forall o :: o in before && o != id ==> after[o] == before[o])
    && forall o {:trigger StaysPlaced(before[o], armed0, armed, visible, now, lastEventAt)} ::
         o in before && o != id ==> StaysPlaced(before[o], armed0, armed, visible, now, lastEventAt)
  }

  predicate StaysPlaced(e: Entry, armed0: map<nat, Armed>, armed: map<nat, Armed>, visible: set<Surface>, now: int,
                        lastEventAt: int) {
    Placed(e, visible, now, lastEventAt, armed0) ==> Placed(e, visible, now, lastEventAt, armed)
  }

  lemma PlacesChain(e0: map<string, Entry>, a0: map<nat, Armed>, e1: map<string, Entry>, a1: map<nat, Armed>,
                    e2: map<string, Entry>, a2: map<nat, Armed>, id: string, visible: set<Surface>, now: int,
                      lastEventAt: int)
    requires KeepsPlaces(e0, a0, e1, a1, id, visible, now, lastEventAt)
             && KeepsPlaces(e1, a1, e2, a2, id, visible, now, lastEventAt)
    ensures KeepsPlaces(e0, a0, e2, a2, id, visible, now, lastEventAt)
  {
    forall o | o in e0 && o != id ensures e2[o] == e0[o] && StaysPlaced(e0[o], a0, a2, visible, now, lastEventAt) {
      assert StaysPlaced(e0[o], a0, a1, visible, now, lastEventAt) && e1[o] == e0[o];
      assert StaysPlaced(e1[o], a1, a2, visible, now, lastEventAt);
    }
  }

  lemma SameTimersKeepPlaces(entries: map<string, Entry>, armed: map<nat, Armed>, id: string, e: Entry,
                             visible: set<Surface>, now: int, lastEventAt: int)
    ensures KeepsPlaces(entries, armed, entries[id := e], armed, id, visible, now, lastEventAt)
  {
  }

  ghost predicate PlacedBut(entries: map<string, Entry>, todo: set<string>, visible: set<Surface>, now: int,
                            lastEventAt: int, armed: map<nat, Armed>) {
    forall o :: o in entries && o !in todo ==> Placed(entries[o], visible, now, lastEventAt, armed)
  }

  /** Of these sources, every active one has a timer and no other does. */
  ghost predicate Timed(entries: map<string, Entry>, ids: set<string>, visible: set<Surface>) {
    forall id :: id in ids && id in entries ==> (entries[id].timer.Some? <==> Active(entries[id].def, visible))
  }

  lemma OneMoreTimed(before: map<string, Entry>, after: map<string, Entry>, id: string, ids: set<string>,
                     visible: set<Surface>)
    requires id in before && id in after && Timed(before, ids, visible) && after == before[id := after[id]]
    requires after[id].timer.Some? <==> Active(after[id].def, visible)
    ensures Timed(after, ids + {id}, visible)
  {
  }

  /** Of these sources every timer is rightly due. */
  ghost predicate AllRight(entries: map<string, Entry>, ids: set<string>, now: int, lastEventAt: int,
                           armed: map<nat, Armed>) {
    forall id {:trigger DueRight(entries[id], now, lastEventAt, armed)} :: id in ids && id in entries ==>
      DueRight(entries[id], now, lastEventAt, armed)
  }

  lemma OneMoreRight(before: map<string, Entry>, armed0: map<nat, Armed>, after: map<string, Entry>,
                     armed: map<nat, Armed>, id: string, ids: set<string>, now: int, lastEventAt: int, n: nat)
    requires TimersOk(before, armed0, n) && AllRight(before, ids, now, lastEventAt, armed0)
    requires id in before && id in after && after == before[id := after[id]]
    requires DueRight(after[id], now, lastEventAt, armed) && OnlyTimersOf(id, armed0, armed)
    ensures AllRight(after, ids + {id}, now, lastEventAt, armed)
  {
    forall o | o in ids + {id} && o in after ensures DueRight(after[o], now, lastEventAt, armed) {
      if o != id {
        assert DueRight(before[o], now, lastEventAt, armed0) && EntryHasTimer(before[o], armed0, o);
      }
    }
  }

  lemma Overwritten(m: map<string, Entry>, id: string, e: Entry, f: Entry)
    ensures m[id := e][id := f] == m[id := f]
  {
  }

  lemma OneMoreTimer(first: map<string, Entry>, before: map<string, Entry>, after: map<string, Entry>, id: string)
    requires OnlyTimers(first, before) && id in before && id in after
    requires after == before[id := before[id].(timer := after[id].timer)]
    ensures OnlyTimers(first, after)
  {
  }

  ghost predicate OnlyTimers(before: map<string, Entry>, after: map<string, Entry>) {
    before.Keys == after.Keys && forall o :: o in after ==> after[o] == before[o].(timer := after[o].timer)
  }

  lemma OneMorePlaced(e0: map<string, Entry>, a0: map<nat, Armed>, e1: map<string, Entry>, a1: map<nat, Armed>,
                      id: string, todo: set<string>, visible: set<Surface>, now: int, lastEventAt: int)
    requires PlacedBut(e0, todo, visible, now, lastEventAt, a0)
             && KeepsPlaces(e0, a0, e1, a1, id, visible, now, lastEventAt)
    requires id in e1 && Placed(e1[id], visible, now, lastEventAt, a1)
    ensures PlacedBut(e1, todo - {id}, visible, now, lastEventAt, a1)
  {
    forall o | o in e1 && o !in todo - {id} ensures Placed(e1[o], visible, now, lastEventAt, a1) {
      if o != id {
        assert Placed(e0[o], visible, now, lastEventAt, a0) && StaysPlaced(e0[o], a0, a1, visible, now, lastEventAt);
      }
    }
  }

  lemma AllInPlace(e0: map<string, Entry>, a0: map<nat, Armed>, e1: map<string, Entry>, a1: map<nat, Armed>,
                   id: string, visible: set<Surface>, now: int, lastEventAt: int)
    requires AllPlaced(e0, visible, now, lastEventAt, a0) && KeepsPlaces(e0, a0, e1, a1, id, visible, now, lastEventAt)
    requires id in e1 && Placed(e1[id], visible, now, lastEventAt, a1)
    ensures AllPlaced(e1, visible, now, lastEventAt, a1)
  {
    forall o | o in e1 ensures Placed(e1[o], visible, now, lastEventAt, a1) {
      if o != id {
        assert Placed(e0[o], visible, now, lastEventAt, a0) && StaysPlaced(e0[o], a0, a1, visible, now, lastEventAt);
      }
    }
  }

  // ---------------------------------------------------------------- events

  /** What the events change, but for the clock's timers. */
  datatype Shot = Shot(entries: map<string, Entry>, attempts: seq<Attempt>, asked: map<string, nat>,
                       visible: set<Surface>, now: int, lastEventAt: int)

  datatype Event =
    | Refreshed(id: string, force: bool, opening: Opening)
    | Fired(id: string, opening: Opening)
    | Resolved(id: string)
    | Finished(id: string, failed: bool, opening: Opening)
    | Noted
    | Shown(surface: Surface, isVisible: bool)
    | Defined(id: string, def: Def)
    | Ticked(ms: nat)

  /** Only the entry of `id` changes, to `e` but for its timer. */
  ghost predicate Turns(before: map<string, Entry>, after: map<string, Entry>, id: string, e: Entry) {
    && after.Keys == before.Keys && id in after && SameButTimer(after[id], e)
    && forall o :: o in before && o != id ==> after[o] == before[o]
  }

  /** An event of one source: its entry, the attempts and the counted requests after it, and nothing else. */
  ghost predicate Does(a: Shot, b: Shot, id: string, e: Entry, attempts: seq<Attempt>, asked: map<string, nat>) {
    && Turns(a.entries, b.entries, id, e) && b.attempts == attempts && b.asked == asked
    && b.visible == a.visible && b.now == a.now && b.lastEventAt == a.lastEventAt
  }

  /** An attempt of the source, whose entry is `e`, begins. */
  ghost predicate Attempts(a: Shot, b: Shot, id: string, e: Entry, forced: bool, opening: Opening,
                           asked: map<string, nat>) {
    Does(a, b, id, Attempted(e, a.now, opening),
      a.attempts + [AttemptOf(id, e, a.now, a.lastEventAt, forced)], asked)
  }

  /** The timer went off before the delay was over. */
  predicate Early(e: Entry, visible: set<Surface>, now: int, lastEventAt: int) {
    !e.inFlight && Active(e.def, visible) && !e.forced && !MayBegin(e, now, lastEventAt)
  }

  predicate Expires(e: Entry, visible: set<Surface>, now: int, lastEventAt: int) {
    !e.inFlight && Active(e.def, visible) && (e.forced || MayBegin(e, now, lastEventAt)) && e.def.hasFetch
  }

  /** A timer that went off: an early one, one in flight and one of a hidden source begin nothing. */
  ghost predicate AfterFire(a: Shot, b: Shot, id: string, opening: Opening) {
    id in a.entries &&
    var e := a.entries[id];
    if Expires(e, a.visible, a.now, a.lastEventAt) then Attempts(a, b, id, e, e.forced, opening, a.asked)
    else Does(a, b, id, e, a.attempts, a.asked)
  }

  /** A forced refresh in flight that is heard: of an active or event-driven source. */
  predicate Heard(e: Entry, visible: set<Surface>, force: bool) {
    e.inFlight && force && (!Polled(e.def) || Active(e.def, visible))
  }

  /** In flight, a forced refresh of an active or event-driven source asks for a rerun; any other is dropped. A
      polled source that is not active remembers a forced refresh only when it is not in flight. */
  ghost predicate AfterRefresh(a: Shot, b: Shot, id: string, force: bool, opening: Opening) {
    if id !in a.entries || !a.entries[id].def.hasFetch then b == a
    else if id !in a.asked then false
    else
      var e := a.entries[id];
      if e.inFlight then
        var heard := Heard(e, a.visible, force);
        && Does(a, b, id, e.(rerun := e.rerun || heard), a.attempts,
             a.asked[id := a.asked[id] + if heard then 1 else 0])
        && b.entries[id].timer == e.timer
      else if Polled(e.def) && !Active(e.def, a.visible) then
        && Does(a, b, id, e.(forced := e.forced || force), a.attempts, a.asked)
        && b.entries[id].timer == e.timer
      else if Polled(e.def) && !force && !MayBegin(e, a.now, a.lastEventAt) then b == a
      else Attempts(a, b, id, e, force, opening, a.asked)
  }

  /** The end of a flight: one further attempt begins now if a forced refresh was heard during it, however many were;
      otherwise none. */
  ghost predicate AfterFinish(a: Shot, b: Shot, id: string, failed: bool, opening: Opening) {
    id in a.entries && id in a.asked && a.entries[id].inFlight &&
    var ended := Ended(a.entries[id], if failed then a.entries[id].failures + 1 else 0);
    if a.asked[id] > 0 then Attempts(a, b, id, ended, true, opening, a.asked[id := 0])
    else Does(a, b, id, ended, a.attempts, a.asked[id := 0])
  }

  /** What an event does. */
  ghost predicate Step(a: Shot, ev: Event, b: Shot) {
    match ev
    case Refreshed(id, force, opening) => AfterRefresh(a, b, id, force, opening)
    case Fired(id, opening) => AfterFire(a, b, id, opening)
    case Resolved(id) =>
      && id in a.entries && a.entries[id].inFlight
      && b == a.(entries := a.entries[id := a.entries[id].(failures := 0)])
    case Finished(id, failed, opening) => AfterFinish(a, b, id, failed, opening)
    case Noted =>
      && OnlyTimers(a.entries, b.entries) && b == a.(entries := b.entries, lastEventAt := a.now)
      && if Idle(a.now, a.lastEventAt) then Timed(b.entries, b.entries.Keys, b.visible) else b.entries == a.entries
    case Shown(surface, isVisible) =>
      && OnlyTimers(a.entries, b.entries) && Timed(b.entries, b.entries.Keys, b.visible)
      && b == a.(entries := b.entries, visible := if isVisible then a.visible + {surface} else a.visible - {surface})
    case Defined(id, def) =>
      && id !in a.entries && id in b.entries && b == a.(entries := b.entries, asked := a.asked[id := 0])
      && b.entries == a.entries[id := b.entries[id]]
      && SameButTimer(b.entries[id], Entry(def, false, false, false, 0, None, None))
    case Ticked(ms) => b == a.(now := a.now + ms)
  }

  /** The others keep their places, and so their entries. */
  lemma KeptPlacesTurn(before: map<string, Entry>, armed0: map<nat, Armed>, after: map<string, Entry>,
                       armed: map<nat, Armed>, id: string, e: Entry, visible: set<Surface>, now: int, lastEventAt: int)
    requires KeepsPlaces(before, armed0, after, armed, id, visible, now, lastEventAt)
    requires id in before && SameButTimer(after[id], e)
    ensures Turns(before, after, id, e)
  {
  }

  class Sources {
    var entries: map<string, Entry>
    var visible: set<Surface>
    var lastEventAt: int
    /** The clock: the time and the armed timers. */
    var now: int
    var armed: map<nat, Armed>
    var nextTimer: nat
    /** Every attempt, the flights, and the forced refreshes that arrived during the current flight of a source that
        is active or event-driven. */
    ghost var attempts: seq<Attempt>
    ghost var flying: multiset<string>
    ghost var asked: map<string, nat>

    ghost function Now(): Shot
      reads this
    {
      Shot(entries, attempts, asked, visible, now, lastEventAt)
    }

    ghost predicate Valid()
      reads this
    {
      Steady() && AllPlaced(entries, visible, now, lastEventAt, armed)
    }

    /** All but the places of the timers. */
    ghost predicate Steady()
      reads this
    {
      TimersOk(entries, armed, nextTimer) && Counted(entries, flying, asked) && Sound(entries, attempts, now)
    }

    /** initSources. */
    constructor (now: int)
      ensures Valid() && Now() == Shot(map[], [], map[], {Band, Alert}, now, now)
    {
      entries, visible, lastEventAt := map[], {Band, Alert}, now;
      this.now, armed, nextTimer := now, map[], 0;
      attempts, flying, asked := [], multiset{}, map[];
    }

    /** Cancels the timer of the source and, with a due time, arms another. */
    method Rearm(id: string, due: Option<int>)
      requires id in entries
      modifies this`entries, this`armed, this`nextTimer
      ensures entries == WithTimer(old(entries), id, old(nextTimer), due)
      ensures armed == Rearmed(old(entries), old(armed), old(nextTimer), id, due) && nextTimer == old(nextTimer) + 1
    {
      var e := entries[id];
      if e.timer.Some? {
        armed := armed - {e.timer.value};
      }
      entries := entries[id := e.(timer := None)];
      if due.Some? {
        armed := armed[nextTimer := Armed(id, due.value)];
        entries := entries[id := e.(timer := Some(nextTimer))];
      }
      nextTimer := nextTimer + 1;
    }

    /** Cancels the source's timer and arms another if it is active; every other entry and timer stays. */
    method Schedule(id: string)
      requires Steady() && id in entries
      modifies this`entries, this`armed, this`nextTimer
      ensures Steady() && Placed(entries[id], visible, now, lastEventAt, armed)
      ensures entries == old(entries)[id := old(entries)[id].(timer := entries[id].timer)]
      ensures Rearms(entries[id], visible, now, lastEventAt, armed) && OnlyTimersOf(id, old(armed), armed)
      ensures KeepsPlaces(old(entries), old(armed), entries, armed, id, visible, now, lastEventAt)
    {
      assert EntryHasTimer(entries[id], armed, id);
      var due := DueOf(entries[id], visible, now, lastEventAt);
      RearmKeepsTimers(entries, armed, nextTimer, id, due);
      RearmPlaces(entries, armed, nextTimer, id, visible, now, lastEventAt);
      OnlyTimerKeepsRest(entries, id, if due.None? then None else Some(nextTimer), flying, asked, attempts, now);
      Rearm(id, due);
    }

    /** The attempt begins. */
    method Begin(id: string, ghost forced: bool)
      requires Steady() && id in entries && Begins(entries[id]) && (!forced ==> MayBegin(entries[id], now, lastEventAt))
      modifies this`entries, this`attempts, this`flying
      ensures Steady() && entries == old(entries)[id := Begun(old(entries)[id], now)]
      ensures attempts == old(attempts) + [AttemptOf(id, old(entries)[id], now, lastEventAt, forced)]
    {
      var e := entries[id];
      ghost var a := AttemptOf(id, e, now, lastEventAt, forced);
      AttemptIsThrottled(id, e, now, lastEventAt, forced);
      BeginKeeps(entries, armed, nextTimer, flying, asked, attempts, now, id, a);
      attempts, flying, entries := attempts + [a], flying + multiset{id}, entries[id := Begun(e, now)];
    }

    /** The flight is over. */
    method End(id: string, failures: nat)
      requires Steady() && id in entries && entries[id].inFlight
      modifies this`entries, this`flying, this`asked
      ensures entries == old(entries)[id := Ended(old(entries)[id], failures)] && asked == old(asked)[id := 0]
      ensures Steady()
    {
      EndKeeps(entries, armed, nextTimer, flying, asked, attempts, now, id, failures);
      ghost var after := entries[id := Ended(entries[id], failures)];
      entries := entries[id := Ended(entries[id], failures)];
      flying, asked := flying - multiset{id}, asked[id := 0];
      assert entries == after;
    }

    /** The flight is over and the next timer armed. */
    method EndAndSchedule(id: string, failures: nat)
      requires Steady() && id in entries && entries[id].inFlight
      modifies this`entries, this`armed, this`nextTimer, this`flying, this`asked
      ensures Steady() && KeepsPlaces(old(entries), old(armed), entries, armed, id, visible, now, lastEventAt)
              && asked == old(asked)[id := 0]
      ensures Placed(entries[id], visible, now, lastEventAt, armed)
              && SameButTimer(entries[id], Ended(old(entries)[id], failures))
      ensures Rearms(entries[id], visible, now, lastEventAt, armed) && OnlyTimersOf(id, old(armed), armed)
    {
      SameTimersKeepPlaces(entries, armed, id, Ended(entries[id], failures), visible, now, lastEventAt);
      End(id, failures);
      ghost var mid, left := entries, armed;
      Schedule(id);
      PlacesChain(old(entries), old(armed), mid, left, entries, armed, id, visible, now, lastEventAt);
    }

    /** Begins an attempt that is over before anything is awaited. */
    method AttemptInVain(id: string, ghost forced: bool, failures: nat)
      requires Steady() && id in entries && id in asked && asked[id] == 0
      requires Begins(entries[id]) && (!forced ==> MayBegin(entries[id], now, lastEventAt))
      modifies this`entries, this`armed, this`nextTimer, this`attempts, this`flying, this`asked
      ensures Steady() && KeepsPlaces(old(entries), old(armed), entries, armed, id, visible, now, lastEventAt)
              && asked == old(asked)
      ensures Placed(entries[id], visible, now, lastEventAt, armed)
      ensures Rearms(entries[id], visible, now, lastEventAt, armed) && OnlyTimersOf(id, old(armed), armed)
      ensures SameButTimer(entries[id], Ended(Begun(old(entries)[id], now), failures))
      ensures attempts == old(attempts) + [AttemptOf(id, old(entries)[id], now, lastEventAt, forced)]
    {
      assert asked[id := 0] == asked;
      SameTimersKeepPlaces(entries, armed, id, Begun(entries[id], now), visible, now, lastEventAt);
      Begin(id, forced);
      ghost var mid := entries;
      EndAndSchedule(id, failures);
      PlacesChain(old(entries), old(armed), mid, old(armed), entries, armed, id, visible, now, lastEventAt);
    }

    /** Begins an attempt unless one is in flight or there is nothing to fetch. */
    method RunFetch(id: string, ghost forced: bool, opening: Opening)
      requires Steady() && id in entries && (entries[id].timer.Some? ==> Active(entries[id].def, visible))
      requires Begins(entries[id]) && !forced ==> MayBegin(entries[id], now, lastEventAt)
      modifies this`entries, this`armed, this`nextTimer, this`attempts, this`flying, this`asked
      ensures Steady() && KeepsPlaces(old(entries), old(armed), entries, armed, id, visible, now, lastEventAt)
              && asked == old(asked)
      ensures !old(Begins(entries[id])) ==> entries == old(entries) && attempts == old(attempts) && armed == old(armed)
      ensures old(Begins(entries[id])) ==>
                && Placed(entries[id], visible, now, lastEventAt, armed)
                && SameButTimer(entries[id], Attempted(old(entries)[id], now, opening))
                && attempts == old(attempts) + [AttemptOf(id, old(entries)[id], now, lastEventAt, forced)]
      ensures OnlyTimersOf(id, old(armed), armed)
      ensures old(Begins(entries[id])) && !opening.Awaits? ==> Rearms(entries[id], visible, now, lastEventAt, armed)
      ensures old(Begins(entries[id])) && opening.Awaits? ==>
          armed == old(armed) && entries[id].timer == old(entries)[id].timer
    {
      var e := entries[id];
      if e.inFlight || !e.def.hasFetch {
        SameTimersKeepPlaces(entries, armed, id, e, visible, now, lastEventAt);
        assert entries == entries[id := e];
        return;
      }
      assert SoundAt(e, id, attempts, now) && CountedAt(e, id, flying, asked[id]);
      match opening {
        case Awaits =>
          SameTimersKeepPlaces(entries, armed, id, Begun(e, now), visible, now, lastEventAt);
          BegunIsPlaced(e, visible, now, lastEventAt, armed);
          Begin(id, forced);
        case NoKey => AttemptInVain(id, forced, 0);
        case Throws => AttemptInVain(id, forced, e.failures + 1);
      }
    }

    /** The fetch has its value and may still be writing it to the shared store. */
    method FetchResolved(id: string)
      requires Valid() && id in entries && entries[id].inFlight
      modifies this`entries
      ensures Valid() && Step(old(Now()), Resolved(id), Now())
    {
      assert EntryHasTimer(entries[id], armed, id) && CountedAt(entries[id], id, flying, asked[id]);
      assert SoundAt(entries[id], id, attempts, now) && Placed(entries[id], visible, now, lastEventAt, armed);
      ghost var before := entries;
      entries := entries[id := entries[id].(failures := 0)];
      forall t | t in armed ensures TimerHasEntry(entries, armed, t) { assert TimerHasEntry(before, armed, t); }
    }

    /** The flight is over and another attempt begins at once. */
    method EndAndRun(id: string, failures: nat, opening: Opening)
      requires Steady() && id in entries && id in asked && entries[id].inFlight
      requires entries[id].timer.Some? ==> Active(entries[id].def, visible)
      modifies this`entries, this`armed, this`nextTimer, this`attempts, this`flying, this`asked
      ensures Steady() && KeepsPlaces(old(entries), old(armed), entries, armed, id, visible, now, lastEventAt)
              && asked == old(asked)[id := 0]
      ensures Placed(entries[id], visible, now, lastEventAt, armed)
      ensures var ended := Ended(old(entries)[id], failures);
              && SameButTimer(entries[id], Attempted(ended, now, opening))
              && attempts == old(attempts) + [AttemptOf(id, ended, now, lastEventAt, true)]
      ensures OnlyTimersOf(id, old(armed), armed)
      ensures !opening.Awaits? ==> Rearms(entries[id], visible, now, lastEventAt, armed)
      ensures opening.Awaits? ==> armed == old(armed) && entries[id].timer == old(entries)[id].timer
    {
      assert SoundAt(entries[id], id, attempts, now);
      SameTimersKeepPlaces(entries, armed, id, Ended(entries[id], failures), visible, now, lastEventAt);
      End(id, failures);
      ghost var mid, left := entries, armed;
      RunFetch(id, true, opening);
      PlacesChain(old(entries), old(armed), mid, left, entries, armed, id, visible, now, lastEventAt);
    }

    method Rerun(id: string, failures: nat, opening: Opening)
      requires Valid() && id in entries && id in asked && entries[id].inFlight
      modifies this`entries, this`armed, this`nextTimer, this`attempts, this`flying, this`asked
      ensures Valid()
      ensures Attempts(old(Now()), Now(), id, Ended(old(entries)[id], failures), true, opening, old(asked)[id := 0])
      ensures OnlyTimersOf(id, old(armed), armed) && id in entries
      ensures !opening.Awaits? ==> Rearms(entries[id], visible, now, lastEventAt, armed)
      ensures opening.Awaits? ==> armed == old(armed) && entries[id].timer == old(entries)[id].timer
    {
      ghost var ended := Ended(entries[id], failures);
      assert Placed(entries[id], visible, now, lastEventAt, armed);
      EndAndRun(id, failures, opening);
      AllInPlace(old(entries), old(armed), entries, armed, id, visible, now, lastEventAt);
      KeptPlacesTurn(old(entries), old(armed), entries, armed, id, Attempted(ended, now, opening), visible, now,
        lastEventAt);
    }

    /** The flight is over and the next timer armed. */
    method Rest(id: string, failures: nat)
      requires Valid() && id in entries && id in asked && entries[id].inFlight
      modifies this`entries, this`armed, this`nextTimer, this`flying, this`asked
      ensures Valid()
      ensures Does(old(Now()), Now(), id, Ended(old(entries)[id], failures), attempts, old(asked)[id := 0])
      ensures OnlyTimersOf(id, old(armed), armed) && id in entries
      ensures Rearms(entries[id], visible, now, lastEventAt, armed)
    {
      ghost var ended := Ended(entries[id], failures);
      EndAndSchedule(id, failures);
      AllInPlace(old(entries), old(armed), entries, armed, id, visible, now, lastEventAt);
      KeptPlacesTurn(old(entries), old(armed), entries, armed, id, ended, visible, now, lastEventAt);
    }

    /** The end of a flight: exactly one further attempt begins now if a forced refresh asked for one during the
        flight, however many did; otherwise the next timer is armed. */
    method Finish(id: string, failed: bool, opening: Opening)
      requires Valid() && id in entries && id in asked && entries[id].inFlight
      modifies this`entries, this`armed, this`nextTimer, this`attempts, this`flying, this`asked
      ensures Valid() && Step(old(Now()), Finished(id, failed, opening), Now())
      ensures OnlyTimersOf(id, old(armed), armed) && id in entries
      ensures if old(asked[id]) > 0 && opening.Awaits? then armed == old(armed)
              && entries[id].timer == old(entries)[id].timer
              else Rearms(entries[id], visible, now, lastEventAt, armed)
    {
      var e := entries[id];
      assert CountedAt(e, id, flying, asked[id]);
      var failures := if failed then e.failures + 1 else 0;
      if e.rerun {
        Rerun(id, failures, opening);
      } else {
        Rest(id, failures);
      }
    }

    /** A timer's callback. It may run early; then it arms the timer again for the rest. */
    method FireTimer(t: nat, opening: Opening)
      requires Valid() && t in armed && armed[t].id in entries
      modifies this`entries, this`armed, this`nextTimer, this`attempts, this`flying, this`asked
      ensures Valid() && Step(old(Now()), Fired(old(armed[t].id), opening), Now())
      ensures OnlyTimersOf(old(armed[t].id), old(armed), armed) && old(armed[t].id) in entries
      ensures DueRight(entries[old(armed[t].id)], now, lastEventAt, armed)
      ensures var id := old(armed[t].id);
              Early(old(entries)[id], visible, now, lastEventAt) ==>
                var u := entries[id].timer;
                u.Some? && u.value in armed && armed[u.value].due > now
    {
      assert TimerHasEntry(entries, armed, t);
      var id := armed[t].id;
      ghost var e := entries[id];
      DisarmAndExpire(id, opening);
      AllInPlace(old(entries), old(armed), entries, armed, id, visible, now, lastEventAt);
      ghost var done := if Expires(e, visible, now, lastEventAt) then Attempted(e, now, opening) else e;
      KeptPlacesTurn(old(entries), old(armed), entries, armed, id, done, visible, now, lastEventAt);
    }

    method DisarmAndExpire(id: string, opening: Opening)
      requires Valid() && id in entries
      modifies this`entries, this`armed, this`nextTimer, this`attempts, this`flying, this`asked
      ensures Steady() && KeepsPlaces(old(entries), old(armed), entries, armed, id, visible, now, lastEventAt)
      ensures Placed(entries[id], visible, now, lastEventAt, armed) && asked == old(asked)
      ensures OnlyTimersOf(id, old(armed), armed) && DueRight(entries[id], now, lastEventAt, armed)
      ensures Early(old(entries)[id], visible, now, lastEventAt) ==> entries[id].timer.Some?
      ensures var e := old(entries[id]);
              if Expires(e, visible, now, lastEventAt) then
                && attempts == old(attempts) + [AttemptOf(id, e, now, lastEventAt, e.forced)]
                && SameButTimer(entries[id], Attempted(e, now, opening))
              else attempts == old(attempts) && SameButTimer(entries[id], e)
    {
      Disarm(id);
      ghost var mid, left := entries, armed;
      Expire(id, opening);
      PlacesChain(old(entries), old(armed), mid, left, entries, armed, id, visible, now, lastEventAt);
    }

    /** What the callback does once the timer is gone. */
    method Expire(id: string, opening: Opening)
      requires Steady() && id in entries && entries[id].timer.None?
      modifies this`entries, this`armed, this`nextTimer, this`attempts, this`flying, this`asked
      ensures Steady() && KeepsPlaces(old(entries), old(armed), entries, armed, id, visible, now, lastEventAt)
      ensures Placed(entries[id], visible, now, lastEventAt, armed) && asked == old(asked)
      ensures OnlyTimersOf(id, old(armed), armed) && DueRight(entries[id], now, lastEventAt, armed)
      ensures Early(old(entries)[id], visible, now, lastEventAt) ==> entries[id].timer.Some?
      ensures var e := old(entries[id]);
              if Expires(e, visible, now, lastEventAt) then
                && attempts == old(attempts) + [AttemptOf(id, e, now, lastEventAt, e.forced)]
                && SameButTimer(entries[id], Attempted(e, now, opening))
              else attempts == old(attempts) && SameButTimer(entries[id], e)
    {
      var e := entries[id];
      if e.inFlight || !Active(e.def, visible) {
        SameTimersKeepPlaces(entries, armed, id, e, visible, now, lastEventAt);
        assert entries[id := e] == entries;
      } else if !e.forced && !MayBegin(e, now, lastEventAt) {
        Schedule(id);
      } else {
        RunFetch(id, e.forced, opening);
      }
    }

    /** The timer of the source is gone. */
    method Disarm(id: string)
      requires Valid() && id in entries
      modifies this`entries, this`armed, this`nextTimer
      ensures Steady() && KeepsPlaces(old(entries), old(armed), entries, armed, id, visible, now, lastEventAt)
              && entries == old(entries)[id := old(entries)[id].(timer := None)]
      ensures OnlyTimersOf(id, old(armed), armed)
    {
      assert EntryHasTimer(entries[id], armed, id);
      RearmKeepsTimers(entries, armed, nextTimer, id, None);
      forall o | o in entries && o != id
        ensures Placed(WithTimer(entries, id, nextTimer, None)[o], visible, now, lastEventAt,
            Rearmed(entries, armed, nextTimer, id, None))
      {
        RearmKeepsOthers(entries, armed, nextTimer, id, None, o, visible, now, lastEventAt);
      }
      OnlyTimerKeepsRest(entries, id, None, flying, asked, attempts, now);
      Rearm(id, None);
    }

    method RaiseFlag(id: string, e: Entry, ghost count: nat)
      requires Steady() && id in entries && (e.rerun <==> count > 0) && Basic(e, now)
      requires e == entries[id].(rerun := e.rerun, forced := e.forced)
      modifies this`entries, this`asked
      ensures Steady() && entries == old(entries)[id := e] && asked == old(asked)[id := count]
    {
      FlagKeeps(entries, armed, nextTimer, flying, asked, attempts, now, id, e, count);
      asked, entries := asked[id := count], entries[id := e];
    }

    /** A flag of the entry is raised. */
    method Flag(id: string, e: Entry, ghost count: nat)
      requires Valid() && id in entries && (e.rerun <==> count > 0) && Basic(e, now)
      requires e == entries[id].(rerun := e.rerun, forced := e.forced) && (e.inFlight || !Active(e.def, visible))
      modifies this`entries, this`asked
      ensures Valid() && Does(old(Now()), Now(), id, e, old(attempts), old(asked)[id := count])
      ensures entries[id].timer == e.timer
    {
      FlagIsPlaced(entries[id], e, visible, now, lastEventAt, armed);
      SameTimersKeepPlaces(entries, armed, id, e, visible, now, lastEventAt);
      AllInPlace(entries, armed, entries[id := e], armed, id, visible, now, lastEventAt);
      RaiseFlag(id, e, count);
    }

    /** An attempt begins, subject to no throttle if forced. */
    method RunNow(id: string, ghost forced: bool, opening: Opening)
      requires Valid() && id in entries && Begins(entries[id])
      requires !forced ==> MayBegin(entries[id], now, lastEventAt)
      modifies this`entries, this`armed, this`nextTimer, this`attempts, this`flying, this`asked
      ensures Valid() && Attempts(old(Now()), Now(), id, old(entries)[id], forced, opening, old(asked))
      ensures OnlyTimersOf(id, old(armed), armed) && id in entries
      ensures !opening.Awaits? ==> Rearms(entries[id], visible, now, lastEventAt, armed)
      ensures opening.Awaits? ==> armed == old(armed) && entries[id].timer == old(entries)[id].timer
    {
      ghost var e := entries[id];
      assert Placed(e, visible, now, lastEventAt, armed);
      RunFetch(id, forced, opening);
      AllInPlace(old(entries), old(armed), entries, armed, id, visible, now, lastEventAt);
      KeptPlacesTurn(old(entries), old(armed), entries, armed, id, Attempted(e, now, opening), visible, now,
        lastEventAt);
    }

    /** A refresh in flight asks for a rerun if it is heard. */
    method AskRerun(id: string, heard: bool)
      requires Valid() && id in entries && entries[id].inFlight
      modifies this`entries, this`asked
      ensures Valid() && id in old(asked) && id in entries && entries[id].timer == old(entries)[id].timer
      ensures var e := old(entries)[id];
              Does(old(Now()), Now(), id, e.(rerun := e.rerun || heard), attempts,
                old(asked)[id := old(asked)[id] + if heard then 1 else 0])
    {
      var e := entries[id];
      assert CountedAt(e, id, flying, asked[id]) && SoundAt(e, id, attempts, now);
      Flag(id, e.(rerun := e.rerun || heard), asked[id] + if heard then 1 else 0);
    }

    /** A refresh of a polled source that is not active, nor in flight, is remembered if forced. */
    method RememberForce(id: string, force: bool)
      requires Valid() && id in entries && Begins(entries[id]) && Polled(entries[id].def)
      requires !Active(entries[id].def, visible)
      modifies this`entries, this`asked
      ensures Valid() && id in entries && entries[id].timer == old(entries)[id].timer
      ensures var e := old(entries)[id];
              Does(old(Now()), Now(), id, e.(forced := e.forced || force), attempts, old(asked))
    {
      var e := entries[id];
      assert CountedAt(e, id, flying, asked[id]) && SoundAt(e, id, attempts, now);
      assert asked[id := asked[id]] == asked;
      Flag(id, e.(forced := e.forced || force), asked[id]);
    }

    /** An immediate fetch subject to the throttle, or with `force` not. */
    method Refresh(id: string, force: bool, opening: Opening)
      requires Valid()
      modifies this`entries, this`armed, this`nextTimer, this`attempts, this`flying, this`asked
      ensures Valid() && Step(old(Now()), Refreshed(id, force, opening), Now()) && OnlyTimersOf(id, old(armed), armed)
      ensures if attempts != old(attempts) && !opening.Awaits? && id in entries
              then Rearms(entries[id], visible, now, lastEventAt, armed)
              else armed == old(armed) && (id in entries ==> entries[id].timer == old(entries)[id].timer)
    {
      if id !in entries || !entries[id].def.hasFetch {
        return;
      }
      var e := entries[id];
      if e.inFlight {
        AskRerun(id, Heard(e, visible, force));
      } else if Polled(e.def) && !Active(e.def, visible) {
        RememberForce(id, force);
      } else if !Polled(e.def) || force || MayBegin(e, now, lastEventAt) {
        RunNow(id, force, opening);
      }
    }

    /** Arms every source's timer anew. */
    method ScheduleAll()
      requires Steady()
      modifies this`entries, this`armed, this`nextTimer
      ensures Valid() && OnlyTimers(old(entries), entries) && Timed(entries, entries.Keys, visible)
      ensures AllRight(entries, entries.Keys, now, lastEventAt, armed)
    {
      var todo := entries.Keys;
      while todo != {}
        invariant Steady() && todo <= entries.Keys == old(entries.Keys)
        invariant PlacedBut(entries, todo, visible, now, lastEventAt, armed) && OnlyTimers(old(entries), entries)
        invariant Timed(entries, entries.Keys - todo, visible)
        invariant AllRight(entries, entries.Keys - todo, now, lastEventAt, armed)
        decreases todo
      {
        var id :| id in todo;
        ghost var before, left, next := entries, armed, nextTimer;
        Schedule(id);
        OneMorePlaced(before, left, entries, armed, id, todo, visible, now, lastEventAt);
        OneMoreTimer(old(entries), before, entries, id);
        OneMoreTimed(before, entries, id, entries.Keys - todo, visible);
        OneMoreRight(before, left, entries, armed, id, entries.Keys - todo, now, lastEventAt, next);
        assert entries.Keys - (todo - {id}) == entries.Keys - todo + {id};
        todo := todo - {id};
      }
      assert entries.Keys - todo == entries.Keys;
    }

    /** An event ends idleness. */
    method NoteEvent()
      requires Valid()
      modifies this`entries, this`armed, this`nextTimer, this`lastEventAt
      ensures Valid() && !Idle(now, lastEventAt) && Step(old(Now()), Noted, Now())
      ensures if old(Idle(now, lastEventAt)) then AllRight(entries, entries.Keys, now, lastEventAt, armed)
              else armed == old(armed)
    {
      var wasIdle := Idle(now, lastEventAt);
      ghost var before := lastEventAt;
      lastEventAt := now;
      if wasIdle {
        ScheduleAll();
      } else {
        forall id | id in entries ensures Placed(entries[id], visible, now, now, armed) {
          assert Placed(entries[id], visible, now, before, armed);
        }
      }
    }

    method SetVisible(surface: Surface, isVisible: bool)
      requires Valid()
      modifies this`entries, this`armed, this`nextTimer, this`visible
      ensures Valid() && Step(old(Now()), Shown(surface, isVisible), Now())
      ensures AllRight(entries, entries.Keys, now, lastEventAt, armed)
    {
      visible := if isVisible then visible + {surface} else visible - {surface};
      ScheduleAll();
    }

    method DefineSource(id: string, def: Def)
      requires Valid() && id !in entries
      modifies this`entries, this`armed, this`nextTimer, this`asked
      ensures Valid() && Step(old(Now()), Defined(id, def), Now())
      ensures id in entries && Rearms(entries[id], visible, now, lastEventAt, armed)
              && OnlyTimersOf(id, old(armed), armed)
    {
      AddAndSchedule(id, Entry(def, false, false, false, 0, None, None));
      AllInPlace(old(entries), old(armed), entries, armed, id, visible, now, lastEventAt);
    }

    method AddAndSchedule(id: string, e: Entry)
      requires Valid() && id !in entries && e == Entry(e.def, false, false, false, 0, None, None)
      modifies this`entries, this`armed, this`nextTimer, this`asked
      ensures id in entries && SameButTimer(entries[id], e)
      ensures entries == old(entries)[id := entries[id]] && asked == old(asked)[id := 0]
      ensures Rearms(entries[id], visible, now, lastEventAt, armed) && OnlyTimersOf(id, old(armed), armed)
      ensures Placed(entries[id], visible, now, lastEventAt, armed)
      ensures KeepsPlaces(old(entries), old(armed), entries, armed, id, visible, now, lastEventAt)
      ensures Steady()
    {
      Add(id, e);
      ghost var mid, left := entries, armed;
      Schedule(id);
      Overwritten(old(entries), id, e, entries[id]);
      PlacesChain(old(entries), old(armed), mid, left, entries, armed, id, visible, now, lastEventAt);
    }

    method Add(id: string, e: Entry)
      requires Valid() && id !in entries && e == Entry(e.def, false, false, false, 0, None, None)
      modifies this`entries, this`asked
      ensures entries == old(entries)[id := e] && asked == old(asked)[id := 0]
      ensures KeepsPlaces(old(entries), armed, entries, armed, id, visible, now, lastEventAt)
      ensures Steady()
    {
      DefineKeeps(entries, armed, nextTimer, flying, asked, attempts, now, id, e);
      SameTimersKeepPlaces(entries, armed, id, e, visible, now, lastEventAt);
      entries, asked := entries[id := e], asked[id := 0];
    }

    /** Time passes. */
    method Tick(ms: nat)
      requires Valid()
      modifies this`now
      ensures Valid() && Step(old(Now()), Ticked(ms), Now())
    {
      forall id | id in entries ensures Placed(entries[id], visible, now + ms, lastEventAt, armed) {
        LaterIsPlaced(entries[id], visible, now, now + ms, lastEventAt, armed);
      }
      forall id | id in entries ensures SoundAt(entries[id], id, attempts, now + ms) {
        assert SoundAt(entries[id], id, attempts, now);
      }
      now := now + ms;
    }
  }

  predicate Begins(e: Entry) {
    !e.inFlight && e.def.hasFetch
  }

  /** The throttle leaves room for an attempt nobody forces. */
  predicate MayBegin(e: Entry, now: int, lastEventAt: int) {
    !Polled(e.def) || e.lastAttemptAt.None?
      || now >= e.lastAttemptAt.value + DelayOf(e.def, e.failures, Idle(now, lastEventAt))
  }

  function AttemptOf(id: string, e: Entry, now: int, lastEventAt: int, forced: bool): Attempt {
    Attempt(id, now, Polled(e.def), forced, e.lastAttemptAt, DelayOf(e.def, e.failures, Idle(now, lastEventAt)))
  }

  lemma AttemptIsThrottled(id: string, e: Entry, now: int, lastEventAt: int, forced: bool)
    requires !forced ==> MayBegin(e, now, lastEventAt)
    ensures var a := AttemptOf(id, e, now, lastEventAt, forced);
            Throttled(a) && a.id == id && a.at == now && a.before == e.lastAttemptAt
  {
  }

  function Begun(e: Entry, now: int): Entry {
    e.(inFlight := true, forced := false, lastAttemptAt := Some(now))
  }

  function Ended(e: Entry, failures: nat): Entry {
    e.(inFlight := false, rerun := false, failures := failures)
  }

  /** An attempt as far as it gets before anything is awaited. */
  function Attempted(e: Entry, now: int, opening: Opening): Entry {
    match opening
    case Awaits => Begun(e, now)
    case NoKey => Ended(Begun(e, now), 0)
    case Throws => Ended(Begun(e, now), e.failures + 1)
  }

  /** An attempt is now the last one and has answered what forced it; only one that awaits its fetch stays in flight,
      one
      without a key has no failures, and one that throws at once is one more failure. */
  lemma AttemptedInWords(e: Entry, now: int, opening: Opening)
    ensures var f := Attempted(e, now, opening);
            && f.lastAttemptAt == Some(now) && !f.forced && f.def == e.def && f.timer == e.timer
            && (f.inFlight <==> opening.Awaits?) && f.rerun == (e.rerun && opening.Awaits?)
            && f.failures == if opening.Awaits? then e.failures else if opening.NoKey? then 0 else e.failures + 1
  {
  }

  predicate SameButTimer(a: Entry, b: Entry) {
    a == b.(timer := a.timer)
  }

  lemma LastStartNext(attempts: seq<Attempt>, a: Attempt, id: string)
    ensures LastStart(attempts + [a], id) == if a.id == id then Some(a.at) else LastStart(attempts, id)
  {
    assert (attempts + [a])[..|attempts + [a]| - 1] == attempts;
  }

  lemma FlagIsPlaced(e: Entry, f: Entry, visible: set<Surface>, now: int, lastEventAt: int, armed: map<nat, Armed>)
    requires Placed(e, visible, now, lastEventAt, armed) && f == e.(rerun := f.rerun, forced := f.forced)
             && (e.inFlight || !Active(e.def, visible))
    ensures Placed(f, visible, now, lastEventAt, armed)
  {
  }

  lemma BegunIsPlaced(e: Entry, visible: set<Surface>, now: int, lastEventAt: int, armed: map<nat, Armed>)
    requires e.timer.Some? ==> Active(e.def, visible)
    ensures Placed(Begun(e, now), visible, now, lastEventAt, armed)
  {
  }

  /** Changing an entry but for its timer leaves the timers in order. */
  lemma SameTimerKeepsTimers(entries: map<string, Entry>, armed: map<nat, Armed>, n: nat, id: string, e: Entry)
    requires TimersOk(entries, armed, n) && id in entries && e.timer == entries[id].timer
    ensures TimersOk(entries[id := e], armed, n)
  {
    assert EntryHasTimer(entries[id], armed, id);
    forall t | t in armed ensures TimerHasEntry(entries[id := e], armed, t) { assert TimerHasEntry(entries, armed, t); }
  }

  lemma BeginKeeps(entries: map<string, Entry>, armed: map<nat, Armed>, n: nat, flying: multiset<string>,
                   asked: map<string, nat>,
                   attempts: seq<Attempt>, now: int, id: string, a: Attempt)
    requires TimersOk(entries, armed, n) && Counted(entries, flying, asked) && Sound(entries, attempts, now)
    requires id in entries && Begins(entries[id]) && a.id == id && a.at == now
             && a.before == entries[id].lastAttemptAt && Throttled(a)
    ensures var after := entries[id := Begun(entries[id], now)];
            TimersOk(after, armed, n) && Counted(after, flying + multiset{id}, asked)
              && Sound(after, attempts + [a], now)
  {
    var e := entries[id];
    var after := entries[id := Begun(e, now)];
    SameTimerKeepsTimers(entries, armed, n, id, Begun(e, now));
    forall o | o in entries
      ensures SoundAt(after[o], o, attempts + [a], now) && CountedAt(after[o], o, flying + multiset{id}, asked[o]) {
      assert SoundAt(entries[o], o, attempts, now) && CountedAt(entries[o], o, flying, asked[o]);
      LastStartNext(attempts, a, o);
    }
    assert SoundAt(e, id, attempts, now);
    forall o | o !in after ensures LastStart(attempts + [a], o) == None {
      LastStartNext(attempts, a, o);
    }
    assert (attempts + [a])[..|attempts + [a]| - 1] == attempts;
  }

  lemma EndKeeps(entries: map<string, Entry>, armed: map<nat, Armed>, n: nat, flying: multiset<string>,
                 asked: map<string, nat>,
                 attempts: seq<Attempt>, now: int, id: string, failures: nat)
    requires TimersOk(entries, armed, n) && Counted(entries, flying, asked) && Sound(entries, attempts, now)
    requires id in entries && entries[id].inFlight
    ensures var after := entries[id := Ended(entries[id], failures)];
            TimersOk(after, armed, n) && Counted(after, flying - multiset{id}, asked[id := 0])
              && Sound(after, attempts, now)
  {
    var e := entries[id];
    var after := entries[id := Ended(e, failures)];
    SameTimerKeepsTimers(entries, armed, n, id, Ended(e, failures));
    forall o | o in entries
      ensures SoundAt(after[o], o, attempts, now) && CountedAt(after[o], o, flying - multiset{id}, asked[id := 0][o]) {
      assert SoundAt(entries[o], o, attempts, now) && CountedAt(entries[o], o, flying, asked[o]);
    }
  }

  /** Raising a flag of an entry. */
  lemma FlagKeeps(entries: map<string, Entry>, armed: map<nat, Armed>, n: nat, flying: multiset<string>,
                  asked: map<string, nat>,
                  attempts: seq<Attempt>, now: int, id: string, e: Entry, count: nat)
    requires TimersOk(entries, armed, n) && Counted(entries, flying, asked) && Sound(entries, attempts, now)
             && id in entries
    requires e.timer == entries[id].timer && e.lastAttemptAt == entries[id].lastAttemptAt
             && e.inFlight == entries[id].inFlight
    requires Basic(e, now) && (e.rerun <==> count > 0)
    ensures TimersOk(entries[id := e], armed, n) && Counted(entries[id := e], flying, asked[id := count])
            && Sound(entries[id := e], attempts, now)
  {
    SameTimerKeepsTimers(entries, armed, n, id, e);
    forall o | o in entries
      ensures SoundAt(entries[id := e][o], o, attempts, now)
              && CountedAt(entries[id := e][o], o, flying, asked[id := count][o]) {
      assert SoundAt(entries[o], o, attempts, now) && CountedAt(entries[o], o, flying, asked[o]);
    }
  }

  lemma DefineKeeps(entries: map<string, Entry>, armed: map<nat, Armed>, n: nat, flying: multiset<string>,
                    asked: map<string, nat>,
                    attempts: seq<Attempt>, now: int, id: string, e: Entry)
    requires TimersOk(entries, armed, n) && Counted(entries, flying, asked) && Sound(entries, attempts, now)
             && id !in entries
    requires !e.inFlight && !e.rerun && !e.forced && e.lastAttemptAt.None? && e.timer.None?
    ensures TimersOk(entries[id := e], armed, n) && Counted(entries[id := e], flying, asked[id := 0])
            && Sound(entries[id := e], attempts, now)
  {
    forall t | t in armed ensures TimerHasEntry(entries[id := e], armed, t) { assert TimerHasEntry(entries, armed, t); }
    forall o | o in entries ensures CountedAt(entries[o], o, flying, asked[o]) {}
  }

  lemma LaterIsPlaced(e: Entry, visible: set<Surface>, now: int, later: int, lastEventAt: int, armed: map<nat, Armed>)
    requires now <= later && Placed(e, visible, now, lastEventAt, armed)
    ensures Placed(e, visible, later, lastEventAt, armed)
  {
    if e.timer.Some? {
      DelayBounds(e.def, e.failures, e.failures, Idle(later, lastEventAt));
    }
  }

  // ---------------------------------------------------------------- one flight

  /** The attempts of one source. */
  function Of(attempts: seq<Attempt>, id: string): seq<Attempt> {
    if attempts == [] then []
    else
      var a := attempts[|attempts| - 1];
      Of(attempts[..|attempts| - 1], id) + if a.id == id then [a] else []
  }

  lemma OfNext(attempts: seq<Attempt>, a: Attempt, id: string)
    ensures Of(attempts + [a], id) == Of(attempts, id) + if a.id == id then [a] else []
  {
    assert (attempts + [a])[..|attempts + [a]| - 1] == attempts;
  }

  /** Every event leads from one of the shots to the next. */
  ghost predicate History(shots: seq<Shot>, evs: seq<Event>) {
    |shots| == |evs| + 1 && forall k :: 0 <= k < |evs| ==> Step(shots[k], evs[k], shots[k + 1])
  }

  lemma HistoryGrows(shots: seq<Shot>, evs: seq<Event>, ev: Event, s: Shot)
    requires History(shots, evs) && Step(shots[|evs|], ev, s)
    ensures History(shots + [s], evs + [ev])
  {
    var more, all := shots + [s], evs + [ev];
    forall k | 0 <= k < |all| ensures Step(more[k], all[k], more[k + 1]) {
      if k < |evs| { assert Step(shots[k], evs[k], shots[k + 1]); }
    }
  }

  /** The event can happen: a flight to end, a timer to go off, a name to define. */
  predicate Happens(entries: map<string, Entry>, ev: Event) {
    match ev
    case Fired(id, _) => id in entries && entries[id].timer.Some?
    case Resolved(id) => id in entries && entries[id].inFlight
    case Finished(id, _, _) => id in entries && entries[id].inFlight
    case Defined(id, _) => id !in entries
    case _ => true
  }

  method Call(s: Sources, ev: Event)
    requires s.Valid() && Happens(s.entries, ev)
    modifies s
    ensures s.Valid() && Step(old(s.Now()), ev, s.Now())
  {
    match ev {
      case Refreshed(id, force, opening) => s.Refresh(id, force, opening);
      case Fired(id, opening) =>
        assert EntryHasTimer(s.entries[id], s.armed, id);
        s.FireTimer(s.entries[id].timer.value, opening);
      case Resolved(id) => s.FetchResolved(id);
      case Finished(id, failed, opening) => s.Finish(id, failed, opening);
      case Noted => s.NoteEvent();
      case Shown(surface, isVisible) => s.SetVisible(surface, isVisible);
      case Defined(id, def) => s.DefineSource(id, def);
      case Ticked(ms) => s.Tick(ms);
    }
  }

  /** Whatever is called in whatever order, what happens is a history. */
  method Play(s: Sources, script: seq<Event>) returns (ghost shots: seq<Shot>, ghost evs: seq<Event>)
    requires s.Valid()
    modifies s
    ensures s.Valid() && History(shots, evs) && shots[0] == old(s.Now()) && shots[|evs|] == s.Now()
  {
    shots, evs := [s.Now()], [];
    for k := 0 to |script|
      invariant s.Valid() && History(shots, evs) && shots[0] == old(s.Now()) && shots[|evs|] == s.Now()
    {
      if Happens(s.entries, script[k]) {
        Call(s, script[k]);
        HistoryGrows(shots, evs, script[k], s.Now());
        shots, evs := shots + [s.Now()], evs + [script[k]];
      }
    }
  }

  predicate Flies(s: Shot, id: string) {
    id in s.entries && id in s.asked && s.entries[id].inFlight && s.entries[id].def.hasFetch
  }

  predicate Ends(ev: Event, id: string) {
    ev.Finished? && ev.id == id
  }

  /** The event is a forced refresh of the source that is heard during its flight. */
  predicate Requests(s: Shot, ev: Event, id: string) {
    ev.Refreshed? && ev.id == id && id in s.entries && Heard(s.entries[id], s.visible, ev.force)
  }

  function CountRequests(shots: seq<Shot>, evs: seq<Event>, id: string): nat
    requires |shots| > |evs|
  {
    if evs == [] then 0
    else
      var n := |evs| - 1;
      CountRequests(shots, evs[..n], id) + if Requests(shots[n], evs[n], id) then 1 else 0
  }

  /** During a flight of the source no event but its end begins an attempt of it, and heard requests are counted. */
  lemma FlightGoesOn(a: Shot, ev: Event, b: Shot, id: string)
    requires Flies(a, id) && Step(a, ev, b) && !Ends(ev, id)
    ensures Flies(b, id) && b.entries[id].def == a.entries[id].def && Of(b.attempts, id) == Of(a.attempts, id)
    ensures b.asked[id] == a.asked[id] + if Requests(a, ev, id) then 1 else 0
  {
    if |b.attempts| > 0 && b.attempts != a.attempts {
      OfNext(a.attempts, b.attempts[|b.attempts| - 1], id);
    }
  }

  lemma {:induction false} FlightKeepsCount(shots: seq<Shot>, evs: seq<Event>, id: string)
    requires History(shots, evs) && Flies(shots[0], id)
    requires forall k :: 0 <= k < |evs| ==> !Ends(evs[k], id)
    ensures var last := shots[|evs|];
            && Flies(last, id) && last.entries[id].def == shots[0].entries[id].def
            && Of(last.attempts, id) == Of(shots[0].attempts, id)
            && last.asked[id] == shots[0].asked[id] + CountRequests(shots, evs, id)
  {
    if evs != [] {
      var n := |evs| - 1;
      HistoryFront(shots, evs);
      FlightKeepsCount(shots[..n + 1], evs[..n], id);
      CountOfFront(shots, evs[..n], id, n + 1);
      FlightGoesOn(shots[n], evs[n], shots[n + 1], id);
    }
  }

  lemma HistoryFront(shots: seq<Shot>, evs: seq<Event>)
    requires History(shots, evs) && evs != []
    ensures History(shots[..|evs|], evs[..|evs| - 1])
  {
  }

  lemma {:induction false} CountOfFront(shots: seq<Shot>, evs: seq<Event>, id: string, n: nat)
    requires |evs| < n <= |shots|
    ensures CountRequests(shots[..n], evs, id) == CountRequests(shots, evs, id)
  {
    if evs != [] { CountOfFront(shots, evs[..|evs| - 1], id, n); }
  }

  /** A flight of a source from its begin to its end, while other sources' timers, refreshes and flights, visibility
      changes, events and time come in between: it sees no other attempt of the source, and if any forced refresh was
      heard during it, however many were, exactly one attempt begins when it ends. */
  lemma OneMoreAttempt(shots: seq<Shot>, evs: seq<Event>, id: string, failed: bool, opening: Opening)
    requires evs != [] && History(shots, evs) && Flies(shots[0], id)
    requires forall k :: 0 <= k < |evs| - 1 ==> !Ends(evs[k], id)
    requires evs[|evs| - 1] == Finished(id, failed, opening)
    ensures var n := |evs| - 1;
            var first, before, after := Of(shots[0].attempts, id), shots[n], Of(shots[n + 1].attempts, id);
            && Of(before.attempts, id) == first
            && if shots[0].asked[id] + CountRequests(shots, evs[..n], id) == 0 then after == first
               else |after| == |first| + 1 && after[..|first|] == first
                    && after[|first|].forced && after[|first|].at == before.now
    ensures shots[|evs|].entries.Keys == shots[|evs| - 1].entries.Keys && id in shots[|evs|].asked
    ensures shots[|evs|].asked[id] == 0
  {
    var n := |evs| - 1;
    HistoryFront(shots, evs);
    FlightKeepsCount(shots[..n + 1], evs[..n], id);
    CountOfFront(shots, evs[..n], id, n + 1);
    var a, b := shots[n], shots[n + 1];
    assert Step(a, evs[n], b);
    if b.attempts != a.attempts { OfNext(a.attempts, b.attempts[|b.attempts| - 1], id); }
  }

  /** Polled sources are those with an interval; they are active while a surface they feed is shown, one that feeds the
      alerts always; idleness begins five minutes after the last event. */
  lemma ActiveInWords(d: Def, visible: set<Surface>, now: int, lastEventAt: int)
    ensures d.intervalMs <= 0 ==> !Active(d, visible)
    ensures d.intervalMs > 0 && Alert in d.feeds ==> Active(d, visible)
    ensures d.intervalMs > 0 && Alert !in d.feeds ==> (Active(d, visible) <==> exists x :: x in d.feeds && x in visible)
    ensures Idle(now, lastEventAt) <==> now >= lastEventAt + 300000
  {
    if x :| x in d.feeds && x in visible { assert x in d.feeds * visible; }
    if d.feeds * visible != {} {
      var x :| x in d.feeds * visible;
      assert x in d.feeds && x in visible;
    }
  }

  /** Of an event-driven source, or one that stays active, every forced refresh is heard. */
  lemma ForcedIsHeard(shots: seq<Shot>, evs: seq<Event>, id: string, k: nat)
    requires History(shots, evs) && Flies(shots[0], id) && k < |evs|
    requires forall j :: 0 <= j < |evs| ==> !Ends(evs[j], id)
    requires !Polled(shots[0].entries[id].def) || Active(shots[0].entries[id].def, shots[k].visible)
    requires evs[k].Refreshed? && evs[k].id == id && evs[k].force
    ensures CountRequests(shots, evs, id) > 0
    decreases |evs|
  {
    var n := |evs| - 1;
    HistoryFront(shots, evs);
    if k < n {
      ForcedIsHeard(shots[..n + 1], evs[..n], id, k);
      CountOfFront(shots, evs[..n], id, n + 1);
    } else {
      FlightKeepsCount(shots[..n + 1], evs[..n], id);
      assert Requests(shots[n], evs[n], id);
    }
  }

  /** A forced refresh leaves no trace if and only if the source is polled, not active and in flight. */
  lemma ForcedIsDroppedIff(a: Shot, b: Shot, id: string, opening: Opening)
    requires Step(a, Refreshed(id, true, opening), b) && id in a.entries && a.entries[id].def.hasFetch
    requires Basic(a.entries[id], a.now)
    ensures id in b.entries
    ensures b.attempts == a.attempts && b.asked == a.asked && !b.entries[id].forced
            <==> a.entries[id].inFlight && Polled(a.entries[id].def) && !Active(a.entries[id].def, a.visible)
  {
    var e := a.entries[id];
    if e.inFlight && Heard(e, a.visible, true) { assert b.asked[id] != a.asked[id]; }
  }

  /** The source "a" but for its timer, how many attempts there were, and what is shown. */
  ghost predicate OnlySource(s: Shot, e: Entry, attempts: nat, visible: set<Surface>) {
    && "a" in s.entries && SameButTimer(s.entries["a"], e) && |s.attempts| == attempts && s.visible == visible
    && "a" in s.asked
  }

  function Polls(inFlight: bool, lastAttemptAt: Option<int>): Entry {
    Entry(Def(1000, true, {Band}), inFlight, false, false, 0, lastAttemptAt, None)
  }

  method Fetching() returns (s: Sources)
    ensures fresh(s) && s.Valid() && OnlySource(s.Now(), Polls(true, Some(0)), 1, {Band, Alert})
  {
    s := new Sources(0);
    s.DefineSource("a", Def(1000, true, {Band}));
    assert OnlySource(s.Now(), Polls(false, None), 0, {Band, Alert}) && s.now == 0;
    assert Band in {Band} * s.visible;
    s.Refresh("a", true, Awaits);
  }

  method HiddenInFlight(s: Sources)
    requires s.Valid() && OnlySource(s.Now(), Polls(true, Some(0)), 1, {Band, Alert})
    modifies s
    ensures s.Valid() && OnlySource(s.Now(), Polls(true, Some(0)), 1, {Alert})
  {
    s.SetVisible(Band, false);
    assert OnlySource(s.Now(), Polls(true, Some(0)), 1, {Alert});
    s.Refresh("a", true, Awaits);
  }

  method ShownAfter(s: Sources)
    requires s.Valid() && OnlySource(s.Now(), Polls(true, Some(0)), 1, {Alert}) && s.asked["a"] == 0
    modifies s
    ensures s.Valid() && OnlySource(s.Now(), Polls(false, Some(0)), 1, {Band, Alert})
  {
    s.Finish("a", false, Awaits);
    assert OnlySource(s.Now(), Polls(false, Some(0)), 1, {Alert});
    s.SetVisible(Band, true);
  }

  /** A source that is hidden during its fetch and refreshed by force then: nothing remembers the request, and it has
      not been served once the fetch is over and the source shown again. */
  method DropsARefresh() returns (s: Sources)
    ensures fresh(s) && s.Valid() && OnlySource(s.Now(), Polls(false, Some(0)), 1, {Band, Alert})
  {
    s := Fetching();
    HiddenInFlight(s);
    assert CountedAt(s.entries["a"], "a", s.flying, s.asked["a"]);
    ShownAfter(s);
  }

  /** In every reachable state a source has at most one armed timer and one flight, and an active source with a fetch
      has one of them. */
  lemma OneTimerOrFlight(s: Sources, id: string)
    requires s.Valid() && id in s.entries
    ensures forall t, u :: t in s.armed && u in s.armed && s.armed[t].id == id && s.armed[u].id == id ==> t == u
    ensures s.flying[id] <= 1
    ensures Active(s.entries[id].def, s.visible) && s.entries[id].def.hasFetch ==>
              s.flying[id] == 1 || exists t :: t in s.armed && s.armed[t].id == id
    ensures (exists t :: t in s.armed && s.armed[t].id == id) ==> Active(s.entries[id].def, s.visible)
  {
    var e := s.entries[id];
    assert EntryHasTimer(e, s.armed, id) && CountedAt(e, id, s.flying, s.asked[id]);
    assert Placed(e, s.visible, s.now, s.lastEventAt, s.armed);
    forall t | t in s.armed && s.armed[t].id == id ensures e.timer == Some(t) {
      assert TimerHasEntry(s.entries, s.armed, t);
    }
  }

  /** Every attempt that nobody forced begins at least the delay then in force after the one before it began. */
  lemma {:induction false} AttemptsKeepTheirDistance(attempts: seq<Attempt>, j: nat)
    requires AttemptsOk(attempts) && j < |attempts| && attempts[j].polled && !attempts[j].forced
    ensures var a, before := attempts[j], LastStart(attempts[..j], attempts[j].id);
            before.Some? ==> a.at >= before.value + a.delay
  {
    var n := |attempts| - 1;
    if j < n {
      AttemptsKeepTheirDistance(attempts[..n], j);
      assert attempts[..n][..j] == attempts[..j];
    }
  }

  /** schedule: nothing for a source that is not active, the rest of the delay for one that is. */
  function DueOf(e: Entry, visible: set<Surface>, now: int, lastEventAt: int): Option<int> {
    if !Active(e.def, visible) then None
    else if e.lastAttemptAt.None? || e.forced then Some(now)
    else Some(now + Max(0, e.lastAttemptAt.value + DelayOf(e.def, e.failures, Idle(now, lastEventAt)) - now))
  }

  lemma RearmPlaces(entries: map<string, Entry>, armed: map<nat, Armed>, n: nat, id: string, visible: set<Surface>,
                    now: int, lastEventAt: int)
    requires TimersOk(entries, armed, n) && id in entries
    ensures var due := DueOf(entries[id], visible, now, lastEventAt);
            var next, after := WithTimer(entries, id, n, due), Rearmed(entries, armed, n, id, due);
            && Placed(next[id], visible, now, lastEventAt, after)
            && KeepsPlaces(entries, armed, next, after, id, visible, now, lastEventAt)
  {
    var due := DueOf(entries[id], visible, now, lastEventAt);
    forall o | o in entries && o != id
      ensures StaysPlaced(entries[o], armed, Rearmed(entries, armed, n, id, due), visible, now, lastEventAt)
    {
      if Placed(entries[o], visible, now, lastEventAt, armed) {
        RearmKeepsOthers(entries, armed, n, id, due, o, visible, now, lastEventAt);
      }
    }
  }
}

/** The change-feed iterator: paging by cursor over a log, resets, and a bounded memory of delivered record keys that
    is trimmed in halves. */
module FeedIter {
  import opened FeedLog

  const SEEN_CAP: nat := 131072

  // ---------------------------------------------------------------- the reference: a bounded memory

  /** The remembered keys, the oldest first, and what was delivered. */
  datatype Memory = Memory(order: seq<RecKey>, delivered: seq<Entry>)

  const FRESH := Memory([], [])

  predicate OfFile(k: RecKey, file: string, gen: int) {
    k.file == file && k.gen == gen
  }

  function Kept(order: seq<RecKey>, file: string, gen: int): seq<RecKey> {
    if order == [] then []
    else
      var k := order[|order| - 1];
      Kept(order[..|order| - 1], file, gen) + if OfFile(k, file, gen) then [] else [k]
  }

  function Trimmed(order: seq<RecKey>): seq<RecKey> {
    if |order| > SEEN_CAP then order[SEEN_CAP / 2..] else order
  }

  predicate Delivers(m: Memory, e: Entry) {
    match e.kind
    case Reset(_, _) => true
    case Record(key) => key.Some? && key.value !in m.order
    case Unknown => false
  }

  function OrderAfter(m: Memory, e: Entry): seq<RecKey> {
    match e.kind
    case Reset(file, gen) => Kept(m.order, file, gen)
    case Record(key) => if Delivers(m, e) then Trimmed(m.order + [key.value]) else m.order
    case Unknown => m.order
  }

  function Take(m: Memory, e: Entry): Memory {
    Memory(OrderAfter(m, e), if Delivers(m, e) then m.delivered + [e] else m.delivered)
  }

  /** The memory after the entries; paging, failures and retries play no part. */
  function After(es: seq<Entry>): Memory {
    if es == [] then FRESH else Take(After(es[..|es| - 1]), es[|es| - 1])
  }

  lemma AfterNext(es: seq<Entry>, e: Entry)
    ensures After(es + [e]) == Take(After(es), e)
  {
    assert (es + [e])[..|es + [e]| - 1] == es;
  }

  // ---------------------------------------------------------------- what the memory forgets

  /** A remembered key, until its file and generation are reset. */
  datatype Slot = Slot(key: RecKey, live: bool)

  function Silenced(h: seq<Slot>, file: string, gen: int): seq<Slot> {
    seq(|h|, k requires 0 <= k < |h| => if OfFile(h[k].key, file, gen) then h[k].(live := false) else h[k])
  }

  /** Every key ever remembered, marked dead once reset. */
  function History(delivered: seq<Entry>): seq<Slot> {
    if delivered == [] then []
    else Recorded(History(delivered[..|delivered| - 1]), delivered[|delivered| - 1].kind)
  }

  function Recorded(h: seq<Slot>, kind: Kind): seq<Slot> {
    match kind
    case Reset(file, gen) => Silenced(h, file, gen)
    case Record(key) => if key.Some? then h + [Slot(key.value, true)] else h
    case Unknown => h
  }

  /** A key of the history is live unless a later reset named its very file and generation. */
  lemma {:induction false} LiveIs(delivered: seq<Entry>, n: nat, i: nat)
    requires n <= |delivered| && i < |History(delivered[..n])|
    ensures i < |History(delivered)| && History(delivered)[i].key == History(delivered[..n])[i].key
    ensures History(delivered)[i].live <==> History(delivered[..n])[i].live && forall m :: n <= m < |delivered| ==>
      delivered[m].kind != Reset(History(delivered)[i].key.file, History(delivered)[i].key.gen)
  {
    var last := |delivered| - 1;
    if n == |delivered| {
      assert delivered[..n] == delivered;
    } else {
      assert delivered[..last][..n] == delivered[..n];
      LiveIs(delivered[..last], n, i);
    }
  }

  function Live(h: seq<Slot>): seq<RecKey> {
    if h == [] then []
    else Live(h[..|h| - 1]) + if h[|h| - 1].live then [h[|h| - 1].key] else []
  }

  /** `order` is what is live of the history from `j` on, and `j` leaves at least the last half capacity. */
  predicate Covers(h: seq<Slot>, j: nat, order: seq<RecKey>) {
    j <= |h| && order == Live(h[j..]) && (j == 0 || |h| - j >= SEEN_CAP / 2)
  }

  lemma LiveAppend(h: seq<Slot>, s: Slot)
    ensures Live(h + [s]) == Live(h) + if s.live then [s.key] else []
  {
    assert (h + [s])[..|h + [s]| - 1] == h;
  }

  lemma {:induction false} LiveSilenced(h: seq<Slot>, file: string, gen: int)
    ensures Live(Silenced(h, file, gen)) == Kept(Live(h), file, gen)
  {
    if h != [] {
      var n := |h| - 1;
      LiveSilenced(h[..n], file, gen);
      assert Silenced(h, file, gen)[..n] == Silenced(h[..n], file, gen);
      if h[n].live {
        KeptAppend(Live(h[..n]), h[n].key, file, gen);
      } else {
        assert Live(h) == Live(h[..n]);
      }
    }
  }

  lemma KeptAppend(order: seq<RecKey>, k: RecKey, file: string, gen: int)
    ensures Kept(order + [k], file, gen) == Kept(order, file, gen) + if OfFile(k, file, gen) then [] else [k]
  {
    assert (order + [k])[..|order + [k]| - 1] == order;
  }

  /** Dropping the first `n` live keys is moving the start of the history forward. */
  lemma {:induction false} LiveDrop(h: seq<Slot>, n: nat) returns (j: nat)
    requires n <= |Live(h)|
    ensures j <= |h| && Live(h[j..]) == Live(h)[n..]
  {
    if n == |Live(h)| {
      j := |h|;
    } else {
      var m := |h| - 1;
      var front, last := Live(h[..m]), if h[m].live then [h[m].key] else [];
      j := LiveDrop(h[..m], n);
      assert h[j..] == h[..m][j..] + [h[m]];
      LiveAppend(h[..m][j..], h[m]);
      assert (front + last)[n..] == front[n..] + last;
    }
  }

  lemma {:induction false} LiveIsShort(h: seq<Slot>)
    ensures |Live(h)| <= |h|
  {
    if h != [] { LiveIsShort(h[..|h| - 1]); }
  }

  lemma {:induction false} InLive(h: seq<Slot>, k: RecKey)
    ensures k in Live(h) <==> exists i :: 0 <= i < |h| && h[i] == Slot(k, true)
  {
    if h != [] { InLive(h[..|h| - 1], k); }
  }

  lemma HistoryNext(delivered: seq<Entry>, e: Entry)
    ensures History(delivered + [e]) == Recorded(History(delivered), e.kind)
  {
    assert (delivered + [e])[..|delivered + [e]| - 1] == delivered;
  }

  lemma CoverReset(h: seq<Slot>, j: nat, order: seq<RecKey>, file: string, gen: int)
    requires Covers(h, j, order)
    ensures Covers(Silenced(h, file, gen), j, Kept(order, file, gen))
  {
    LiveSilenced(h[j..], file, gen);
    assert Silenced(h, file, gen)[j..] == Silenced(h[j..], file, gen);
  }

  lemma CoverRecord(h: seq<Slot>, j: nat, order: seq<RecKey>, k: RecKey) returns (j': nat)
    requires Covers(h, j, order)
    ensures Covers(h + [Slot(k, true)], j', Trimmed(order + [k]))
  {
    var h' := h + [Slot(k, true)];
    assert h'[j..] == h[j..] + [Slot(k, true)];
    LiveAppend(h[j..], Slot(k, true));
    j' := j;
    if |order + [k]| > SEEN_CAP {
      var i := LiveDrop(h'[j..], SEEN_CAP / 2);
      j' := j + i;
      assert h'[j..][i..] == h'[j'..];
      LiveIsShort(h'[j'..]);
    }
  }

  /** The memory is always the live part of the history's end, at least its last half capacity. */
  lemma {:induction false} MemoryCovers(es: seq<Entry>) returns (j: nat)
    ensures Covers(History(After(es).delivered), j, After(es).order)
  {
    if es == [] {
      j := 0;
    } else {
      var m, e := After(es[..|es| - 1]), es[|es| - 1];
      j := MemoryCovers(es[..|es| - 1]);
      HistoryNext(m.delivered, e);
      match e.kind {
        case Reset(file, gen) => CoverReset(History(m.delivered), j, m.order, file, gen);
        case Record(key) =>
          if Delivers(m, e) {
            j := CoverRecord(History(m.delivered), j, m.order, key.value);
          }
        case Unknown =>
      }
    }
  }

  /** A record is dropped only if its key was delivered and its file and generation were not reset since. */
  lemma DropsOnlyRepeats(es: seq<Entry>, k: RecKey)
    requires k in After(es).order
    ensures Slot(k, true) in History(After(es).delivered)
  {
    var j := MemoryCovers(es);
    var h := History(After(es).delivered);
    InLive(h[j..], k);
    var i :| 0 <= i < |h[j..]| && h[j..][i] == Slot(k, true);
    assert h[j + i] == Slot(k, true);
  }

  /** A record is always dropped when its key is among the last half capacity remembered and was not reset since. */
  lemma DropsRecentRepeats(es: seq<Entry>, i: nat)
    requires var h := History(After(es).delivered); i < |h| && i >= |h| - SEEN_CAP / 2 && h[i].live
    ensures History(After(es).delivered)[i].key in After(es).order
  {
    var j := MemoryCovers(es);
    var h := History(After(es).delivered);
    assert h[j..][i - j] == Slot(h[i].key, true);
    InLive(h[j..], h[i].key);
  }

  /** Every entry is delivered but records without a reference, unknown kinds, and records whose key was in the
      memory when they came. */
  lemma {:induction false} NothingElseIsDropped(es: seq<Entry>, i: nat)
    requires i < |es|
    ensures es[i] in After(es).delivered || es[i].kind.Unknown?
         || (es[i].kind.Record? && (es[i].kind.key.None? || es[i].kind.key.value in After(es[..i]).order))
  {
    var n := |es| - 1;
    if i < n {
      NothingElseIsDropped(es[..n], i);
      assert es[..n][..i] == es[..i];
    }
  }

  /** `d` is what is left of `es` when some entries are struck out. */
  ghost predicate IsSubsequence(d: seq<Entry>, es: seq<Entry>) {
    if d == [] then true
    else exists i :: 0 <= i < |es| && es[i] == d[|d| - 1] && IsSubsequence(d[..|d| - 1], es[..i])
  }

  lemma {:induction false} LongerIsFine(d: seq<Entry>, es: seq<Entry>, e: Entry)
    requires IsSubsequence(d, es)
    ensures IsSubsequence(d, es + [e])
  {
    if d != [] {
      var i :| 0 <= i < |es| && es[i] == d[|d| - 1] && IsSubsequence(d[..|d| - 1], es[..i]);
      assert (es + [e])[i] == es[i] && (es + [e])[..i] == es[..i];
    }
  }

  /** Entries are delivered in the order of the log. */
  lemma {:induction false} DeliveredInOrder(es: seq<Entry>)
    ensures IsSubsequence(After(es).delivered, es)
  {
    if es != [] {
      var n := |es| - 1;
      var before, e := After(es[..n]), es[n];
      DeliveredInOrder(es[..n]);
      assert es == es[..n] + [e];
      if Delivers(before, e) {
        var d := before.delivered + [e];
        assert d[..|d| - 1] == before.delivered;
        assert es[n] == d[|d| - 1];
      } else {
        LongerIsFine(before.delivered, es[..n], e);
      }
    }
  }

  predicate NoRepeats(order: seq<RecKey>) {
    forall i, j :: 0 <= i < j < |order| ==> order[i] != order[j]
  }

  lemma {:induction false} KeptIs(order: seq<RecKey>, file: string, gen: int)
    requires NoRepeats(order)
    ensures NoRepeats(Kept(order, file, gen)) && |Kept(order, file, gen)| <= |order|
    ensures forall k :: k in Kept(order, file, gen) <==> k in order && !(k.file == file && k.gen == gen)
  {
    if order != [] {
      var n := |order| - 1;
      KeptIs(order[..n], file, gen);
      assert order == order[..n] + [order[n]];
    }
  }

  /** The remembered keys are distinct and at most the capacity. */
  lemma {:induction false} MemoryIsBounded(es: seq<Entry>)
    ensures NoRepeats(After(es).order) && |After(es).order| <= SEEN_CAP
  {
    if es != [] {
      var m, e := After(es[..|es| - 1]), es[|es| - 1];
      MemoryIsBounded(es[..|es| - 1]);
      if e.kind.Reset? { KeptIs(m.order, e.kind.file, e.kind.gen); }
    }
  }

  // ---------------------------------------------------------------- the iterator

  datatype Outcome = Delivered(e: Entry) | UnknownKind | Failed | Waiting

  /** An entry handed out, or refused as unknown, is the last that was consumed. */
  predicate IsLast(out: Outcome, consumed: seq<Entry>) {
    && (out.Delivered? ==> consumed != [] && consumed[|consumed| - 1] == out.e)
    && (out.UnknownKind? ==> consumed != [] && consumed[|consumed| - 1].kind.Unknown?)
  }

  function SetOf(order: seq<RecKey>): set<RecKey> {
    set k | k in order
  }

  /** An iterator begun at `o` after `m` requests: its cursor, its buffer and the cursor after it, and what was handed
      out of the buffer. */
  datatype Reading = Reading(s: Server, o: Stand, m: nat, cursor: int, buf: seq<Entry>, pageTo: int,
                             consumed: seq<Entry>)
  {
    /** The entries of the log before this one were consumed or skipped. */
    function At(): int {
      StandAfter(s, o, m).at - |buf|
    }

    /** What was consumed and what is buffered are the answers, the buffer is the log's part before the end of the last
        answer, and the cursor divides the log where the buffer begins. */
    ghost predicate Holds() {
      Honest(s) && Stands(s, o) && Placed() && Splits(s.log, At(), cursor) && TiesExplained(s, o, At(), cursor)
    }

    predicate Placed() {
      var end := StandAfter(s, o, m);
      && consumed + buf == Handed(s, o, m)
      && end.cursor == (if buf == [] then cursor else pageTo)
      && o.at <= At() && end.at <= |s.log| && buf == s.log[At()..end.at]
      && NoneSkipped(s, o, m, At(), end.at)
    }

    /** What was consumed is the log from the start up to here, without exactly the entries that a request found behind
        its cursor; it is all of that if and only if no request found its first unread entry there. */
    predicate TellsAll() {
      && o.at <= At() <= |s.log|
      && consumed == Unskipped(s, o, m, o.at, At()) && |consumed| <= At() - o.at
      && (consumed == s.log[o.at..At()] <==> NoneBehind(s, o, m))
    }

    /** The last request failed for good. */
    predicate Failed() {
      m > 0 && s.serve(cursor, o.now + m - 1).Failure?
    }

    function Popped(): Reading
      requires buf != []
    {
      Reading(s, o, m, if |buf| == 1 then pageTo else buf[0].seqNo, buf[1..], pageTo, consumed + [buf[0]])
    }

    function Fetched(): Reading {
      var r := s.serve(cursor, o.now + m);
      if !r.Answer? then this.(m := m + 1)
      else if r.page.entries == [] then this.(m := m + 1, cursor := r.page.next)
      else this.(m := m + 1, buf := r.page.entries, pageTo := EndCursor(r.page))
    }
  }

  lemma PopExplains(r: Reading, p: Reading)
    requires r.Holds() && r.buf != [] && p == r.Popped() && p.At() == r.At() + 1 && r.At() < |r.s.log|
    requires r.buf[0] == r.s.log[r.At()]
    ensures TiesExplained(r.s, r.o, p.At(), p.cursor)
  {
    if p.buf == [] {
      CursorExplained(r.s, r.o, r.m);
    } else {
      forall k | p.At() <= k < |r.s.log| && r.s.log[k].seqNo == p.cursor ensures TieExplained(r.s, r.o, k) {
        assert InOrder(r.s.log, r.At(), k - 1) && InOrder(r.s.log, k - 1, k);
      }
    }
  }

  lemma PopHolds(r: Reading)
    requires r.Holds() && r.buf != []
    ensures r.Popped().Holds() && r.Popped().At() == r.At() + 1 && r.At() < |r.s.log| && r.buf[0] == r.s.log[r.At()]
  {
    var q := r.Popped();
    AfterStands(r.s, r.o, r.m);
    Ascends(r.s);
    assert (r.consumed + [r.buf[0]]) + r.buf[1..] == r.consumed + r.buf;
    PopExplains(r, q);
  }

  /** The request goes out where the reading stands. */
  lemma FetchStand(r: Reading, p: Stand)
    requires r.Holds() && r.buf == [] && p == Stand(r.cursor, r.At(), r.o.now + r.m)
    ensures StandAfter(r.s, r.o, r.m) == p && Stands(r.s, p) && r.o.at <= p.at
    ensures StandAfter(r.s, r.o, r.m + 1) == Asked(r.s, p)
    ensures Handed(r.s, r.o, r.m + 1) == r.consumed + Answered(r.s, p)
  {
    AfterStands(r.s, r.o, r.m);
    assert r.consumed + [] == r.consumed;
  }

  lemma FetchEnds(r: Reading, p: Stand, f: Reading)
    requires r.Holds() && r.buf == [] && p == Stand(r.cursor, r.At(), r.o.now + r.m) && f == r.Fetched()
    ensures f.s == r.s && f.o == r.o && f.m == r.m + 1 && f.consumed == r.consumed && f.buf == Answered(r.s, p)
    ensures f.At() == Asked(r.s, p).at - |f.buf|
    ensures Asked(r.s, p).cursor == if f.buf == [] then f.cursor else f.pageTo
    ensures f.buf != [] ==> f.cursor == p.cursor
  {
    FetchStand(r, p);
  }

  lemma FetchIsPlaced(r: Reading, p: Stand, f: Reading)
    requires r.Holds() && r.buf == [] && p == Stand(r.cursor, r.At(), r.o.now + r.m) && f == r.Fetched()
    ensures f.Placed()
  {
    FetchEnds(r, p, f);
    FetchStand(r, p);
    Ask(r.s, p);
    if r.s.serve(p.cursor, p.now).Answer? {
      SkippedNow(r.s, r.o, r.m, f.m, p);
    }
  }

  lemma AnswerSplits(s: Server, p: Stand)
    requires Honest(s) && Stands(s, p)
    ensures Splits(s.log, Asked(s, p).at - |Answered(s, p)|, if Answered(s, p) == [] then Asked(s, p).cursor
        else p.cursor)
  {
    Ask(s, p);
    PrefixSplits(s, p);
  }

  lemma FetchSplits(r: Reading, p: Stand, f: Reading)
    requires r.Holds() && r.buf == [] && p == Stand(r.cursor, r.At(), r.o.now + r.m) && f == r.Fetched()
    ensures f.At() >= 0 && Splits(r.s.log, f.At(), f.cursor) && TiesExplained(r.s, r.o, f.At(), f.cursor)
  {
    FetchStand(r, p);
    FetchEnds(r, p, f);
    AnswerSplits(r.s, p);
    CursorExplained(r.s, r.o, f.m);
    PrefixSplits(r.s, p);
  }

  lemma FetchHolds(r: Reading)
    requires r.Holds() && r.buf == []
    ensures r.Fetched().Holds() && (r.s.serve(r.cursor, r.o.now + r.m).Failure? ==> r.Fetched().Failed())
  {
    var p := Stand(r.cursor, r.At(), r.o.now + r.m);
    FetchIsPlaced(r, p, r.Fetched());
    FetchEnds(r, p, r.Fetched());
    FetchSplits(r, p, r.Fetched());
  }

  /** What was consumed is the log up to where the buffer begins, but for what a request found behind its cursor. */
  lemma ConsumedIsUnskipped(r: Reading)
    requires r.Holds()
    ensures r.TellsAll()
  {
    var s, o, m := r.s, r.o, r.m;
    var end := StandAfter(s, o, m).at;
    HandedIsUnskipped(s, o, m);
    UnskippedRun(s, o, m, o.at, r.At(), end);
    assert r.consumed == (r.consumed + r.buf)[..|r.consumed|];
    var due := Unskipped(s, o, m, o.at, r.At());
    assert due == (due + r.buf)[..|r.consumed|];
    UnskippedIsAll(s, o, m, o.at, r.At());
    NoneBehindNoneSkipped(s, o, m);
  }

  class Iter {
    /** Only its answers are read; the log and its growth are what the contracts speak of. */
    const server: Server
    var cursor: int
    var buf: seq<Entry>
    var pageTo: int
    var seen: set<RecKey>
    var order: seq<RecKey>
    var requests: nat
    /** Where the iterator began, and what it consumed and delivered since. */
    ghost const origin: Stand
    ghost var consumed: seq<Entry>
    ghost var delivered: seq<Entry>
    ghost var reading: Reading

    ghost predicate Valid()
      reads this
    {
      Remembers() && Stays()
    }

    ghost predicate Remembers()
      reads this
    {
      Memory(order, delivered) == After(consumed) && seen == SetOf(order)
    }

    ghost predicate Stays()
      reads this
    {
      && origin.now <= requests && reading.Holds()
      && reading.s == server && reading.o == origin && reading.m == requests - origin.now
      && reading.cursor == cursor && reading.buf == buf && reading.pageTo == pageTo && reading.consumed == consumed
    }

    /** An iterator at a cursor that stands in the log, where `now` requests have been made before. */
    constructor (server: Server, ghost origin: Stand, cursor: int, now: nat)
      requires Honest(server) && Stands(server, origin) && cursor == origin.cursor && now == origin.now
      ensures Valid() && this.server == server && this.origin == origin
      ensures consumed == delivered == [] && reading.At() == origin.at
    {
      this.server, this.origin, this.cursor, requests := server, origin, cursor, now;
      buf, pageTo, seen, order := [], 0, {}, [];
      consumed, delivered, reading := [], [], Reading(server, origin, 0, cursor, [], 0, []);
      CursorExplained(server, origin, 0);
    }

    method Remember(k: RecKey) returns (isNew: bool)
      requires seen == SetOf(order) && NoRepeats(order)
      modifies this`seen, this`order
      ensures isNew == (k !in old(order)) && seen == SetOf(order)
      ensures order == if isNew then Trimmed(old(order) + [k]) else old(order)
    {
      if k in seen {
        return false;
      }
      seen := seen + {k};
      order := order + [k];
      assert SetOf(order) == seen;
      if |order| > SEEN_CAP {
        var drop := order[..SEEN_CAP / 2];
        Halves(order, SEEN_CAP / 2);
        seen := seen - SetOf(drop);
        order := order[SEEN_CAP / 2..];
      }
      return true;
    }

    /** Filters `order` in place. */
    method Forget(file: string, gen: int)
      requires seen == SetOf(order) && NoRepeats(order)
      modifies this`seen, this`order
      ensures order == Kept(old(order), file, gen) && seen == SetOf(order)
      ensures forall k :: k in order <==> k in old(order) && !(k.file == file && k.gen == gen)
    {
      var kept: seq<RecKey> := [];
      for i := 0 to |order|
        invariant order == old(order)
        invariant kept == Kept(order[..i], file, gen)
        invariant seen == SetOf(order) - GoneOf(order[..i], file, gen)
      {
        var k := order[i];
        ForgetStep(order, i, file, gen);
        if OfFile(k, file, gen) {
          seen := seen - {k};
          continue;
        }
        kept := kept + [k];
      }
      assert order[..|order|] == order;
      KeptIs(order, file, gen);
      assert SetOf(order) - GoneOf(order, file, gen) == SetOf(kept);
      order := kept;
    }

    /** Takes the first buffered entry and moves the cursor past it. */
    method Pop() returns (en: Entry)
      requires Stays() && buf != []
      modifies this`buf, this`cursor, this`consumed, this`reading
      ensures Stays() && reading == old(reading).Popped() && reading.At() == old(reading).At() + 1
      ensures 0 <= old(reading).At() < |server.log| && en == server.log[old(reading).At()]
      ensures consumed == old(consumed) + [en] && buf == old(buf)[1..]
    {
      PopHolds(reading);
      en := buf[0];
      buf := buf[1..];
      if buf == [] {
        cursor := pageTo;
      } else {
        cursor := en.seqNo;
      }
      consumed, reading := consumed + [en], reading.Popped();
    }

    /** What an entry just consumed is to the caller; `Waiting` if nothing. */
    method Handle(en: Entry, ghost before: seq<Entry>) returns (out: Outcome)
      requires Memory(order, delivered) == After(before) && seen == SetOf(order) && consumed == before + [en]
      modifies this`delivered, this`seen, this`order
      ensures Remembers()
      ensures if out.Delivered? then out.e == en && delivered == old(delivered) + [en] else delivered == old(delivered)
      ensures !out.Failed? && (out.UnknownKind? <==> en.kind.Unknown?)
    {
      AfterNext(before, en);
      MemoryIsBounded(before);
      match en.kind {
        case Reset(file, gen) =>
          Forget(file, gen);
          delivered := delivered + [en];
          return Delivered(en);
        case Record(key) =>
          if key.None? {
            return Waiting;
          }
          var isNew := Remember(key.value);
          if !isNew {
            return Waiting;
          }
          delivered := delivered + [en];
          return Delivered(en);
        case Unknown =>
          return UnknownKind;
      }
    }

    /** Hands out buffered entries until one is for the caller. */
    method Drain() returns (out: Outcome)
      requires Valid()
      modifies this`buf, this`cursor, this`consumed, this`reading, this`delivered, this`seen, this`order
      ensures Valid() && old(consumed) <= consumed && consumed + buf == old(consumed + buf)
      ensures out.Waiting? ==> buf == []
      ensures if out.Delivered? then delivered == old(delivered) + [out.e] else delivered == old(delivered)
      ensures IsLast(out, consumed)
      ensures !out.Failed?
    {
      while buf != []
        invariant Valid() && delivered == old(delivered)
        invariant old(consumed) <= consumed && consumed + buf == old(consumed + buf)
        decreases |buf|
      {
        ghost var before := consumed;
        var en := Pop();
        out := Handle(en, before);
        if !out.Waiting? {
          return;
        }
      }
      return Waiting;
    }

    /** One request at the cursor. */
    method Fetch() returns (failed: bool)
      requires Valid() && buf == []
      modifies this`buf, this`cursor, this`pageTo, this`requests, this`reading
      ensures Valid() && requests == old(requests) + 1 && reading == old(reading).Fetched()
      ensures failed == server.serve(old(cursor), old(requests)).Failure?
      ensures failed ==> reading.Failed()
    {
      FetchHolds(reading);
      reading := reading.Fetched();
      var ans := server.serve(cursor, requests);
      requests := requests + 1;
      failed := ans.Failure?;
      if ans.Answer? {
        var page := ans.page;
        if page.entries == [] {
          cursor := page.next;
        } else {
          buf := page.entries;
          pageTo := page.next;
          if page.more {
            pageTo := page.entries[|page.entries| - 1].seqNo;
          }
        }
      }
    }

    /** Next, giving up after `patience` requests. Each call hands out at most one entry, the first that the memory does
        not hold. All that was ever consumed is the log from the start on, without exactly the entries that a request
        found behind its cursor; none is missing if and only if no request found its first unread entry there. */
    method Next(patience: nat) returns (out: Outcome)
      requires Valid()
      modifies this
      ensures Valid() && old(consumed) <= consumed && old(requests) <= requests <= old(requests) + patience
      ensures reading.TellsAll()
      ensures if out.Delivered? then delivered == old(delivered) + [out.e] else delivered == old(delivered)
      ensures IsLast(out, consumed)
      ensures out.Failed? ==> requests > old(requests) && reading.Failed()
      ensures out.Waiting? ==> buf == [] && requests == old(requests) + patience
    {
      var limit := requests + patience;
      while true
        invariant Valid() && delivered == old(delivered) && old(consumed) <= consumed
        invariant old(requests) <= requests <= limit
        decreases limit - requests
      {
        out := Drain();
        if !out.Waiting? || requests == limit {
          break;
        }
        var failed := Fetch();
        if failed {
          out := Failed;
          break;
        }
      }
      ConsumedIsUnskipped(reading);
    }
  }

  lemma EarlyIsIn(order: seq<RecKey>, n: int, i: int)
    requires 0 <= i < n <= |order|
    ensures order[i] in SetOf(order[..n])
  {
    assert order[..n][i] == order[i];
  }

  lemma Halves(order: seq<RecKey>, n: nat)
    requires NoRepeats(order) && n <= |order|
    ensures SetOf(order) - SetOf(order[..n]) == SetOf(order[n..])
  {
    assert order == order[..n] + order[n..];
    forall k | k in SetOf(order) - SetOf(order[..n]) ensures k in SetOf(order[n..]) {
      var i :| 0 <= i < |order| && order[i] == k;
      if i < n { EarlyIsIn(order, n, i); }
      assert order[n..][i - n] == k;
    }
    forall k | k in SetOf(order[n..]) ensures k in SetOf(order) - SetOf(order[..n]) {
      var i :| 0 <= i < |order[n..]| && order[n..][i] == k;
      assert order[n + i] == k;
    }
  }

  lemma ForgetStep(order: seq<RecKey>, i: nat, file: string, gen: int)
    requires i < |order|
    ensures Kept(order[..i + 1], file, gen) == Kept(order[..i], file, gen) + if OfFile(order[i], file, gen) then []
        else [order[i]]
    ensures OfFile(order[i], file, gen) ==>
              GoneOf(order[..i + 1], file, gen) == GoneOf(order[..i], file, gen) + {order[i]}
    ensures !OfFile(order[i], file, gen) ==> GoneOf(order[..i + 1], file, gen) == GoneOf(order[..i], file, gen)
    ensures !OfFile(order[i], file, gen) ==> Kept(order[..i + 1], file, gen) == Kept(order[..i], file, gen) + [order[i]]
    ensures OfFile(order[i], file, gen) ==> Kept(order[..i + 1], file, gen) == Kept(order[..i], file, gen)
  {
    assert order[..i + 1] == order[..i] + [order[i]];
    KeptAppend(order[..i], order[i], file, gen);
  }

  function GoneOf(order: seq<RecKey>, file: string, gen: int): set<RecKey> {
    set k | k in order && OfFile(k, file, gen)
  }

  // ---------------------------------------------------------------- cursors

  /** Whenever the cursor is persisted, an iterator can begin with it; it begins where the first one stood, and its
      first answer repeats nothing and skips exactly what has the cursor's own number. */
  lemma ResumeAtCursor(r: Reading, now: nat)
    requires r.Holds() && now >= r.o.now + r.m
    ensures 0 <= r.At() <= |r.s.log|
    ensures var o := Stand(r.cursor, r.At(), now);
            && Stands(r.s, o) && o.at <= From(r.s, o) && TiesExplained(r.s, r.o, o.at, o.cursor)
            && (forall k :: o.at <= k < From(r.s, o) ==> k < |r.s.log| && r.s.log[k].seqNo == r.cursor)
            && (From(r.s, o) > o.at <==>
               o.at < r.s.committed(now) && o.at < |r.s.log| && r.s.log[o.at].seqNo == r.cursor)
  {
    AfterStands(r.s, r.o, r.m);
    assert Grows(r.s, r.o.now + r.m, now);
    PrefixSplits(r.s, Stand(r.cursor, r.At(), now));
  }

  /** `b` was begun with the cursor that `a` had, then or later. */
  ghost predicate Resumes(a: Reading, b: Reading) {
    b.s == a.s && b.o.cursor == a.cursor && b.o.at == a.At() && b.o.now >= a.o.now + a.m
  }

  /** What a number of iterators consumed, one after the other. */
  function AllConsumed(rs: seq<Reading>): seq<Entry> {
    if rs == [] then [] else AllConsumed(rs[..|rs| - 1]) + rs[|rs| - 1].consumed
  }

  ghost predicate Restarts(rs: seq<Reading>) {
    && rs != [] && (forall i :: 0 <= i < |rs| ==> rs[i].Holds())
    && (forall i :: 0 < i < |rs| ==> Resumes(rs[i - 1], rs[i]))
  }

  lemma {:induction false} UnskippedIsPart(s: Server, o: Stand, m: nat, lo: nat, hi: nat)
    requires lo <= hi <= |s.log|
    ensures IsSubsequence(Unskipped(s, o, m, lo, hi), s.log[lo..hi])
  {
    if lo < hi {
      var d, es, e := Unskipped(s, o, m, lo, hi - 1), s.log[lo..hi - 1], s.log[hi - 1];
      UnskippedIsPart(s, o, m, lo, hi - 1);
      assert s.log[lo..hi] == es + [e];
      if Skipped(s, o, m, hi - 1) {
        assert d + [] == d;
        LongerIsFine(d, es, e);
      } else {
        OneMore(d, es, e);
      }
    }
  }

  lemma OneMore(d: seq<Entry>, es: seq<Entry>, e: Entry)
    requires IsSubsequence(d, es)
    ensures IsSubsequence(d + [e], es + [e])
  {
    assert (d + [e])[..|d + [e]| - 1] == d && (es + [e])[..|es|] == es && (es + [e])[|es|] == e;
  }

  lemma {:induction false} PartsJoin(d: seq<Entry>, es: seq<Entry>, d': seq<Entry>, es': seq<Entry>)
    requires IsSubsequence(d, es) && IsSubsequence(d', es')
    ensures IsSubsequence(d + d', es + es')
    decreases |d'|
  {
    if d' == [] {
      assert d + d' == d;
      ManyAreFine(d, es, es');
    } else {
      var n := |d'| - 1;
      var i :| 0 <= i < |es'| && es'[i] == d'[n] && IsSubsequence(d'[..n], es'[..i]);
      var e, front := d'[n], es'[..i];
      PartsJoin(d, es, d'[..n], front);
      OneMore(d + d'[..n], es + front, e);
      ManyAreFine(d + d'[..n] + [e], es + front + [e], es'[i + 1..]);
      Regroup(d, d', es, es', i);
    }
  }

  lemma Regroup(d: seq<Entry>, d': seq<Entry>, es: seq<Entry>, es': seq<Entry>, i: nat)
    requires d' != [] && i < |es'| && es'[i] == d'[|d'| - 1]
    ensures d + d'[..|d'| - 1] + [d'[|d'| - 1]] == d + d'
    ensures es + es'[..i] + [d'[|d'| - 1]] + es'[i + 1..] == es + es'
  {
  }

  lemma {:induction false} ManyAreFine(d: seq<Entry>, es: seq<Entry>, more: seq<Entry>)
    requires IsSubsequence(d, es)
    ensures IsSubsequence(d, es + more)
    decreases |more|
  {
    if more == [] {
      assert es + more == es;
    } else {
      LongerIsFine(d, es, more[0]);
      ManyAreFine(d, es + [more[0]], more[1..]);
      assert es + [more[0]] + more[1..] == es + more;
    }
  }

  /** `d` lies in the log from `lo` up to `hi`, and is all of that if and only if `all`. */
  ghost predicate IsPart(log: seq<Entry>, lo: nat, hi: nat, d: seq<Entry>, all: bool) {
    lo <= hi <= |log| && |d| <= hi - lo && IsSubsequence(d, log[lo..hi]) && (d == log[lo..hi] <==> all)
  }

  lemma PartNext(log: seq<Entry>, lo: nat, mid: nat, hi: nat, d: seq<Entry>, all: bool, d': seq<Entry>, all': bool)
    requires IsPart(log, lo, mid, d, all) && IsPart(log, mid, hi, d', all')
    ensures IsPart(log, lo, hi, d + d', all && all')
  {
    WholeIffParts(log, lo, mid, hi, d, d');
    PartsJoin(d, log[lo..mid], d', log[mid..hi]);
  }

  lemma ReadingIsPart(r: Reading)
    requires r.Holds()
    ensures 0 <= r.At() && IsPart(r.s.log, r.o.at, r.At(), r.consumed, NoneBehind(r.s, r.o, r.m))
  {
    ConsumedIsUnskipped(r);
    UnskippedIsPart(r.s, r.o, r.m, r.o.at, r.At());
  }

  ghost predicate NoneBehindAny(rs: seq<Reading>) {
    forall i :: 0 <= i < |rs| ==> NoneBehind(rs[i].s, rs[i].o, rs[i].m)
  }

  lemma NoneBehindNext(rs: seq<Reading>, b: Reading)
    ensures NoneBehindAny(rs + [b]) <==> NoneBehindAny(rs) && NoneBehind(b.s, b.o, b.m)
  {
    var both := rs + [b];
    assert both[|rs|] == b && forall i :: 0 <= i < |rs| ==> both[i] == rs[i];
  }

  lemma RestartsFront(rs: seq<Reading>)
    requires Restarts(rs) && |rs| > 1
    ensures var n := |rs| - 1;
            Restarts(rs[..n]) && rs == rs[..n] + [rs[n]] && Resumes(rs[..n][n - 1], rs[n]) && rs[n].Holds()
  {
    var n := |rs| - 1;
    forall i | 0 < i < n ensures Resumes(rs[..n][i - 1], rs[..n][i]) {
      assert Resumes(rs[i - 1], rs[i]);
    }
  }

  /** However often the client is restarted from the cursor it persisted, even between the entries of a page: what it
      consumed in all lies in the log in order, and is the whole of it if and only if no request ever found its first
      unread entry behind its cursor. */
  lemma {:induction false} RestartsRepeatNothing(rs: seq<Reading>)
    requires Restarts(rs)
    ensures rs[|rs| - 1].s == rs[0].s && rs[|rs| - 1].At() >= 0
    ensures IsPart(rs[0].s.log, rs[0].o.at, rs[|rs| - 1].At(), AllConsumed(rs), NoneBehindAny(rs))
  {
    var n := |rs| - 1;
    var b := rs[n];
    ReadingIsPart(b);
    if n == 0 {
      assert AllConsumed(rs) == [] + b.consumed == b.consumed;
      assert rs == [] + [b];
      NoneBehindNext([], b);
    } else {
      RestartsFront(rs);
      var front := rs[..n];
      RestartsRepeatNothing(front);
      NoneBehindNext(front, b);
      PartNext(b.s.log, rs[0].o.at, b.o.at, b.At(), AllConsumed(front), NoneBehindAny(front), b.consumed,
        NoneBehind(b.s, b.o, b.m));
    }
  }

  lemma WholeIffParts(log: seq<Entry>, lo: nat, mid: nat, hi: nat, d: seq<Entry>, d': seq<Entry>)
    requires lo <= mid <= hi <= |log| && |d| <= mid - lo && |d'| <= hi - mid
    ensures d + d' == log[lo..hi] <==> d == log[lo..mid] && d' == log[mid..hi]
    ensures log[lo..mid] + log[mid..hi] == log[lo..hi]
  {
    if d + d' == log[lo..hi] {
      assert d == (d + d')[..mid - lo] && d' == (d + d')[mid - lo..];
    }
  }
}

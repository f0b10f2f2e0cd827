module FeedLog {
  // The change feed as its readers see it: a log that grows, answers from the part committed so far, and what a
  // reader is answered who asks again and again from where the last answer left it.

  import opened Wrappers

  /** A record's place: file, generation, offset and item. */
  datatype RecKey = RecKey(file: string, gen: int, offset: int, item: int)

  datatype Kind = Reset(file: string, gen: int) | Record(key: Option<RecKey>) | Unknown

  datatype Entry = Entry(seqNo: int, kind: Kind)

  // ---------------------------------------------------------------- the log

  predicate Ascending(log: seq<Entry>) {
    forall i, j :: 0 <= i < j < |log| ==> log[i].seqNo <= log[j].seqNo
  }

  predicate InOrder(log: seq<Entry>, i: nat, j: nat) {
    i <= j < |log| ==> log[i].seqNo <= log[j].seqNo
  }

  /** How many entries of the log are at or before the cursor. */
  function Pos(log: seq<Entry>, cursor: int): (p: nat)
    ensures p <= |log|
  {
    if log == [] then 0
    else if log[|log| - 1].seqNo <= cursor then |log|
    else Pos(log[..|log| - 1], cursor)
  }

  lemma {:induction false} PosSplits(log: seq<Entry>, cursor: int)
    requires Ascending(log)
    ensures forall k :: 0 <= k < |log| ==> (log[k].seqNo <= cursor <==> k < Pos(log, cursor))
  {
    if log != [] && log[|log| - 1].seqNo > cursor {
      PosSplits(log[..|log| - 1], cursor);
    }
  }

  /** A cursor that leaves the first `p` entries behind it and none of the others. */
  predicate Splits(log: seq<Entry>, p: nat, cursor: int) {
    && p <= |log|
    && (forall k :: 0 <= k < p ==> log[k].seqNo <= cursor)
    && (forall k :: p <= k < |log| ==> cursor <= log[k].seqNo)
  }

  // ---------------------------------------------------------------- answers

  datatype Page = Page(entries: seq<Entry>, next: int, more: bool)

  datatype Reply = Answer(page: Page) | Retryable | Failure

  /** The log with everything that is ever committed to it, how much of it the n-th request finds committed, and the
      reply to the n-th request. */
  datatype Server = Server(log: seq<Entry>, committed: nat -> nat, serve: (int, nat) -> Reply)

  /** The part of the log that the n-th request finds committed. */
  function Seen(s: Server, n: nat): seq<Entry> {
    if s.committed(n) <= |s.log| then s.log[..s.committed(n)] else s.log
  }

  /** An answer to a cursor from the log's committed part: the entries after the cursor in order and without gaps;
      without `more`, all of them, and then the next cursor is at or after each of them and at or before all later
      ones. */
  predicate GoodPage(log: seq<Entry>, seen: seq<Entry>, cursor: int, page: Page) {
    var i := Pos(seen, cursor);
    var j := i + |page.entries|;
    && j <= |seen| && page.entries == seen[i..j]
    && if page.more then page.entries != [] else j == |seen| && Splits(log, j, page.next)
  }

  predicate GoodReply(s: Server, c: int, n: nat) {
    s.serve(c, n).Answer? ==> GoodPage(s.log, Seen(s, n), c, s.serve(c, n).page)
  }

  /** The log only grows. */
  predicate Grows(s: Server, m: nat, n: nat) {
    m <= n ==> s.committed(m) <= s.committed(n) <= |s.log|
  }

  ghost predicate Honest(s: Server) {
    && (forall i, j :: InOrder(s.log, i, j)) && (forall m, n :: Grows(s, m, n))
    && (forall c, n :: GoodReply(s, c, n))
  }

  lemma Ascends(s: Server)
    requires Honest(s)
    ensures Ascending(s.log)
  {
    forall i, j | 0 <= i < j < |s.log| ensures s.log[i].seqNo <= s.log[j].seqNo {
      assert InOrder(s.log, i, j);
    }
  }

  // ---------------------------------------------------------------- asking again and again

  /** Where a reader stands: the cursor it asks with, the entries of the log it is past, and its requests so far. */
  datatype Stand = Stand(cursor: int, at: nat, now: nat)

  ghost predicate Stands(s: Server, o: Stand) {
    Splits(s.log, o.at, o.cursor) && o.at <= s.committed(o.now)
  }

  /** The cursor to ask with once the page is read. */
  function EndCursor(page: Page): int {
    if page.entries != [] && page.more then page.entries[|page.entries| - 1].seqNo else page.next
  }

  /** The first entry that a request from `o` can be answered with. */
  function From(s: Server, o: Stand): nat {
    Pos(Seen(s, o.now), o.cursor)
  }

  /** What a request from `o` is answered with. */
  function Answered(s: Server, o: Stand): seq<Entry> {
    var r := s.serve(o.cursor, o.now);
    if r.Answer? then r.page.entries else []
  }

  /** Where the reader stands after the request from `o`. */
  function Asked(s: Server, o: Stand): Stand {
    var r := s.serve(o.cursor, o.now);
    if r.Answer? then Stand(EndCursor(r.page), From(s, o) + |r.page.entries|, o.now + 1) else o.(now := o.now + 1)
  }

  /** Where the reader stands after `m` requests. */
  function StandAfter(s: Server, o: Stand, m: nat): Stand {
    if m == 0 then o else Asked(s, StandAfter(s, o, m - 1))
  }

  /** What the reader is handed by `m` requests. */
  function Handed(s: Server, o: Stand, m: nat): seq<Entry> {
    if m == 0 then [] else Handed(s, o, m - 1) + Answered(s, StandAfter(s, o, m - 1))
  }

  /** The request from `o` is answered and finds entry `k` unread behind its cursor: the cursor has its number. */
  predicate Behind(s: Server, o: Stand, k: nat) {
    && s.serve(o.cursor, o.now).Answer?
    && o.at <= k < s.committed(o.now) && k < |s.log| && s.log[k].seqNo == o.cursor
  }

  lemma PrefixSplits(s: Server, o: Stand)
    requires Honest(s) && Stands(s, o)
    ensures o.at <= From(s, o) <= s.committed(o.now) <= |s.log|
    ensures forall k :: o.at <= k < s.committed(o.now) ==> (k < From(s, o) <==> s.log[k].seqNo == o.cursor)
  {
    Ascends(s);
    var seen := Seen(s, o.now);
    assert Grows(s, o.now, o.now);
    PosSplits(seen, o.cursor);
    if o.at > 0 { assert seen[o.at - 1] == s.log[o.at - 1]; }
    forall k | o.at <= k < |seen| ensures k < From(s, o) <==> s.log[k].seqNo == o.cursor {
      assert seen[k] == s.log[k];
    }
  }

  lemma LastSplits(log: seq<Entry>, p: nat)
    requires Ascending(log) && 0 < p <= |log|
    ensures Splits(log, p, log[p - 1].seqNo)
  {
  }

  lemma GoodPageIs(s: Server, o: Stand, page: Page)
    requires Honest(s) && s.serve(o.cursor, o.now) == Answer(page)
    ensures var j := From(s, o) + |page.entries|;
            && j <= s.committed(o.now) <= |s.log| && page.entries == s.log[From(s, o)..j]
            && (page.more ==> page.entries != [] && page.entries[|page.entries| - 1] == s.log[j - 1])
            && (!page.more ==> j == s.committed(o.now) && Splits(s.log, j, page.next))
  {
    assert Grows(s, o.now, o.now) && GoodReply(s, o.cursor, o.now);
    var i := From(s, o);
    var j := i + |page.entries|;
    assert Seen(s, o.now)[i..j] == s.log[i..j];
  }

  /** One request: the reader stands after it, is past the entries it was handed and those behind its cursor. */
  lemma Ask(s: Server, o: Stand)
    requires Honest(s) && Stands(s, o)
    ensures Stands(s, Asked(s, o)) && o.at <= Asked(s, o).at
    ensures s.serve(o.cursor, o.now).Answer? ==>
              o.at <= From(s, o) <= Asked(s, o).at && Answered(s, o) == s.log[From(s, o)..Asked(s, o).at]
    ensures forall k :: o.at <= k < Asked(s, o).at ==> (Behind(s, o, k) <==> k < From(s, o))
    ensures !s.serve(o.cursor, o.now).Answer? ==> Asked(s, o) == o.(now := o.now + 1) && Answered(s, o) == []
  {
    PrefixSplits(s, o);
    assert Grows(s, o.now, o.now + 1);
    var r := s.serve(o.cursor, o.now);
    if r.Answer? {
      GoodPageIs(s, o, r.page);
      if r.page.more {
        Ascends(s);
        LastSplits(s.log, Asked(s, o).at);
      }
    }
  }

  lemma {:induction false} AfterStands(s: Server, o: Stand, m: nat)
    requires Honest(s) && Stands(s, o)
    ensures Stands(s, StandAfter(s, o, m)) && StandAfter(s, o, m).at >= o.at && StandAfter(s, o, m).now == o.now + m
  {
    if m > 0 {
      AfterStands(s, o, m - 1);
      Ask(s, StandAfter(s, o, m - 1));
    }
  }

  // ---------------------------------------------------------------- what is skipped

  /** One of the first `m` requests finds entry `k` behind its cursor. */
  predicate Skipped(s: Server, o: Stand, m: nat, k: nat) {
    exists j :: 0 <= j < m && Behind(s, StandAfter(s, o, j), k)
  }

  predicate NoneSkipped(s: Server, o: Stand, m: nat, lo: nat, hi: nat) {
    forall k :: lo <= k < hi ==> !Skipped(s, o, m, k)
  }

  /** The entries from `lo` up to `hi` that are not skipped. */
  function Unskipped(s: Server, o: Stand, m: nat, lo: nat, hi: nat): (r: seq<Entry>)
    requires lo <= hi <= |s.log|
    ensures |r| <= hi - lo
    decreases hi
  {
    if lo == hi then []
    else Unskipped(s, o, m, lo, hi - 1) + if Skipped(s, o, m, hi - 1) then [] else [s.log[hi - 1]]
  }

  lemma SkippedNext(s: Server, o: Stand, m: nat, k: nat)
    ensures Skipped(s, o, m + 1, k) <==> Skipped(s, o, m, k) || Behind(s, StandAfter(s, o, m), k)
  {
  }

  lemma {:induction false} AtGrows(s: Server, o: Stand, j: nat, m: nat)
    requires Honest(s) && Stands(s, o) && j <= m
    ensures o.at <= StandAfter(s, o, j).at <= StandAfter(s, o, m).at <= |s.log|
  {
    AfterStands(s, o, m);
    if j < m {
      AtGrows(s, o, j, m - 1);
      AfterStands(s, o, m - 1);
      Ask(s, StandAfter(s, o, m - 1));
    }
  }

  /** What a request finds behind its cursor it moves past; the first unread entry is behind if any is. */
  lemma BehindIsPassed(s: Server, o: Stand, j: nat, m: nat, k: nat)
    requires Honest(s) && Stands(s, o) && j < m && Behind(s, StandAfter(s, o, j), k)
    ensures o.at <= StandAfter(s, o, j).at <= k < StandAfter(s, o, m).at <= |s.log|
    ensures FirstBehind(s, StandAfter(s, o, j))
  {
    AfterStands(s, o, j);
    AtGrows(s, o, j + 1, m);
    Ask(s, StandAfter(s, o, j));
    PrefixSplits(s, StandAfter(s, o, j));
  }

  /** No request finds an entry behind its cursor that lies ahead of a later stand. */
  lemma SkippedIsPast(s: Server, o: Stand, m: nat, k: nat)
    requires Honest(s) && Stands(s, o) && k >= StandAfter(s, o, m).at
    ensures !Skipped(s, o, m, k)
  {
    if Skipped(s, o, m, k) {
      var j :| 0 <= j < m && Behind(s, StandAfter(s, o, j), k);
      BehindIsPassed(s, o, j, m, k);
    }
  }

  lemma {:induction false} UnskippedExtends(s: Server, o: Stand, m: nat, lo: nat, hi: nat)
    requires lo <= hi <= |s.log|
    requires forall k :: lo <= k < hi ==> !Behind(s, StandAfter(s, o, m), k)
    ensures Unskipped(s, o, m + 1, lo, hi) == Unskipped(s, o, m, lo, hi)
  {
    if lo < hi {
      UnskippedExtends(s, o, m, lo, hi - 1);
      SkippedNext(s, o, m, hi - 1);
    }
  }

  lemma {:induction false} UnskippedRun(s: Server, o: Stand, m: nat, lo: nat, mid: nat, hi: nat)
    requires lo <= mid <= hi <= |s.log|
    requires NoneSkipped(s, o, m, mid, hi)
    ensures Unskipped(s, o, m, lo, hi) == Unskipped(s, o, m, lo, mid) + s.log[mid..hi]
  {
    if mid < hi {
      UnskippedRun(s, o, m, lo, mid, hi - 1);
      assert s.log[mid..hi] == s.log[mid..hi - 1] + [s.log[hi - 1]];
    }
  }

  lemma {:induction false} UnskippedGap(s: Server, o: Stand, m: nat, lo: nat, mid: nat, hi: nat)
    requires lo <= mid <= hi <= |s.log|
    requires forall k :: mid <= k < hi ==> Skipped(s, o, m, k)
    ensures Unskipped(s, o, m, lo, hi) == Unskipped(s, o, m, lo, mid)
  {
    if mid < hi { UnskippedGap(s, o, m, lo, mid, hi - 1); }
  }

  lemma UnskippedAsked(s: Server, o: Stand, m: nat, p: Stand, q: Stand)
    requires Honest(s) && Stands(s, o) && p == StandAfter(s, o, m) && q == Asked(s, p)
    ensures o.at <= p.at <= q.at <= |s.log|
    ensures Unskipped(s, o, m + 1, o.at, q.at) == Unskipped(s, o, m, o.at, p.at) + Answered(s, p)
  {
    AfterStands(s, o, m);
    Ask(s, p);
    UnskippedExtends(s, o, m, o.at, p.at);
    if s.serve(p.cursor, p.now).Answer? {
      SkippedNow(s, o, m, m + 1, p);
      UnskippedGap(s, o, m + 1, o.at, p.at, From(s, p));
      UnskippedRun(s, o, m + 1, o.at, From(s, p), q.at);
    }
  }

  /** Of the entries a request moves past, it skips exactly those before its answer. */
  lemma SkippedNow(s: Server, o: Stand, m: nat, m': nat, p: Stand)
    requires Honest(s) && Stands(s, o) && p == StandAfter(s, o, m) && m' == m + 1
    requires s.serve(p.cursor, p.now).Answer?
    ensures p.at <= From(s, p) <= Asked(s, p).at
    ensures forall k :: p.at <= k < From(s, p) ==> Skipped(s, o, m', k)
    ensures NoneSkipped(s, o, m', From(s, p), Asked(s, p).at)
  {
    AfterStands(s, o, m);
    Ask(s, p);
    forall k | p.at <= k < Asked(s, p).at ensures Skipped(s, o, m', k) <==> k < From(s, p) {
      SkippedNext(s, o, m, k);
      SkippedIsPast(s, o, m, k);
    }
  }

  /** However the log grows and whatever the page sizes and failures: the answers are the log in order, without exactly
      those entries that were found behind the cursor of a request. */
  lemma {:induction false} HandedIsUnskipped(s: Server, o: Stand, m: nat)
    requires Honest(s) && Stands(s, o)
    ensures var end := StandAfter(s, o, m).at;
            o.at <= end <= |s.log| && Handed(s, o, m) == Unskipped(s, o, m, o.at, end)
  {
    AfterStands(s, o, m);
    if m > 0 {
      HandedIsUnskipped(s, o, m - 1);
      UnskippedAsked(s, o, m - 1, StandAfter(s, o, m - 1), StandAfter(s, o, m));
    }
  }

  lemma {:induction false} UnskippedIsAll(s: Server, o: Stand, m: nat, lo: nat, hi: nat)
    requires lo <= hi <= |s.log|
    ensures Unskipped(s, o, m, lo, hi) == s.log[lo..hi] <==> NoneSkipped(s, o, m, lo, hi)
    ensures |Unskipped(s, o, m, lo, hi)| == hi - lo <==> Unskipped(s, o, m, lo, hi) == s.log[lo..hi]
  {
    if lo < hi {
      UnskippedIsAll(s, o, m, lo, hi - 1);
      assert s.log[lo..hi] == s.log[lo..hi - 1] + [s.log[hi - 1]];
    }
  }

  /** The request from `o` finds the first unread entry behind its cursor. */
  predicate FirstBehind(s: Server, o: Stand) {
    Behind(s, o, o.at)
  }

  /** No request found the first unread entry behind its cursor. */
  predicate NoneBehind(s: Server, o: Stand, m: nat) {
    forall j :: 0 <= j < m ==> !FirstBehind(s, StandAfter(s, o, j))
  }

  lemma NoneBehindNoneSkipped(s: Server, o: Stand, m: nat)
    requires Honest(s) && Stands(s, o)
    ensures NoneBehind(s, o, m) <==> NoneSkipped(s, o, m, o.at, StandAfter(s, o, m).at)
  {
    if !NoneBehind(s, o, m) {
      var j :| 0 <= j < m && FirstBehind(s, StandAfter(s, o, j));
      BehindIsPassed(s, o, j, m, StandAfter(s, o, j).at);
      assert Skipped(s, o, m, StandAfter(s, o, j).at);
    }
    forall k | o.at <= k < StandAfter(s, o, m).at && Skipped(s, o, m, k) ensures !NoneBehind(s, o, m) {
      var j :| 0 <= j < m && Behind(s, StandAfter(s, o, j), k);
      BehindIsPassed(s, o, j, m, k);
    }
  }

  /** The answers are the whole log from the start on if and only if no request found the first unread entry to have
      its own cursor's number, whether a limit cut it off or it was committed later. */
  lemma SkipsNothingIff(s: Server, o: Stand, m: nat)
    requires Honest(s) && Stands(s, o)
    ensures o.at <= StandAfter(s, o, m).at <= |s.log|
    ensures Handed(s, o, m) == s.log[o.at..StandAfter(s, o, m).at] <==> NoneBehind(s, o, m)
  {
    AfterStands(s, o, m);
    HandedIsUnskipped(s, o, m);
    UnskippedIsAll(s, o, m, o.at, StandAfter(s, o, m).at);
    NoneBehindNoneSkipped(s, o, m);
  }

  // ---------------------------------------------------------------- where ties come from

  /** The number of entry `k` is that of the cursor the reader began with, of the last entry of a page that was cut off
      there, or of the head of the feed when `k` was not yet committed. */
  ghost predicate TieExplained(s: Server, o: Stand, k: nat)
    requires k < |s.log|
  {
    || (k >= o.at && s.log[k].seqNo == o.cursor)
    || (k > o.at && s.log[k - 1].seqNo == s.log[k].seqNo)
    || (exists c, n :: HeadReached(s, c, n, k))
  }

  /** Request `n` was answered with the whole feed so far and its head as next cursor; `k` came later at that number. */
  predicate HeadReached(s: Server, c: int, n: nat, k: nat) {
    && s.serve(c, n).Answer? && !s.serve(c, n).page.more
    && s.committed(n) <= k < |s.log| && s.log[k].seqNo == s.serve(c, n).page.next
  }

  /** Every entry from `at` on that has the cursor's number has an explanation. */
  ghost predicate TiesExplained(s: Server, o: Stand, at: nat, cursor: int) {
    forall k :: at <= k < |s.log| && s.log[k].seqNo == cursor ==> TieExplained(s, o, k)
  }

  lemma {:induction false} CursorExplained(s: Server, o: Stand, m: nat)
    requires Honest(s) && Stands(s, o)
    ensures TiesExplained(s, o, StandAfter(s, o, m).at, StandAfter(s, o, m).cursor)
  {
    if m > 0 {
      CursorExplained(s, o, m - 1);
      AfterStands(s, o, m - 1);
      var p, q := StandAfter(s, o, m - 1), StandAfter(s, o, m);
      Ask(s, p);
      forall k | q.at <= k < |s.log| && s.log[k].seqNo == q.cursor ensures TieExplained(s, o, k) {
        AnswerExplained(s, o, p, k);
      }
    }
  }

  lemma AnswerExplained(s: Server, o: Stand, p: Stand, k: nat)
    requires Honest(s) && Stands(s, p) && o.at <= p.at
    requires Asked(s, p).at <= k < |s.log| && s.log[k].seqNo == Asked(s, p).cursor
    requires !s.serve(p.cursor, p.now).Answer? ==> TieExplained(s, o, k)
    ensures TieExplained(s, o, k)
  {
    var r := s.serve(p.cursor, p.now);
    if r.Answer? {
      Ask(s, p);
      GoodPageIs(s, p, r.page);
      if r.page.more {
        assert InOrder(s.log, Asked(s, p).at - 1, k - 1) && InOrder(s.log, k - 1, k);
      } else {
        assert HeadReached(s, p.cursor, p.now, k);
      }
    }
  }

  /** Every skipped entry has the number of the starting cursor, of the entry before it, or of a head that the feed had
      already reached when it was committed. */
  lemma SkippedIsTied(s: Server, o: Stand, m: nat, k: nat)
    requires Honest(s) && Stands(s, o) && Skipped(s, o, m, k)
    ensures k < |s.log| && TieExplained(s, o, k)
  {
    var j :| 0 <= j < m && Behind(s, StandAfter(s, o, j), k);
    CursorExplained(s, o, j);
  }

  /** The request after an answer, whenever it is answered, finds its first unread entry behind its cursor if and
      only if that entry has the number of the last one of a page that was cut off there, or that of the head that a
      complete answer gave before the entry was committed. */
  lemma NextIsBehindIff(s: Server, p: Stand, page: Page, q: Stand)
    requires Honest(s) && Stands(s, p) && s.serve(p.cursor, p.now) == Answer(page)
    requires q.cursor == Asked(s, p).cursor && q.at == Asked(s, p).at && q.now > p.now
             && s.serve(q.cursor, q.now).Answer?
    ensures q.at <= s.committed(q.now) <= |s.log|
    ensures page.more ==> q.at > 0
    ensures FirstBehind(s, q) <==>
            q.at < s.committed(q.now) && s.log[q.at].seqNo == if page.more then s.log[q.at - 1].seqNo else page.next
    ensures !page.more ==> q.at == s.committed(p.now)
  {
    Ask(s, p);
    GoodPageIs(s, p, page);
    assert Grows(s, p.now, q.now);
  }

  /** So a feed whose numbers differ, commit later entries above every head it answered, and are above the starting
      cursor, is handed out whole. */
  lemma WithoutTiesNothingIsSkipped(s: Server, o: Stand, m: nat)
    requires Honest(s) && Stands(s, o)
    requires forall k :: 0 < k < |s.log| ==> s.log[k - 1].seqNo != s.log[k].seqNo
    requires forall k :: o.at <= k < |s.log| ==> s.log[k].seqNo != o.cursor
    requires forall c, n, k :: !HeadReached(s, c, n, k)
    ensures o.at <= StandAfter(s, o, m).at <= |s.log| && Handed(s, o, m) == s.log[o.at..StandAfter(s, o, m).at]
    ensures NoneBehind(s, o, m)
  {
    SkipsNothingIff(s, o, m);
    NoneBehindNoneSkipped(s, o, m);
    forall k | o.at <= k < StandAfter(s, o, m).at ensures !Skipped(s, o, m, k) {
      if Skipped(s, o, m, k) { SkippedIsTied(s, o, m, k); }
    }
  }
}

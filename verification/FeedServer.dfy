module FeedServer {
  // The daemon's side of the feed: how records and resets get their sequence numbers, and how a request is answered.
  // It keeps the promise the iterator relies on; two resets with no record between them have one number.

  import opened Wrappers
  import opened FeedLog
  import opened FeedIter

  /** What a transaction of the parser adds, in the order it commits: a record takes the next record id, a reset notes
      the id the next record will take. Only what passes the filter is in the feed. */
  datatype Row = RecordRow(key: RecKey, selected: bool) | ResetRow(file: string, gen: int, selected: bool)

  // ---------------------------------------------------------------- numbers

  /** The greatest record id given out. */
  function MaxRec(rows: seq<Row>): nat {
    if rows == [] then 0 else MaxRec(rows[..|rows| - 1]) + if rows[|rows| - 1].RecordRow? then 1 else 0
  }

  /** The greatest id a reset noted, 0 if there is none. */
  function MaxNext(rows: seq<Row>): nat {
    if rows == [] then 0
    else
      var before := rows[..|rows| - 1];
      if rows[|rows| - 1].RecordRow? || MaxRec(before) + 1 < MaxNext(before) then MaxNext(before)
        else MaxRec(before) + 1
  }

  function RecSeq(id: int): int { 2 * id }

  function ResetSeq(next: int): int { 2 * next - 1 }

  function Head(rows: seq<Row>): int {
    var head := RecSeq(MaxRec(rows));
    if MaxNext(rows) > 0 && ResetSeq(MaxNext(rows)) > head then ResetSeq(MaxNext(rows)) else head
  }

  /** The entry of a row that comes after the rows before it. */
  function EntryOf(before: seq<Row>, r: Row): Entry {
    match r
    case RecordRow(key, _) => Entry(RecSeq(MaxRec(before) + 1), Record(Some(key)))
    case ResetRow(file, gen, _) => Entry(ResetSeq(MaxRec(before) + 1), Reset(file, gen))
  }

  /** The feed that the rows make, in the order of commit. */
  function LogOf(rows: seq<Row>): seq<Entry> {
    if rows == [] then []
    else
      var before, r := rows[..|rows| - 1], rows[|rows| - 1];
      LogOf(before) + if r.selected then [EntryOf(before, r)] else []
  }

  lemma {:induction false} HeadIsLast(rows: seq<Row>)
    ensures MaxNext(rows) <= MaxRec(rows) + 1 && Head(rows) <= ResetSeq(MaxRec(rows) + 1)
    ensures forall k :: 0 <= k < |LogOf(rows)| ==> LogOf(rows)[k].seqNo <= Head(rows)
    ensures rows != [] ==> Head(rows[..|rows| - 1]) <= EntryOf(rows[..|rows| - 1], rows[|rows| - 1]).seqNo <= Head(rows)
    ensures rows != [] ==> MaxRec(rows[..|rows| - 1]) <= MaxRec(rows)
  {
    if rows != [] { HeadIsLast(rows[..|rows| - 1]); }
  }

  /** The head is twice the number of records, and one more when a reset came after the last of them. */
  lemma HeadIs(rows: seq<Row>)
    ensures Head(rows) == 2 * MaxRec(rows) + if rows != [] && rows[|rows| - 1].ResetRow? then 1 else 0
    ensures MaxRec(rows) == |set k | 0 <= k < |rows| && rows[k].RecordRow?|
  {
    RecordsCounted(rows);
    if rows != [] { HeadIsLast(rows[..|rows| - 1]); }
  }

  lemma {:induction false} RecordsCounted(rows: seq<Row>)
    ensures MaxRec(rows) == |set k | 0 <= k < |rows| && rows[k].RecordRow?|
  {
    if rows != [] {
      var n := |rows| - 1;
      RecordsCounted(rows[..n]);
      var before := set k | 0 <= k < n && rows[..n][k].RecordRow?;
      var all := set k | 0 <= k < |rows| && rows[k].RecordRow?;
      assert all == before + if rows[n].RecordRow? then {n} else {};
    }
  }

  lemma {:induction false} LogAscends(rows: seq<Row>)
    ensures Ascending(LogOf(rows))
  {
    if rows != [] {
      LogAscends(rows[..|rows| - 1]);
      HeadIsLast(rows[..|rows| - 1]);
      HeadIsLast(rows);
    }
  }

  /** Entries of one number are resets: everything before a record has a smaller one. */
  lemma {:induction false} TiesAreResets(rows: seq<Row>)
    ensures forall j, k :: 0 <= j < k < |LogOf(rows)| && LogOf(rows)[k].kind.Record? ==>
                             LogOf(rows)[j].seqNo < LogOf(rows)[k].seqNo
    ensures forall k :: 0 <= k < |LogOf(rows)| ==> LogOf(rows)[k].kind.Record? || LogOf(rows)[k].kind.Reset?
  {
    if rows != [] {
      TiesAreResets(rows[..|rows| - 1]);
      HeadIsLast(rows[..|rows| - 1]);
    }
  }

  /** `head` is at or after the first `n` entries, at or before every later one, and before every later record. */
  predicate Divides(log: seq<Entry>, n: nat, head: int) {
    && Splits(log, n, head)
    && forall k :: n <= k < |log| && log[k].kind.Record? ==> head < log[k].seqNo
  }

  lemma DividesNext(log: seq<Entry>, n: nat, head: int, e: Entry)
    requires Divides(log, n, head) && head <= e.seqNo && (e.kind.Record? ==> head < e.seqNo)
    ensures Divides(log + [e], n, head)
  {
  }

  /** At any moment of its history the feed is a prefix of what it becomes, and its head is at or after all of it, at or
      before every reset and before every record that comes later. */
  lemma {:induction false} HeadSplits(rows: seq<Row>, v: nat)
    requires v <= |rows|
    ensures LogOf(rows[..v]) <= LogOf(rows) && Divides(LogOf(rows), |LogOf(rows[..v])|, Head(rows[..v]))
    ensures Head(rows[..v]) <= ResetSeq(MaxRec(rows) + 1)
  {
    if v == |rows| {
      assert rows[..v] == rows;
      HeadIsLast(rows);
    } else {
      var before, last := rows[..|rows| - 1], rows[|rows| - 1];
      HeadSplits(before, v);
      assert before[..v] == rows[..v];
      HeadIsLast(rows);
      if last.selected { DividesNext(LogOf(before), |LogOf(rows[..v])|, Head(rows[..v]), EntryOf(before, last)); }
    }
  }

  // ---------------------------------------------------------------- answers

  function RecordsOf(es: seq<Entry>): seq<Entry> {
    if es == [] then []
    else RecordsOf(es[..|es| - 1]) + if es[|es| - 1].kind.Record? then [es[|es| - 1]] else []
  }

  /** The page size: 1,000 by default, at most 10,000. */
  function LimitOf(limit: int): nat {
    if limit <= 0 then 1000 else if limit > 10000 then 10000 else limit
  }

  /** The records after the cursor. */
  function RecordsAfter(log: seq<Entry>, cursor: int): seq<Entry> {
    RecordsOf(log[Pos(log, cursor)..])
  }

  /** Up to where the entries are listed: the head, or short of the first record that the limit leaves out. */
  function Bound(rows: seq<Row>, cursor: int, limit: nat): int {
    var recs := RecordsAfter(LogOf(rows), cursor);
    if |recs| > limit then recs[limit].seqNo - 1 else Head(rows)
  }

  function Between(log: seq<Entry>, after: int, bound: int): seq<Entry> {
    if Pos(log, after) <= Pos(log, bound) then log[Pos(log, after)..Pos(log, bound)] else []
  }

  /** One read of the feed: at most `limit` records after the cursor and the resets up to the first record left out, in
      the order of their numbers and again at most `limit`; refused if the cursor is below the floor or beyond the
      head. */
  function Once(rows: seq<Row>, floor: int, cursor: int, limit: nat): Reply {
    if cursor < floor || cursor > Head(rows) then Failure
    else
      var all := Between(LogOf(rows), cursor, Bound(rows, cursor, limit));
      var entries := if |all| > limit then all[..limit] else all;
      var more := |all| > limit || |RecordsAfter(LogOf(rows), cursor)| > limit;
      Answer(Page(entries, if more && entries != [] then entries[|entries| - 1].seqNo else Head(rows), more))
  }

  lemma {:induction false} RecordPlace(es: seq<Entry>, n: nat) returns (p: nat)
    requires n < |RecordsOf(es)|
    ensures n <= p < |es| && es[p] == RecordsOf(es)[n] && es[p].kind.Record?
  {
    var front := es[..|es| - 1];
    if n < |RecordsOf(front)| {
      p := RecordPlace(front, n);
    } else {
      FewerRecords(front);
      p := |es| - 1;
    }
  }

  lemma {:induction false} FewerRecords(es: seq<Entry>)
    ensures |RecordsOf(es)| <= |es|
  {
    if es != [] { FewerRecords(es[..|es| - 1]); }
  }

  lemma ReachesBelow(rows: seq<Row>, k: nat)
    requires 0 < k < |LogOf(rows)| && LogOf(rows)[k].kind.Record?
    ensures k <= Pos(LogOf(rows), LogOf(rows)[k].seqNo - 1)
  {
    TiesAreResets(rows);
    LogAscends(rows);
    PosSplits(LogOf(rows), LogOf(rows)[k].seqNo - 1);
    assert LogOf(rows)[k - 1].seqNo < LogOf(rows)[k].seqNo;
  }

  /** A record left out is not listed, but at least as many entries as the limit are. */
  lemma BoundReaches(rows: seq<Row>, cursor: int, limit: nat)
    requires |RecordsAfter(LogOf(rows), cursor)| > limit > 0
    ensures var log := LogOf(rows);
            Pos(log, cursor) + limit <= Pos(log, Bound(rows, cursor, limit)) && Pos(log, cursor) + limit < |log|
  {
    var log := LogOf(rows);
    var i := Pos(log, cursor);
    var p := RecordPlace(log[i..], limit);
    assert log[i + p] == log[i..][p];
    ReachesBelow(rows, i + p);
  }

  lemma AllIsListed(rows: seq<Row>)
    ensures Pos(LogOf(rows), Head(rows)) == |LogOf(rows)|
  {
    HeadIsLast(rows);
  }

  lemma CutShort(rows: seq<Row>, floor: int, cursor: int, limit: nat)
    requires |RecordsAfter(LogOf(rows), cursor)| > limit > 0 && floor <= cursor <= Head(rows)
    ensures var log := LogOf(rows);
            var i := Pos(log, cursor);
            && i + limit < |log|
            && Once(rows, floor, cursor, limit) == Answer(Page(log[i..i + limit], log[i + limit - 1].seqNo, true))
  {
    BoundReaches(rows, cursor, limit);
    var log, i := LogOf(rows), Pos(LogOf(rows), cursor);
    var all := Between(log, cursor, Bound(rows, cursor, limit));
    assert all[..limit] == log[i..i + limit];
    assert |all| == limit ==> all[..limit] == all;
  }

  lemma AllRecordsFit(rows: seq<Row>, floor: int, cursor: int, limit: nat)
    requires |RecordsAfter(LogOf(rows), cursor)| <= limit && limit > 0 && floor <= cursor <= Head(rows)
    ensures var log := LogOf(rows);
            var i := Pos(log, cursor);
            Once(rows, floor, cursor, limit)
              == if i + limit < |log| then Answer(Page(log[i..i + limit], log[i + limit - 1].seqNo, true))
                 else Answer(Page(log[i..], Head(rows), false))
  {
    AllIsListed(rows);
    var log, i := LogOf(rows), Pos(LogOf(rows), cursor);
    assert Between(log, cursor, Head(rows)) == log[i..];
    if i + limit < |log| { assert log[i..][..limit] == log[i..i + limit]; }
  }

  /** A read is refused exactly when the cursor is below the floor or beyond the head; otherwise it answers the next
      entries, as many as the limit or all there are, says whether any are left, and gives the number of the last as
      the next cursor, or the head when none is left. */
  lemma OnceIs(rows: seq<Row>, floor: int, cursor: int, limit: nat)
    requires limit > 0
    ensures var log, r := LogOf(rows), Once(rows, floor, cursor, limit);
            var i := Pos(log, cursor);
            if cursor < floor || Head(rows) < cursor then r == Failure
            else if i + limit < |log| then r == Answer(Page(log[i..i + limit], log[i + limit - 1].seqNo, true))
            else r == Answer(Page(log[i..], Head(rows), false))
  {
    if floor <= cursor <= Head(rows) {
      if |RecordsAfter(LogOf(rows), cursor)| > limit {
        CutShort(rows, floor, cursor, limit);
      } else {
        AllRecordsFit(rows, floor, cursor, limit);
      }
    }
  }

  lemma OnceIsGood(rows: seq<Row>, v: nat, floor: int, cursor: int, limit: nat)
    requires v <= |rows| && limit > 0
    ensures var r := Once(rows[..v], floor, cursor, limit);
            r.Answer? ==> GoodPage(LogOf(rows), LogOf(rows[..v]), cursor, r.page)
  {
    OnceIs(rows[..v], floor, cursor, limit);
    HeadSplits(rows, v);
  }

  // ---------------------------------------------------------------- the daemon

  /** What request `n` finds: the rows committed by then, the floor, the limit it asks with, and whether the daemon is
      up and admits it. */
  datatype Moment = Moment(committed: nat, floor: int, limit: int, up: bool)

  function RowsAt(rows: seq<Row>, m: Moment): seq<Row> {
    if m.committed <= |rows| then rows[..m.committed] else rows
  }

  function Daemon(rows: seq<Row>, moments: nat -> Moment): Server {
    Server(LogOf(rows), (n: nat) => |LogOf(RowsAt(rows, moments(n)))|,
      (c: int, n: nat) => var m := moments(n); if m.up then Once(RowsAt(rows, m), m.floor, c, LimitOf(m.limit))
        else Retryable)
  }

  /** A request is answered whenever the daemon is up and its cursor is from the floor up to the head of that moment:
      with the next thousand entries, or as many as it asks for, up to ten thousand. */
  lemma DaemonAnswers(rows: seq<Row>, moments: nat -> Moment, cursor: int, n: nat)
    ensures var m, r := moments(n), Daemon(rows, moments).serve(cursor, n);
            var seen, head := LogOf(RowsAt(rows, m)), Head(RowsAt(rows, m));
            var i := Pos(seen, cursor);
            var size := if m.limit <= 0 then 1000 else if m.limit <= 10000 then m.limit else 10000;
            if !m.up then r == Retryable
            else if cursor < m.floor || head < cursor then r == Failure
            else if i + size < |seen| then r == Answer(Page(seen[i..i + size], seen[i + size - 1].seqNo, true))
            else r == Answer(Page(seen[i..], head, false))
  {
    OnceIs(RowsAt(rows, moments(n)), moments(n).floor, cursor, LimitOf(moments(n).limit));
  }

  ghost predicate InTime(moments: nat -> Moment) {
    forall m: nat, n: nat :: m <= n ==> moments(m).committed <= moments(n).committed
  }

  lemma RowsAtSplit(rows: seq<Row>, m: Moment) returns (v: nat)
    ensures v <= |rows| && RowsAt(rows, m) == rows[..v] && v == if m.committed <= |rows| then m.committed else |rows|
  {
    v := if m.committed <= |rows| then m.committed else |rows|;
    assert rows[..|rows|] == rows;
  }

  lemma DaemonGrows(rows: seq<Row>, moments: nat -> Moment, m: nat, n: nat)
    requires InTime(moments)
    ensures Grows(Daemon(rows, moments), m, n)
  {
    if m <= n {
      var u := RowsAtSplit(rows, moments(m));
      var v := RowsAtSplit(rows, moments(n));
      HeadSplits(rows, v);
      HeadSplits(rows[..v], u);
      assert rows[..v][..u] == rows[..u];
    }
  }

  lemma DaemonReplies(rows: seq<Row>, moments: nat -> Moment, c: int, n: nat)
    ensures GoodReply(Daemon(rows, moments), c, n)
  {
    var v := RowsAtSplit(rows, moments(n));
    OnceIsGood(rows, v, moments(n).floor, c, LimitOf(moments(n).limit));
    HeadSplits(rows, v);
    assert Seen(Daemon(rows, moments), n) == LogOf(rows[..v]);
  }

  /** Whatever is committed when, and whatever the limits and outages, the daemon keeps the promise the iterator relies
      on. */
  lemma DaemonIsHonest(rows: seq<Row>, moments: nat -> Moment)
    requires InTime(moments)
    ensures Honest(Daemon(rows, moments))
  {
    var s := Daemon(rows, moments);
    LogAscends(rows);
    forall m, n ensures Grows(s, m, n) { DaemonGrows(rows, moments, m, n); }
    forall c, n ensures GoodReply(s, c, n) { DaemonReplies(rows, moments, c, n); }
    forall i, j ensures InOrder(s.log, i, j) {}
  }

  // ---------------------------------------------------------------- only resets are skipped

  /** No record from `at` on has the cursor's number. */
  predicate ClearOfRecords(log: seq<Entry>, at: nat, cursor: int) {
    forall k :: at <= k < |log| && log[k].seqNo == cursor ==> log[k].kind.Reset?
  }

  /** A reader may begin at the head of any moment. */
  lemma HeadIsAStart(rows: seq<Row>, moments: nat -> Moment, n: nat)
    requires InTime(moments)
    ensures var o := Stand(Head(RowsAt(rows, moments(n))), |LogOf(RowsAt(rows, moments(n)))|, n);
            Stands(Daemon(rows, moments), o) && ClearOfRecords(LogOf(rows), o.at, o.cursor)
  {
    var v := RowsAtSplit(rows, moments(n));
    HeadSplits(rows, v);
    TiesAreResets(rows);
  }

  lemma ExplainedIsReset(rows: seq<Row>, moments: nat -> Moment, o: Stand, k: nat)
    requires k < |LogOf(rows)| && TieExplained(Daemon(rows, moments), o, k)
             && ClearOfRecords(LogOf(rows), o.at, o.cursor)
    ensures LogOf(rows)[k].kind.Reset?
  {
    var s := Daemon(rows, moments);
    TiesAreResets(rows);
    if c, n :| HeadReached(s, c, n, k) {
      var v := RowsAtSplit(rows, moments(n));
      HeadSplits(rows, v);
    }
  }

  /** No record is ever skipped, only resets, and an iterator may be begun anew from the cursor of one that was begun
      clear of records, at any time. */
  lemma RecordsAreNotSkipped(rows: seq<Row>, moments: nat -> Moment, r: Reading, k: nat)
    requires r.s == Daemon(rows, moments) && r.Holds() && ClearOfRecords(LogOf(rows), r.o.at, r.o.cursor)
    ensures Skipped(r.s, r.o, r.m, k) ==> k < |LogOf(rows)| && LogOf(rows)[k].kind.Reset?
    ensures r.At() >= 0 && ClearOfRecords(LogOf(rows), r.At(), r.cursor)
  {
    if Skipped(r.s, r.o, r.m, k) {
      SkippedIsTied(r.s, r.o, r.m, k);
      ExplainedIsReset(rows, moments, r.o, k);
    }
    forall i | r.At() <= i < |LogOf(rows)| && LogOf(rows)[i].seqNo == r.cursor ensures LogOf(rows)[i].kind.Reset? {
      ExplainedIsReset(rows, moments, r.o, i);
    }
  }

  ghost predicate SkipsOnlyResets(r: Reading) {
    forall k: nat :: Skipped(r.s, r.o, r.m, k) ==> k < |r.s.log| && r.s.log[k].kind.Reset?
  }

  /** Over any number of restarts from persisted cursors, every record of the log is consumed. */
  lemma {:induction false} RestartsSkipOnlyResets(rows: seq<Row>, moments: nat -> Moment, rs: seq<Reading>)
    requires rs != [] && Restarts(rs) && rs[0].s == Daemon(rows, moments)
    requires ClearOfRecords(LogOf(rows), rs[0].o.at, rs[0].o.cursor)
    ensures rs[|rs| - 1].s == rs[0].s && rs[|rs| - 1].At() >= 0
    ensures ClearOfRecords(LogOf(rows), rs[|rs| - 1].At(), rs[|rs| - 1].cursor)
    ensures forall r :: r in rs ==> SkipsOnlyResets(r)
  {
    var n := |rs| - 1;
    if n > 0 {
      RestartsFront(rs);
      RestartsSkipOnlyResets(rows, moments, rs[..n]);
    }
    forall k: nat ensures Skipped(rs[n].s, rs[n].o, rs[n].m, k) ==> k < |LogOf(rows)| && LogOf(rows)[k].kind.Reset? {
      RecordsAreNotSkipped(rows, moments, rs[n], k);
    }
    RecordsAreNotSkipped(rows, moments, rs[n], 0);
  }

  // ---------------------------------------------------------------- two resets

  /** Two files are parsed again and yield no record. */
  const TWO: seq<Row> := [ResetRow("a", 1, true), ResetRow("b", 1, true)]

  /** Both are there when the first request comes, which asks for one entry; or the second is committed after it. */
  function Cut(n: nat): Moment { Moment(2, 0, 1, true) }
  function Late(n: nat): Moment { Moment(if n == 0 then 1 else 2, 0, 0, true) }

  const A := Entry(1, Reset("a", 1))
  const B := Entry(1, Reset("b", 1))

  lemma TwoLogs()
    ensures LogOf(TWO[..1]) == [A] && Head(TWO[..1]) == 1
    ensures LogOf(TWO) == [A, B] && Head(TWO) == 1 && TWO[..2] == TWO
  {
    var one := TWO[..1];
    assert one[..0] == [] && one[0] == TWO[0];
    assert TWO[..|TWO| - 1] == one;
    assert LogOf(one) == LogOf([]) + [EntryOf([], TWO[0])];
    assert MaxRec(one) == 0 && MaxNext(one) == 1;
    assert LogOf(TWO) == LogOf(one) + [EntryOf(one, TWO[1])];
    assert MaxRec(TWO) == 0 && MaxNext(TWO) == 1;
  }

  lemma PosOf(log: seq<Entry>, cursor: int, p: nat)
    requires Ascending(log) && p <= |log|
    requires (p > 0 ==> log[p - 1].seqNo <= cursor) && (p < |log| ==> log[p].seqNo > cursor)
    ensures Pos(log, cursor) == p
  {
    PosSplits(log, cursor);
  }

  lemma TwoPlaces()
    ensures Pos([A], 0) == Pos([A, B], 0) == 0 && Pos([A], 1) == 1 && Pos([A, B], 1) == 2
    ensures [A, B][0..] == [A, B] && [A][0..] == [A] && [A, B][2..] == [] && [A, B][..1] == [A]
    ensures RecordsOf([]) == RecordsOf([A]) == RecordsOf([A, B]) == []
  {
    PosOf([A], 0, 0);
    PosOf([A], 1, 1);
    PosOf([A, B], 0, 0);
    PosOf([A, B], 1, 2);
    assert [A][..0] == [];
    assert [A, B][..|[A, B]| - 1] == [A];
  }

  lemma OneReply()
    ensures Once(TWO[..1], 0, 0, 1000) == Answer(Page([A], 1, false))
  {
    TwoLogs();
    TwoPlaces();
  }

  lemma TwoReplies()
    ensures Once(TWO, 0, 0, 1) == Answer(Page([A], 1, true))
    ensures Once(TWO, 0, 1, 1000) == Once(TWO, 0, 1, 1) == Answer(Page([], 1, false))
  {
    TwoLogs();
    TwoPlaces();
  }

  function TwoDaemon(late: bool): Server {
    Daemon(TWO, if late then Late else Cut)
  }

  function TwoStand(n: nat): Stand {
    Stand(if n == 0 then 0 else 1, if n < 2 then n else 2, n)
  }

  lemma TwoSeen(late: bool, n: nat)
    ensures var rows := if late && n == 0 then TWO[..1] else TWO;
            var s := TwoDaemon(late);
            && s.log == [A, B] && Seen(s, n) == LogOf(rows)
            && forall c :: s.serve(c, n) == Once(rows, 0, c, if late then 1000 else 1)
  {
    TwoLogs();
    var m := (if late then Late else Cut)(n);
    assert RowsAt(TWO, m) == if late && n == 0 then TWO[..1] else TWO;
  }

  lemma TwoAnswer(late: bool, n: nat)
    ensures var s, o := TwoDaemon(late), TwoStand(n);
            && s.serve(o.cursor, n) == Answer(Page(if n == 0 then [A] else [], 1, n == 0 && !late))
            && From(s, o) == if n == 0 then 0 else 2
  {
    TwoSeen(late, n);
    TwoLogs();
    TwoPlaces();
    if n > 0 || !late { TwoReplies(); } else { OneReply(); }
  }

  lemma TwoStep(late: bool, n: nat)
    ensures var s := TwoDaemon(late);
            && Asked(s, TwoStand(n)) == TwoStand(n + 1)
            && Answered(s, TwoStand(n)) == if n == 0 then [A] else []
  {
    TwoAnswer(late, n);
  }

  lemma TwoBegins(late: bool)
    ensures Stands(TwoDaemon(late), TwoStand(0)) && TwoDaemon(late).log == [A, B]
  {
    TwoSeen(late, 0);
  }

  /** The second reset is never handed out, however often is asked: a limit cut the page before it, or it came after an
      answer that already gave its number as the head. */
  lemma {:induction false} SecondResetIsSkipped(late: bool, m: nat)
    ensures var s := TwoDaemon(late);
            && Stands(s, TwoStand(0)) && s.log == [A, B]
            && StandAfter(s, TwoStand(0), m) == TwoStand(m)
            && Handed(s, TwoStand(0), m) == if m == 0 then [] else [A]
  {
    TwoBegins(late);
    if m > 0 {
      SecondResetIsSkipped(late, m - 1);
      TwoStep(late, m - 1);
    }
  }

  /** So no iterator begun at the start of that feed ever consumes it. */
  lemma NoIteratorSeesIt(late: bool, r: Reading)
    requires r.s == TwoDaemon(late) && r.o == Stand(0, 0, 0) && r.Holds()
    ensures r.s.log == [A, B] && B !in r.consumed
  {
    SecondResetIsSkipped(late, r.m);
    assert A != B;
    assert B in r.consumed ==> B in r.consumed + r.buf;
  }
}

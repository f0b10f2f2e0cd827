/** The cache file: what is written for each part of an entry, what is read back, and the round trip. A string is
    its bytes, one character each. Readers take the bytes left and give a value and the bytes after it, so a round
    trip holds whatever follows. */
module CacheFormat {
  import opened Wrappers
  import opened Tokens
  import opened SessionTypes
  import opened Varints

  const NANOS: int := 1_000_000_000
  const MAX_INT32: int := 0x7fff_ffff

  /** A cached file: its size and modification time, and its summary if it holds a dated event. */
  datatype Entry = Entry(size: int, mtimeNs: int, sum: Option<FileSummary>)

  // ---------------------------------------------------------------- lists

  function EncList<T>(xs: seq<T>, enc: T -> seq<Byte>): seq<Byte> {
    if xs == [] then [] else EncList(xs[..|xs| - 1], enc) + enc(xs[|xs| - 1])
  }

  lemma EncListAppend<T>(xs: seq<T>, x: T, enc: T -> seq<Byte>)
    ensures EncList(xs + [x], enc) == EncList(xs, enc) + enc(x)
  {
    assert (xs + [x])[..|xs + [x]| - 1] == xs;
  }

  lemma {:induction false} EncListFront<T>(xs: seq<T>, enc: T -> seq<Byte>)
    requires xs != []
    ensures EncList(xs, enc) == enc(xs[0]) + EncList(xs[1..], enc)
  {
    if |xs| > 1 {
      var front := xs[..|xs| - 1];
      EncListFront(front, enc);
      assert front[1..] == xs[1..][..|xs[1..]| - 1];
    }
  }

  /** A count and the elements. */
  function EncCounted<T>(xs: seq<T>, enc: T -> seq<Byte>): seq<Byte> {
    PutUvarint(|xs|) + EncList(xs, enc)
  }

  function PList<U>(n: nat, b: seq<Byte>, p: seq<Byte> -> Parse<U>): Parse<seq<U>> {
    if n == 0 then Got([], b)
    else
      var (x, rest) :- p(b);
      var (xs, after) :- PList(n - 1, rest, p);
      Got([x] + xs, after)
  }

  /** Refuses a count whose elements, of at least `least` bytes each, the remaining bytes cannot hold. */
  function PCount(b: seq<Byte>, least: nat): Parse<nat>
    requires least > 0
  {
    var (n, rest) :- GetUvarint(b);
    if CanHold(|rest|, n, least) then Got(n, rest) else Fail
  }

  predicate CanHold(size: nat, n: nat, least: nat)
    requires least > 0
  {
    n <= size / least
  }

  function PCounted<U>(b: seq<Byte>, least: nat, p: seq<Byte> -> Parse<U>): Parse<seq<U>>
    requires least > 0
  {
    var (n, rest) :- PCount(b, least);
    PList(n, rest, p)
  }

  function Mapped<T, U>(xs: seq<T>, view: T -> U): seq<U> {
    seq(|xs|, k requires 0 <= k < |xs| => view(xs[k]))
  }

  /** Reading gives the view of what was written, or fails for what it refuses. */
  ghost predicate RoundTrips<T, U(!new)>(x: T, enc: T -> seq<Byte>, p: seq<Byte> -> Parse<U>, view: T -> U,
                                         ok: T -> bool) {
    forall rest :: p(enc(x) + rest) == if ok(x) then Got(view(x), rest) else Fail
  }

  lemma {:induction false} ListRoundTrip<T, U(!new)>(xs: seq<T>, enc: T -> seq<Byte>, p: seq<Byte> -> Parse<U>,
                                                     view: T -> U, ok: T -> bool, rest: seq<Byte>)
    requires forall x :: x in xs ==> RoundTrips(x, enc, p, view, ok)
    ensures PList(|xs|, EncList(xs, enc) + rest, p)
         == if forall x :: x in xs ==> ok(x) then Got(Mapped(xs, view), rest) else Fail
  {
    if xs == [] {
      assert EncList(xs, enc) + rest == rest;
    } else {
      var after := EncList(xs[1..], enc) + rest;
      EncListFront(xs, enc);
      assert EncList(xs, enc) + rest == enc(xs[0]) + after;
      assert RoundTrips(xs[0], enc, p, view, ok);
      ListRoundTrip(xs[1..], enc, p, view, ok, rest);
      assert xs == [xs[0]] + xs[1..];
      assert Mapped(xs, view) == [view(xs[0])] + Mapped(xs[1..], view);
    }
  }

  lemma {:induction false} ListIsLongEnough<T>(xs: seq<T>, enc: T -> seq<Byte>, least: nat)
    requires forall x :: x in xs ==> |enc(x)| >= least
    ensures |EncList(xs, enc)| >= |xs| * least
  {
    if xs != [] {
      var n := |xs| - 1;
      ListIsLongEnough(xs[..n], enc, least);
      assert (n + 1) * least == n * least + least;
    }
  }

  lemma CountedRoundTrip<T, U(!new)>(xs: seq<T>, enc: T -> seq<Byte>, least: nat, p: seq<Byte> -> Parse<U>,
                                     view: T -> U, ok: T -> bool, rest: seq<Byte>)
    requires least > 0 && |xs| < TWO63
    requires forall x :: x in xs ==> |enc(x)| >= least
    requires forall x :: x in xs ==> RoundTrips(x, enc, p, view, ok)
    ensures PCounted(EncCounted(xs, enc) + rest, least, p)
         == if forall x :: x in xs ==> ok(x) then Got(Mapped(xs, view), rest) else Fail
  {
    var list := EncList(xs, enc);
    assert EncCounted(xs, enc) + rest == PutUvarint(|xs|) + (list + rest);
    PutThenGet(|xs|, list + rest);
    ListIsLongEnough(xs, enc, least);
    CountHolds(|xs|, least, |list + rest|);
    ListRoundTrip(xs, enc, p, view, ok, rest);
  }

  lemma CountHolds(n: nat, least: nat, size: nat)
    requires least > 0 && size >= n * least
    ensures n <= size / least
  {
    if size / least < n {
      assert size < (size / least + 1) * least;
      assert (size / least + 1) * least <= n * least by { Multiply(size / least + 1, n, least); }
      assert false;
    }
  }

  lemma Multiply(a: nat, b: nat, c: nat)
    requires a <= b
    ensures a * c <= b * c
  {
  }

  // ---------------------------------------------------------------- strings and times

  predicate IsByteString(s: string) {
    |s| < TWO63 && forall k :: 0 <= k < |s| ==> s[k] as int < 256
  }

  function BytesOf(s: string): (b: seq<Byte>)
    ensures |b| == |s|
  {
    seq(|s|, k requires 0 <= k < |s| => (s[k] as int) % 256)
  }

  function StringOf(b: seq<Byte>): (s: string)
    ensures |s| == |b|
  {
    seq(|b|, k requires 0 <= k < |b| => b[k] as char)
  }

  function EncStr(s: string): (b: seq<Byte>)
    ensures |b| >= 1
  {
    PutUvarint(|s|) + BytesOf(s)
  }

  function PStr(b: seq<Byte>): Parse<string> {
    var (n, rest) :- GetUvarint(b);
    if n > |rest| then Fail else Got(StringOf(rest[..n]), rest[n..])
  }

  lemma StrRoundTrip(s: string, rest: seq<Byte>)
    requires IsByteString(s)
    ensures PStr(EncStr(s) + rest) == Got(s, rest)
  {
    var after := BytesOf(s) + rest;
    assert EncStr(s) + rest == PutUvarint(|s|) + after;
    PutThenGet(|s|, after);
    assert after[..|s|] == BytesOf(s) && after[|s|..] == rest;
    assert StringOf(BytesOf(s)) == s;
  }

  function EncTime(t: Time): seq<Byte> {
    PutVarint(t / NANOS) + PutUvarint(t % NANOS)
  }

  function PTime(b: seq<Byte>): Parse<Time> {
    var (sec, r1) :- GetVarint(b);
    var (nsec, r2) :- GetUvarint(r1);
    if nsec > 999_999_999 then Fail else Got(sec * NANOS + nsec, r2)
  }

  lemma TimeRoundTrip(t: Time, rest: seq<Byte>)
    requires IsInt64(t / NANOS)
    ensures PTime(EncTime(t) + rest) == Got(t, rest)
  {
    assert EncTime(t) + rest == PutVarint(t / NANOS) + (PutUvarint(t % NANOS) + rest);
    PutThenGetSigned(t / NANOS, PutUvarint(t % NANOS) + rest);
    PutThenGet(t % NANOS, rest);
  }

  function EncTokens(t: Tok): (b: seq<Byte>)
    ensures |b| >= 4
  {
    PutVarint(t.input) + PutVarint(t.output) + PutVarint(t.cacheRead) + PutVarint(t.cacheWrite)
  }

  function PTokens(b: seq<Byte>): Parse<Tok> {
    var (input, r1) :- GetVarint(b);
    var (output, r2) :- GetVarint(r1);
    var (read, r3) :- GetVarint(r2);
    var (write, r4) :- GetVarint(r3);
    Got(Tok(input, output, read, write), r4)
  }

  predicate TokFits(t: Tok) {
    IsInt64(t.input) && IsInt64(t.output) && IsInt64(t.cacheRead) && IsInt64(t.cacheWrite)
  }

  lemma TokensRoundTrip(t: Tok, rest: seq<Byte>)
    requires TokFits(t)
    ensures PTokens(EncTokens(t) + rest) == Got(t, rest)
  {
    var r3 := PutVarint(t.cacheWrite) + rest;
    var r2 := PutVarint(t.cacheRead) + r3;
    var r1 := PutVarint(t.output) + r2;
    assert EncTokens(t) + rest == PutVarint(t.input) + r1;
    PutThenGetSigned(t.input, r1);
    PutThenGetSigned(t.output, r2);
    PutThenGetSigned(t.cacheRead, r3);
    PutThenGetSigned(t.cacheWrite, rest);
  }

  // ---------------------------------------------------------------- the local model table

  /** The distinct non-empty names in first-seen order; name k of the table has index k + 1, "" has index 0. */
  function AddModel(table: seq<string>, m: string): seq<string> {
    if m == "" || m in table then table else table + [m]
  }

  function ModelTable(names: seq<string>): seq<string> {
    if names == [] then [] else AddModel(ModelTable(names[..|names| - 1]), names[|names| - 1])
  }

  function IndexOf(table: seq<string>, m: string): nat {
    if table == [] then 0
    else if table[|table| - 1] == m then |table|
    else IndexOf(table[..|table| - 1], m)
  }

  lemma {:induction false} TableHas(names: seq<string>)
    ensures forall m :: m in names && m != "" ==> m in ModelTable(names)
    ensures forall m :: m in ModelTable(names) ==> m in names && m != ""
    ensures |ModelTable(names)| <= |names|
  {
    if names != [] {
      TableHas(names[..|names| - 1]);
      assert names == names[..|names| - 1] + [names[|names| - 1]];
    }
  }

  lemma {:induction false} IndexFinds(table: seq<string>, m: string)
    ensures IndexOf(table, m) <= |table| && (IndexOf(table, m) == 0 <==> m !in table)
    ensures m in table ==> table[IndexOf(table, m) - 1] == m
  {
    if table != [] {
      IndexFinds(table[..|table| - 1], m);
      assert table == table[..|table| - 1] + [table[|table| - 1]];
    }
  }

  function PModel(b: seq<Byte>, models: seq<string>): Parse<string> {
    var (i, rest) :- GetUvarint(b);
    if i >= |models| then Fail else Got(models[i], rest)
  }

  lemma ModelRoundTrip(table: seq<string>, m: string, rest: seq<Byte>)
    requires (m in table || m == "") && "" !in table && |table| < TWO63
    ensures PModel(PutUvarint(IndexOf(table, m)) + rest, [""] + table) == Got(m, rest)
  {
    var i := IndexOf(table, m);
    ModelAt(table, m);
    PutThenGet(i, rest);
    ModelRead(PutUvarint(i) + rest, i, rest, [""] + table);
  }

  lemma ModelAt(table: seq<string>, m: string)
    requires (m in table || m == "") && "" !in table
    ensures IndexOf(table, m) <= |table| && ([""] + table)[IndexOf(table, m)] == m
  {
    IndexFinds(table, m);
  }

  lemma ModelRead(b: seq<Byte>, i: nat, rest: seq<Byte>, models: seq<string>)
    requires GetUvarint(b) == Got(i, rest) && i < |models|
    ensures PModel(b, models) == Got(models[i], rest)
  {
  }

  // ---------------------------------------------------------------- message entries

  function EncMsg(e: MsgEntry, table: seq<string>): (b: seq<Byte>)
    ensures |b| >= 14
  {
    PutFixed(e.id, 8) + (PutUvarint(IndexOf(table, e.agg.model))
      + ([if e.agg.nonSide then 1 else 0] + EncTokens(e.agg.tok)))
  }

  function PMsg(b: seq<Byte>, models: seq<string>): Parse<MsgEntry> {
    var (id, r1) :- GetU64(b);
    var (model, r2) :- PModel(r1, models);
    var (flag, r3) :- GetByte(r2);
    var (tok, r4) :- PTokens(r3);
    if flag > 1 then Fail else Got(MsgEntry(id, MsgAgg(model, tok, flag == 1)), r4)
  }

  predicate MsgFits(e: MsgEntry, table: seq<string>) {
    e.id < TWO64 && (e.agg.model == "" || e.agg.model in table) && TokFits(e.agg.tok)
  }

  predicate TableFits(table: seq<string>) {
    "" !in table && |table| < TWO63
  }

  lemma MsgRoundTrip(e: MsgEntry, table: seq<string>, rest: seq<Byte>)
    requires TableFits(table) && MsgFits(e, table)
    ensures PMsg(EncMsg(e, table) + rest, [""] + table) == Got(e, rest)
  {
    var r3 := EncTokens(e.agg.tok) + rest;
    var r2 := [if e.agg.nonSide then 1 else 0] + r3;
    var r1 := PutUvarint(IndexOf(table, e.agg.model)) + r2;
    assert EncMsg(e, table) + rest == PutFixed(e.id, 8) + r1;
    PutThenGetU64(e.id, r1);
    ModelRoundTrip(table, e.agg.model, r2);
    assert r2[1..] == r3;
    TokensRoundTrip(e.agg.tok, rest);
  }

  // ---------------------------------------------------------------- id-less events

  function Flags(e: NoIdEvent): Byte {
    (if e.uuid.Some? then 1 else 0) + if e.sidechain then 2 else 0
  }

  function EncUuid(u: Option<Hash>): seq<Byte> {
    if u.Some? then PutFixed(u.value, 8) else []
  }

  function EncNoId(e: NoIdEvent, table: seq<string>): (b: seq<Byte>)
    ensures |b| >= 6
  {
    [Flags(e)] + (EncUuid(e.uuid) + (PutUvarint(IndexOf(table, e.model)) + EncTokens(e.tok)))
  }

  function PUuid(b: seq<Byte>, has: bool): Parse<Option<Hash>> {
    if !has then Got(None, b)
    else
      var (u, rest) :- GetU64(b);
      Got(Some(u), rest)
  }

  function PNoId(b: seq<Byte>, models: seq<string>): Parse<NoIdEvent> {
    var (flag, r1) :- GetByte(b);
    var (uuid, r2) :- PUuid(r1, flag % 2 == 1);
    var (model, r3) :- PModel(r2, models);
    var (tok, r4) :- PTokens(r3);
    if flag > 3 then Fail else Got(NoIdEvent(uuid, model, tok, flag / 2 % 2 == 1), r4)
  }

  predicate NoIdFits(e: NoIdEvent, table: seq<string>) {
    (e.uuid.Some? ==> e.uuid.value < TWO64) && (e.model == "" || e.model in table) && TokFits(e.tok)
  }

  lemma FlagBits(e: NoIdEvent)
    ensures Flags(e) <= 3 && (Flags(e) % 2 == 1 <==> e.uuid.Some?) && (Flags(e) / 2 % 2 == 1 <==> e.sidechain)
  {
  }

  lemma UuidRoundTrip(u: Option<Hash>, rest: seq<Byte>)
    requires u.Some? ==> u.value < TWO64
    ensures PUuid(EncUuid(u) + rest, u.Some?) == Got(u, rest)
  {
    if u.Some? {
      PutThenGetU64(u.value, rest);
    } else {
      assert EncUuid(u) + rest == rest;
    }
  }

  lemma NoIdRoundTrip(e: NoIdEvent, table: seq<string>, rest: seq<Byte>)
    requires TableFits(table) && NoIdFits(e, table)
    ensures PNoId(EncNoId(e, table) + rest, [""] + table) == Got(e, rest)
  {
    var r3 := EncTokens(e.tok) + rest;
    var r2 := PutUvarint(IndexOf(table, e.model)) + r3;
    var r1 := EncUuid(e.uuid) + r2;
    assert EncNoId(e, table) + rest == [Flags(e)] + r1;
    assert GetByte([Flags(e)] + r1) == Got(Flags(e), r1);
    FlagBits(e);
    UuidRoundTrip(e.uuid, r2);
    ModelRoundTrip(table, e.model, r3);
    TokensRoundTrip(e.tok, rest);
  }

  // ---------------------------------------------------------------- summaries

  function Names(s: FileSummary): seq<string> {
    Mapped(s.msgs, (e: MsgEntry) => e.agg.model) + Mapped(s.noId, (e: NoIdEvent) => e.model)
  }

  function TableOf(s: FileSummary): seq<string> {
    ModelTable(Names(s))
  }

  /** The fields before the model table. */
  datatype Header = Header(id: string, first: Time, last: Time, cwd: string, branch: string, model: string)

  function HeaderOf(s: FileSummary): Header {
    Header(s.id, s.first, s.last, s.cwd, s.branch, s.model)
  }

  function EncHeader(h: Header): seq<Byte> {
    EncStr(h.id) + (EncTime(h.first) + (EncTime(h.last) + (EncStr(h.cwd) + (EncStr(h.branch) + EncStr(h.model)))))
  }

  function PHeader(b: seq<Byte>): Parse<Header> {
    var (id, r1) :- PStr(b);
    var (first, r2) :- PTime(r1);
    var (last, r3) :- PTime(r2);
    var (cwd, r4) :- PStr(r3);
    var (branch, r5) :- PStr(r4);
    var (model, r6) :- PStr(r5);
    Got(Header(id, first, last, cwd, branch, model), r6)
  }

  predicate HeaderFits(h: Header) {
    && IsByteString(h.id) && IsByteString(h.cwd) && IsByteString(h.branch) && IsByteString(h.model)
    && IsInt64(h.first / NANOS) && IsInt64(h.last / NANOS)
  }

  lemma HeaderRoundTrip(h: Header, rest: seq<Byte>)
    requires HeaderFits(h)
    ensures PHeader(EncHeader(h) + rest) == Got(h, rest)
  {
    var r5 := EncStr(h.model) + rest;
    var r4 := EncStr(h.branch) + r5;
    var r3 := EncStr(h.cwd) + r4;
    var r2 := EncTime(h.last) + r3;
    var r1 := EncTime(h.first) + r2;
    assert EncHeader(h) + rest == EncStr(h.id) + r1;
    StrRoundTrip(h.id, r1);
    TimeRoundTrip(h.first, r2);
    TimeRoundTrip(h.last, r3);
    StrRoundTrip(h.cwd, r4);
    StrRoundTrip(h.branch, r5);
    StrRoundTrip(h.model, rest);
  }

  function EncHash(h: Hash): seq<Byte> { PutFixed(h, 8) }

  function EncHashes(hs: seq<Hash>): seq<Byte> { EncCounted(hs, EncHash) }

  function PHashes(b: seq<Byte>): Parse<seq<Hash>> { PCounted(b, 8, GetU64) }

  function EncTable(table: seq<string>): seq<Byte> { EncCounted(table, EncStr) }

  function PTable(b: seq<Byte>): Parse<seq<string>> { PCounted(b, 1, PStr) }

  function MsgEncoder(table: seq<string>): MsgEntry -> seq<Byte> { e => EncMsg(e, table) }
  function MsgParser(models: seq<string>): seq<Byte> -> Parse<MsgEntry> { b => PMsg(b, models) }
  function NoIdEncoder(table: seq<string>): NoIdEvent -> seq<Byte> { e => EncNoId(e, table) }
  function NoIdParser(models: seq<string>): seq<Byte> -> Parse<NoIdEvent> { b => PNoId(b, models) }

  function EncMsgs(es: seq<MsgEntry>, table: seq<string>): seq<Byte> {
    EncCounted(es, MsgEncoder(table))
  }

  function PMsgs(b: seq<Byte>, models: seq<string>): Parse<seq<MsgEntry>> {
    PCounted(b, 14, MsgParser(models))
  }

  function EncNoIds(es: seq<NoIdEvent>, table: seq<string>): seq<Byte> {
    EncCounted(es, NoIdEncoder(table))
  }

  function PNoIds(b: seq<Byte>, models: seq<string>): Parse<seq<NoIdEvent>> {
    PCounted(b, 6, NoIdParser(models))
  }

  function Same<T>(x: T): T { x }
  predicate Always<T>(x: T) { true }

  lemma Identity<T>(xs: seq<T>)
    ensures Mapped(xs, Same<T>) == xs
  {
    assert forall k :: 0 <= k < |xs| ==> Mapped(xs, Same<T>)[k] == Same(xs[k]);
  }

  lemma HashesRoundTrip(hs: seq<Hash>, rest: seq<Byte>)
    requires |hs| < TWO63 && forall h :: h in hs ==> h < TWO64
    ensures PHashes(EncHashes(hs) + rest) == Got(hs, rest)
  {
    forall h: Hash | h in hs ensures RoundTrips<Hash, Hash>(h, EncHash, GetU64, Same<Hash>, Always<Hash>) {
      forall r ensures GetU64(EncHash(h) + r) == Got(h, r) { PutThenGetU64(h, r); }
    }
    CountedRoundTrip<Hash, Hash>(hs, EncHash, 8, GetU64, Same<Hash>, Always<Hash>, rest);
    Identity(hs);
  }

  lemma TableRoundTrip(table: seq<string>, rest: seq<Byte>)
    requires |table| < TWO63 && forall m :: m in table ==> IsByteString(m)
    ensures PTable(EncTable(table) + rest) == Got(table, rest)
  {
    forall m | m in table ensures RoundTrips(m, EncStr, PStr, Same<string>, Always<string>) {
      forall r ensures PStr(EncStr(m) + r) == Got(m, r) { StrRoundTrip(m, r); }
    }
    CountedRoundTrip(table, EncStr, 1, PStr, Same<string>, Always<string>, rest);
    Identity(table);
  }

  lemma MsgsRoundTrip(es: seq<MsgEntry>, table: seq<string>, rest: seq<Byte>)
    requires TableFits(table) && |es| < TWO63 && forall e :: e in es ==> MsgFits(e, table)
    ensures PMsgs(EncMsgs(es, table) + rest, [""] + table) == Got(es, rest)
  {
    var enc, p := MsgEncoder(table), MsgParser([""] + table);
    forall e | e in es ensures RoundTrips(e, enc, p, Same<MsgEntry>, Always<MsgEntry>) {
      forall r ensures p(enc(e) + r) == Got(e, r) { MsgRoundTrip(e, table, r); }
    }
    CountedRoundTrip(es, enc, 14, p, Same<MsgEntry>, Always<MsgEntry>, rest);
    Identity(es);
  }

  lemma NoIdsRoundTrip(es: seq<NoIdEvent>, table: seq<string>, rest: seq<Byte>)
    requires TableFits(table) && |es| < TWO63 && forall e :: e in es ==> NoIdFits(e, table)
    ensures PNoIds(EncNoIds(es, table) + rest, [""] + table) == Got(es, rest)
  {
    var enc, p := NoIdEncoder(table), NoIdParser([""] + table);
    forall e | e in es ensures RoundTrips(e, enc, p, Same<NoIdEvent>, Always<NoIdEvent>) {
      forall r ensures p(enc(e) + r) == Got(e, r) { NoIdRoundTrip(e, table, r); }
    }
    CountedRoundTrip(es, enc, 6, p, Same<NoIdEvent>, Always<NoIdEvent>, rest);
    Identity(es);
  }

  /** The fields after the model table. */
  datatype Lists = Lists(uuids: seq<Hash>, userUuids: seq<Hash>, userNoUuid: nat, msgs: seq<MsgEntry>,
                         noId: seq<NoIdEvent>)

  function ListsOf(s: FileSummary): Lists {
    Lists(s.uuids, s.userUuids, s.userNoUuid, s.msgs, s.noId)
  }

  function EncLists(l: Lists, table: seq<string>): seq<Byte> {
    EncHashes(l.uuids) + (EncHashes(l.userUuids)
      + (PutUvarint(l.userNoUuid) + (EncMsgs(l.msgs, table) + EncNoIds(l.noId, table))))
  }

  function PLists(b: seq<Byte>, models: seq<string>): Parse<Lists> {
    var (uuids, r3) :- PHashes(b);
    var (userUuids, r4) :- PHashes(r3);
    var (userNoUuid, r5) :- GetUvarint(r4);
    var (msgs, r6) :- PMsgs(r5, models);
    var (noId, r7) :- PNoIds(r6, models);
    if userNoUuid > MAX_INT32 then Fail else Got(Lists(uuids, userUuids, userNoUuid, msgs, noId), r7)
  }

  function EncSummary(s: FileSummary): seq<Byte> {
    EncHeader(HeaderOf(s)) + (EncTable(TableOf(s)) + EncLists(ListsOf(s), TableOf(s)))
  }

  function PSummary(b: seq<Byte>): Parse<FileSummary> {
    var (h, r1) :- PHeader(b);
    var (table, r2) :- PTable(r1);
    var (l, r3) :- PLists(r2, [""] + table);
    Got(SummaryOf(h, l), r3)
  }

  function SummaryOf(h: Header, l: Lists): FileSummary {
    FileSummary("", h.id, h.first, h.last, h.cwd, h.branch, h.model, l.uuids, l.userUuids, l.userNoUuid, l.msgs, l.noId)
  }

  predicate HashesFit(hs: seq<Hash>) {
    |hs| < TWO63 && forall h :: h in hs ==> h < TWO64
  }

  /** Every number has the width the program gives it, and strings are bytes. */
  predicate SummaryFits(s: FileSummary) {
    && HeaderFits(HeaderOf(s)) && HashesFit(s.uuids) && HashesFit(s.userUuids) && s.userNoUuid < TWO63
    && |s.msgs| + |s.noId| < TWO63
    && (forall e :: e in s.msgs ==> e.id < TWO64 && IsByteString(e.agg.model) && TokFits(e.agg.tok))
    && (forall e :: e in s.noId ==> (e.uuid.Some? ==> e.uuid.value < TWO64) && IsByteString(e.model) && TokFits(e.tok))
  }

  lemma ModelsAreListed(s: FileSummary)
    requires SummaryFits(s)
    ensures TableFits(TableOf(s)) && forall m :: m in TableOf(s) ==> IsByteString(m)
    ensures forall e :: e in s.msgs ==> MsgFits(e, TableOf(s))
    ensures forall e :: e in s.noId ==> NoIdFits(e, TableOf(s))
  {
    var a, b, names := Mapped(s.msgs, (e: MsgEntry) => e.agg.model), Mapped(s.noId, (e: NoIdEvent) => e.model),
      Names(s);
    TableHas(names);
    forall e | e in s.msgs ensures e.agg.model in names {
      var k :| 0 <= k < |s.msgs| && s.msgs[k] == e;
      assert a[k] == e.agg.model && names[k] == a[k];
    }
    forall e | e in s.noId ensures e.model in names {
      var k :| 0 <= k < |s.noId| && s.noId[k] == e;
      assert b[k] == e.model && names[|a| + k] == b[k];
    }
    forall m | m in names ensures IsByteString(m) {
      var k :| 0 <= k < |names| && names[k] == m;
      if k < |a| { assert s.msgs[k] in s.msgs; } else { assert s.noId[k - |a|] in s.noId; }
    }
  }

  /** What the cache gives back: everything but the path, which the caller fills in. */
  function Stored(s: FileSummary): FileSummary {
    s.(path := "")
  }

  lemma ListsRoundTrip(l: Lists, table: seq<string>, rest: seq<Byte>)
    requires HashesFit(l.uuids) && HashesFit(l.userUuids) && l.userNoUuid < TWO63 && TableFits(table)
    requires |l.msgs| < TWO63 && |l.noId| < TWO63
    requires (forall e :: e in l.msgs ==> MsgFits(e, table)) && forall e :: e in l.noId ==> NoIdFits(e, table)
    ensures PLists(EncLists(l, table) + rest, [""] + table) == if l.userNoUuid <= MAX_INT32 then Got(l, rest) else Fail
  {
    var r6 := EncNoIds(l.noId, table) + rest;
    var r5 := EncMsgs(l.msgs, table) + r6;
    var r4 := PutUvarint(l.userNoUuid) + r5;
    var r3 := EncHashes(l.userUuids) + r4;
    assert EncLists(l, table) + rest == EncHashes(l.uuids) + r3;
    HashesRoundTrip(l.uuids, r3);
    HashesRoundTrip(l.userUuids, r4);
    PutThenGet(l.userNoUuid, r5);
    MsgsRoundTrip(l.msgs, table, r6);
    NoIdsRoundTrip(l.noId, table, rest);
  }

  /** A summary comes back exactly when its uuid-less user turns fit 31 bits; otherwise nothing does. */
  lemma SummaryRoundTrip(s: FileSummary, rest: seq<Byte>)
    requires SummaryFits(s)
    ensures PSummary(EncSummary(s) + rest) == if s.userNoUuid <= MAX_INT32 then Got(Stored(s), rest) else Fail
  {
    var table := TableOf(s);
    ModelsAreListed(s);
    var r2 := EncLists(ListsOf(s), table) + rest;
    var r1 := EncTable(table) + r2;
    assert EncSummary(s) + rest == EncHeader(HeaderOf(s)) + r1;
    HeaderRoundTrip(HeaderOf(s), r1);
    TableRoundTrip(table, r2);
    ListsRoundTrip(ListsOf(s), table, rest);
    SummaryParsed(EncSummary(s) + rest, HeaderOf(s), r1, table, r2);
  }

  lemma SummaryParsed(b: seq<Byte>, h: Header, r1: seq<Byte>, table: seq<string>, r2: seq<Byte>)
    requires PHeader(b) == Got(h, r1) && PTable(r1) == Got(table, r2)
    ensures var l := PLists(r2, [""] + table);
            PSummary(b) == if l.Got? then Got(SummaryOf(h, l.value), l.rest) else Fail
  {
  }

  // ---------------------------------------------------------------- entries

  function EncEntry(e: (string, Entry)): (b: seq<Byte>)
    ensures |b| >= 4
  {
    EncStr(e.0) + (PutVarint(e.1.size) + (PutVarint(e.1.mtimeNs) + EncSum(e.1.sum)))
  }

  function EncSum(sum: Option<FileSummary>): (b: seq<Byte>)
    ensures |b| >= 1
  {
    if sum.None? then [0] else [1] + EncSummary(sum.value)
  }

  function PSum(b: seq<Byte>): Parse<Option<FileSummary>> {
    var (flag, r1) :- GetByte(b);
    if flag == 0 then Got(None, r1)
    else if flag == 1 then
      var (s, r2) :- PSummary(r1);
      Got(Some(s), r2)
    else Fail
  }

  function PEntry(b: seq<Byte>): Parse<(string, Entry)> {
    var (rel, r1) :- PStr(b);
    var (size, r2) :- GetVarint(r1);
    var (mtimeNs, r3) :- GetVarint(r2);
    var (sum, r4) :- PSum(r3);
    Got((rel, Entry(size, mtimeNs, sum)), r4)
  }

  predicate EntryFits(e: (string, Entry)) {
    IsByteString(e.0) && IsInt64(e.1.size) && IsInt64(e.1.mtimeNs) && (e.1.sum.Some? ==> SummaryFits(e.1.sum.value))
  }

  function StoredSum(sum: Option<FileSummary>): Option<FileSummary> {
    if sum.Some? then Some(Stored(sum.value)) else None
  }

  function StoredEntry(e: (string, Entry)): (string, Entry) {
    (e.0, e.1.(sum := StoredSum(e.1.sum)))
  }

  /** The one limit the decoder sets and the encoder does not. */
  predicate ComesBack(e: (string, Entry)) {
    e.1.sum.Some? ==> e.1.sum.value.userNoUuid <= MAX_INT32
  }

  lemma SumRoundTrip(sum: Option<FileSummary>, rest: seq<Byte>)
    requires sum.Some? ==> SummaryFits(sum.value)
    ensures PSum(EncSum(sum) + rest)
         == if sum.Some? ==> sum.value.userNoUuid <= MAX_INT32 then Got(StoredSum(sum), rest) else Fail
  {
    if sum.None? {
      assert ([0] + rest)[1..] == rest;
    } else {
      assert EncSum(sum) + rest == [1] + (EncSummary(sum.value) + rest);
      assert (EncSum(sum) + rest)[1..] == EncSummary(sum.value) + rest;
      SummaryRoundTrip(sum.value, rest);
    }
  }

  lemma EntryRoundTrip(e: (string, Entry), rest: seq<Byte>)
    requires EntryFits(e)
    ensures PEntry(EncEntry(e) + rest) == if ComesBack(e) then Got(StoredEntry(e), rest) else Fail
  {
    var r3 := EncSum(e.1.sum) + rest;
    var r2 := PutVarint(e.1.mtimeNs) + r3;
    var r1 := PutVarint(e.1.size) + r2;
    assert EncEntry(e) + rest == EncStr(e.0) + r1;
    StrRoundTrip(e.0, r1);
    PutThenGetSigned(e.1.size, r2);
    PutThenGetSigned(e.1.mtimeNs, r3);
    SumRoundTrip(e.1.sum, rest);
  }

  lemma EntriesRoundTrip(es: seq<(string, Entry)>, rest: seq<Byte>)
    requires |es| < TWO63 && forall e :: e in es ==> EntryFits(e)
    ensures PCounted(EncCounted(es, EncEntry) + rest, 4, PEntry)
         == if forall e :: e in es ==> ComesBack(e) then Got(Mapped(es, StoredEntry), rest) else Fail
  {
    forall e | e in es ensures RoundTrips(e, EncEntry, PEntry, StoredEntry, ComesBack) {
      forall r ensures PEntry(EncEntry(e) + r) == if ComesBack(e) then Got(StoredEntry(e), r) else Fail {
        EntryRoundTrip(e, r);
      }
    }
    CountedRoundTrip(es, EncEntry, 4, PEntry, StoredEntry, ComesBack, rest);
  }
}

/** The encoder of the cache file: bytes gather in a buffer that is flushed to a writer and into a running checksum
    wherever it has grown past a threshold. */
module CacheEncoder {
  import opened Wrappers
  import opened Tokens
  import opened SessionTypes
  import opened SliceSort
  import opened Varints
  import opened CacheFormat

  type Word32 = x: int | 0 <= x < 0x1_0000_0000

  /** The checksum of a byte sequence, one step a byte. */
  function Checksum(step: (Word32, Byte) -> Word32, crc: Word32, b: seq<Byte>): Word32 {
    if b == [] then crc else step(Checksum(step, crc, b[..|b| - 1]), b[|b| - 1])
  }

  /** Updating twice is updating once with both. */
  lemma {:induction false} ChecksumOfBoth(step: (Word32, Byte) -> Word32, crc: Word32, a: seq<Byte>, b: seq<Byte>)
    ensures Checksum(step, crc, a + b) == Checksum(step, Checksum(step, crc, a), b)
  {
    if b == [] {
      assert a + b == a;
    } else {
      assert (a + b)[..|a + b| - 1] == a + b[..|b| - 1];
      ChecksumOfBoth(step, crc, a, b[..|b| - 1]);
    }
  }

  const MAGIC: string := "claude-transcript sessions cache\n"
  const VERSION: nat := 1

  function Body(version: nat, projects: string, es: seq<(string, Entry)>): seq<Byte> {
    BytesOf(MAGIC) + (PutUvarint(version) + (EncStr(projects) + EncCounted(es, EncEntry)))
  }

  /** The whole file: the body and the checksum of the body. */
  function FileBytes(step: (Word32, Byte) -> Word32, version: nat, projects: string,
                     es: seq<(string, Entry)>): seq<Byte> {
    var body := Body(version, projects, es);
    body + PutFixed(Checksum(step, 0, body), 4)
  }

  /** A writer that takes `room` more bytes, or any number; it fails having taken what fitted. */
  class Writer {
    var out: seq<Byte>
    var room: Option<nat>

    constructor (room: Option<nat>)
      ensures out == [] && this.room == room
    {
      out, this.room := [], room;
    }

    method Write(p: seq<Byte>) returns (m: nat, ok: bool)
      modifies this
      ensures m <= |p| && out == old(out) + p[..m] && (ok <==> m == |p|)
      ensures old(room).None? ==> ok && room.None?
    {
      if room.None? || |p| <= room.value {
        out := out + p;
        room := if room.None? then None else Some(room.value - |p|);
        assert p[..|p|] == p;
        return |p|, true;
      }
      m := room.value;
      out := out + p[..m];
      room := Some(0);
      return m, false;
    }
  }

  class Encoder {
    const w: Writer
    const step: (Word32, Byte) -> Word32
    /** How full the buffer gets before it is flushed between fields. */
    const threshold: nat
    var buf: seq<Byte>
    var crc: Word32
    var n: nat
    var failed: bool
    /** What the writer held before, what it was given since, and everything appended so far. */
    ghost const start: seq<Byte>
    ghost var sent: seq<Byte>
    ghost var content: seq<Byte>

    ghost predicate Valid()
      reads this, w
    {
      && w.out == start + sent && n == |sent|
      && (!failed ==> sent + buf == content && crc == Checksum(step, 0, sent))
      && (failed ==> sent <= content)
    }

    constructor (w: Writer, step: (Word32, Byte) -> Word32, threshold: nat)
      ensures Valid() && content == [] && this.w == w && this.step == step && start == w.out && !failed
    {
      this.w, this.step, this.threshold := w, step, threshold;
      buf, crc, n, failed := [], 0, 0, false;
      start, sent, content := w.out, [], [];
    }

    method Flush()
      requires Valid()
      modifies this, w
      ensures Valid() && content == old(content)
      ensures old(failed) ==> failed
      ensures old(w.room).None? ==> failed == old(failed) && w.room.None?
      ensures !failed ==> buf == []
    {
      if failed || buf == [] {
        return;
      }
      ChecksumOfBoth(step, 0, sent, buf);
      crc := Checksum(step, crc, buf);
      var m, ok := w.Write(buf);
      n := n + m;
      failed := !ok;
      assert start + sent + buf[..m] == start + (sent + buf[..m]);
      assert ok ==> buf[..m] == buf;
      sent := sent + buf[..m];
      buf := [];
    }

    method MaybeFlush()
      requires Valid()
      modifies this, w
      ensures Valid() && content == old(content)
      ensures old(failed) ==> failed
      ensures old(w.room).None? ==> failed == old(failed) && w.room.None?
    {
      if |buf| >= threshold {
        Flush();
      }
    }

    method Append(b: seq<Byte>)
      requires Valid()
      modifies this`buf, this`content
      ensures Valid() && content == old(content) + b
    {
      assert sent + (buf + b) == sent + buf + b;
      buf := buf + b;
      content := content + b;
    }

    method Uvarint(v: nat)
      requires Valid()
      modifies this`buf, this`content
      ensures Valid() && content == old(content) + PutUvarint(v)
    {
      Append(PutUvarint(v));
    }

    method Varint(v: int)
      requires Valid()
      modifies this`buf, this`content
      ensures Valid() && content == old(content) + PutVarint(v)
    {
      Append(PutVarint(v));
    }

    method U64(v: nat)
      requires Valid()
      modifies this`buf, this`content
      ensures Valid() && content == old(content) + PutFixed(v, 8)
    {
      Append(PutFixed(v, 8));
    }

    method Str(s: string)
      requires Valid()
      modifies this`buf, this`content
      ensures Valid() && content == old(content) + EncStr(s)
    {
      Uvarint(|s|);
      Append(BytesOf(s));
      assert old(content) + PutUvarint(|s|) + BytesOf(s) == old(content) + EncStr(s);
    }

    method WriteTime(t: Time)
      requires Valid()
      modifies this`buf, this`content
      ensures Valid() && content == old(content) + EncTime(t)
    {
      Varint(t / NANOS);
      Uvarint(t % NANOS);
      assert old(content) + PutVarint(t / NANOS) + PutUvarint(t % NANOS) == old(content) + EncTime(t);
    }

    method WriteTokens(t: Tok)
      requires Valid()
      modifies this`buf, this`content
      ensures Valid() && content == old(content) + EncTokens(t)
    {
      Varint(t.input);
      Varint(t.output);
      Varint(t.cacheRead);
      Varint(t.cacheWrite);
      assert old(content) + PutVarint(t.input) + PutVarint(t.output) + PutVarint(t.cacheRead) + PutVarint(t.cacheWrite)
          == old(content) + EncTokens(t);
    }

    method Hashes(hs: seq<Hash>)
      requires Valid()
      modifies this, w
      ensures Valid() && content == old(content) + EncHashes(hs)
      ensures old(failed) ==> failed
      ensures old(w.room).None? ==> failed == old(failed) && w.room.None?
    {
      Uvarint(|hs|);
      ghost var before := content;
      for k := 0 to |hs|
        invariant Valid() && failed == old(failed) && w.room == old(w.room)
        invariant content == before + EncList(hs[..k], EncHash)
      {
        EncListNext(hs, k, EncHash, before);
        U64(hs[k]);
      }
      EncListDone(hs, EncHash, old(content));
      MaybeFlush();
    }

    method Header(s: FileSummary)
      requires Valid()
      modifies this`buf, this`content
      ensures Valid() && content == old(content) + EncHeader(HeaderOf(s))
    {
      Str(s.id);
      WriteTime(s.first);
      WriteTime(s.last);
      Str(s.cwd);
      Str(s.branch);
      Str(s.model);
      Join6(old(content), EncStr(s.id), EncTime(s.first), EncTime(s.last), EncStr(s.cwd), EncStr(s.branch),
        EncStr(s.model));
    }

    method Table(models: seq<string>)
      requires Valid()
      modifies this`buf, this`content
      ensures Valid() && content == old(content) + EncTable(models)
    {
      Uvarint(|models|);
      ghost var before := content;
      for k := 0 to |models|
        invariant Valid() && content == before + EncList(models[..k], EncStr)
      {
        EncListNext(models, k, EncStr, before);
        Str(models[k]);
      }
      EncListDone(models, EncStr, old(content));
    }

    method Msg(e: MsgEntry, index: map<string, nat>, ghost table: seq<string>)
      requires Valid() && IsIndex(index, table) && e.agg.model in index
      modifies this`buf, this`content
      ensures Valid() && content == old(content) + EncMsg(e, table)
    {
      U64(e.id);
      Uvarint(index[e.agg.model]);
      Append([if e.agg.nonSide then 1 else 0]);
      WriteTokens(e.agg.tok);
      Join4(old(content), PutFixed(e.id, 8), PutUvarint(IndexOf(table, e.agg.model)),
        [if e.agg.nonSide then 1 else 0], EncTokens(e.agg.tok));
    }

    method Msgs(es: seq<MsgEntry>, index: map<string, nat>, ghost table: seq<string>)
      requires Valid() && IsIndex(index, table) && forall e :: e in es ==> e.agg.model in index
      modifies this`buf, this`content
      ensures Valid() && content == old(content) + EncMsgs(es, table)
    {
      Uvarint(|es|);
      ghost var before := content;
      for k := 0 to |es|
        invariant Valid() && content == before + EncList(es[..k], MsgEncoder(table))
      {
        EncListNext(es, k, MsgEncoder(table), before);
        Msg(es[k], index, table);
      }
      EncListDone(es, MsgEncoder(table), old(content));
    }

    method NoId(e: NoIdEvent, index: map<string, nat>, ghost table: seq<string>)
      requires Valid() && IsIndex(index, table) && e.model in index
      modifies this`buf, this`content
      ensures Valid() && content == old(content) + EncNoId(e, table)
    {
      var flag := 0;
      if e.uuid.Some? {
        flag := 1;
      }
      if e.sidechain {
        flag := flag + 2;
      }
      Append([flag]);
      if e.uuid.Some? {
        U64(e.uuid.value);
      }
      assert content == old(content) + [flag] + EncUuid(e.uuid);
      Uvarint(index[e.model]);
      WriteTokens(e.tok);
      Join4(old(content), [Flags(e)], EncUuid(e.uuid), PutUvarint(IndexOf(table, e.model)), EncTokens(e.tok));
    }

    method NoIds(es: seq<NoIdEvent>, index: map<string, nat>, ghost table: seq<string>)
      requires Valid() && IsIndex(index, table) && forall e :: e in es ==> e.model in index
      modifies this`buf, this`content
      ensures Valid() && content == old(content) + EncNoIds(es, table)
    {
      Uvarint(|es|);
      ghost var before := content;
      for k := 0 to |es|
        invariant Valid() && content == before + EncList(es[..k], NoIdEncoder(table))
      {
        EncListNext(es, k, NoIdEncoder(table), before);
        NoId(es[k], index, table);
      }
      EncListDone(es, NoIdEncoder(table), old(content));
    }

    method Summary(s: FileSummary)
      requires Valid()
      modifies this, w
      ensures Valid() && content == old(content) + EncSummary(s)
      ensures old(failed) ==> failed
      ensures old(w.room).None? ==> failed == old(failed) && w.room.None?
    {
      Header(s);
      var index, models := IndexModels(s);
      Table(models);
      Hashes(s.uuids);
      Hashes(s.userUuids);
      Uvarint(s.userNoUuid);
      Msgs(s.msgs, index, models);
      MaybeFlush();
      NoIds(s.noId, index, models);
      Join7(old(content), EncHeader(HeaderOf(s)), EncTable(models), EncHashes(s.uuids), EncHashes(s.userUuids),
            PutUvarint(s.userNoUuid), EncMsgs(s.msgs, models), EncNoIds(s.noId, models));
    }

    method Sum(sum: Option<FileSummary>)
      requires Valid()
      modifies this, w
      ensures Valid() && content == old(content) + EncSum(sum)
      ensures old(failed) ==> failed
      ensures old(w.room).None? ==> failed == old(failed) && w.room.None?
    {
      if sum.None? {
        Append([0]);
      } else {
        Append([1]);
        Summary(sum.value);
        Join2(old(content), [1], EncSummary(sum.value));
      }
    }

    method WriteEntry(e: (string, Entry))
      requires Valid()
      modifies this, w
      ensures Valid() && content == old(content) + EncEntry(e)
      ensures old(failed) ==> failed
      ensures old(w.room).None? ==> failed == old(failed) && w.room.None?
    {
      Str(e.0);
      Varint(e.1.size);
      Varint(e.1.mtimeNs);
      Sum(e.1.sum);
      Join4(old(content), EncStr(e.0), PutVarint(e.1.size), PutVarint(e.1.mtimeNs), EncSum(e.1.sum));
    }

    /** What a finished file holds after what the writer held before. */
    ghost function Whole(): seq<Byte>
      reads this
    {
      start + (content + PutFixed(Checksum(step, 0, content), 4))
    }

    method WriteHead(version: nat, projects: string, n: nat)
      requires Valid() && content == []
      modifies this, w
      ensures Valid() && content == [] + BytesOf(MAGIC) + PutUvarint(version) + EncStr(projects) + PutUvarint(n)
      ensures old(w.room).None? ==> failed == old(failed) && w.room.None?
    {
      Append(BytesOf(MAGIC));
      Uvarint(version);
      Str(projects);
      Uvarint(n);
    }

    /** The header of the file, the entries in order. */
    method WriteAll(version: nat, projects: string, es: seq<(string, Entry)>)
      requires Valid() && content == []
      modifies this, w
      ensures Valid() && content == Body(version, projects, es)
      ensures old(w.room).None? ==> failed == old(failed) && w.room.None?
    {
      WriteHead(version, projects, |es|);
      ghost var before := content;
      for k := 0 to |es|
        invariant Valid() && content == before + EncList(es[..k], EncEntry)
        invariant old(w.room).None? ==> failed == old(failed) && w.room.None?
      {
        EncListNext(es, k, EncEntry, before);
        WriteEntry(es[k]);
        MaybeFlush();
      }
      BodyIs(version, projects, es);
    }

    /** Writes the checksum of everything before it; reports the number of bytes written. */
    method Finish() returns (total: nat, ok: bool)
      requires Valid()
      modifies this, w
      ensures start <= w.out <= Whole() && content == old(content)
      ensures ok ==> w.out == Whole() && total == |content| + 4
      ensures old(w.room).None? && !old(failed) ==> ok
    {
      Flush();
      if failed {
        return 0, false;
      }
      assert sent + buf == sent;
      var trailer := PutFixed(crc, 4);
      var m;
      m, ok := w.Write(trailer);
      total := n + m;
      assert start + sent + trailer[..m] == start + (sent + trailer[..m]);
      assert ok ==> trailer[..m] == trailer;
    }
  }

  // ---------------------------------------------------------------- bytes end to end

  lemma Join2(p: seq<Byte>, a: seq<Byte>, b: seq<Byte>)
    ensures p + a + b == p + (a + b)
  {
  }

  lemma Join4(p: seq<Byte>, a: seq<Byte>, b: seq<Byte>, c: seq<Byte>, d: seq<Byte>)
    ensures p + a + b + c + d == p + (a + (b + (c + d)))
  {
  }

  lemma BodyIs(version: nat, projects: string, es: seq<(string, Entry)>)
    ensures [] + BytesOf(MAGIC) + PutUvarint(version) + EncStr(projects) + PutUvarint(|es|)
        + EncList(es[..|es|], EncEntry)
         == Body(version, projects, es)
  {
    EncListDone(es, EncEntry, [] + BytesOf(MAGIC) + PutUvarint(version) + EncStr(projects));
    Join4([], BytesOf(MAGIC), PutUvarint(version), EncStr(projects), EncCounted(es, EncEntry));
  }

  lemma Join6(p: seq<Byte>, a: seq<Byte>, b: seq<Byte>, c: seq<Byte>, d: seq<Byte>, e: seq<Byte>, f: seq<Byte>)
    ensures p + a + b + c + d + e + f == p + (a + (b + (c + (d + (e + f)))))
  {
    Join4(p + a + b, c, d, e, f);
    Join4(p, a, b, c + (d + (e + f)), []);
  }

  lemma Join7(p: seq<Byte>, a: seq<Byte>, b: seq<Byte>, c: seq<Byte>, d: seq<Byte>, e: seq<Byte>, f: seq<Byte>,
              g: seq<Byte>)
    ensures p + a + b + c + d + e + f + g == p + (a + (b + (c + (d + (e + (f + g))))))
  {
    Join6(p, a, b, c, d, e, f);
    var l := c + (d + (e + f));
    assert p + (a + (b + l)) + g == p + (a + (b + (l + g)));
    assert l + g == c + (d + (e + (f + g)));
  }

  lemma EncListNext<T>(xs: seq<T>, k: nat, enc: T -> seq<Byte>, before: seq<Byte>)
    requires k < |xs|
    ensures before + EncList(xs[..k + 1], enc) == before + EncList(xs[..k], enc) + enc(xs[k])
  {
    assert xs[..k + 1] == xs[..k] + [xs[k]];
    EncListAppend(xs[..k], xs[k], enc);
  }

  lemma EncListDone<T>(xs: seq<T>, enc: T -> seq<Byte>, before: seq<Byte>)
    ensures before + PutUvarint(|xs|) + EncList(xs[..|xs|], enc) == before + EncCounted(xs, enc)
  {
    assert xs[..|xs|] == xs;
  }

  // ---------------------------------------------------------------- the model index

  ghost predicate IsIndex(index: map<string, nat>, table: seq<string>) {
    && (forall m :: m in index <==> m == "" || m in table)
    && forall m :: m in index ==> index[m] == IndexOf(table, m)
  }

  lemma IndexNext(index: map<string, nat>, table: seq<string>, m: string)
    requires IsIndex(index, table) && m !in index
    ensures IsIndex(index[m := |table| + 1], table + [m])
  {
    assert (table + [m])[..|table + [m]| - 1] == table;
  }

  /** Adds the names to the local model table. */
  method AddModels(names: seq<string>, index0: map<string, nat>, models0: seq<string>, ghost before: seq<string>)
    returns (index: map<string, nat>, models: seq<string>)
    requires IsIndex(index0, models0) && models0 == ModelTable(before)
    ensures IsIndex(index, models) && models == ModelTable(before + names)
  {
    index, models := index0, models0;
    assert before + names[..0] == before;
    for k := 0 to |names|
      invariant IsIndex(index, models) && models == ModelTable(before + names[..k])
    {
      ghost var longer := before + names[..k + 1];
      assert longer[..|longer| - 1] == before + names[..k];
      if names[k] !in index {
        IndexNext(index, models, names[k]);
        index := index[names[k] := |models| + 1];
        models := models + [names[k]];
      }
    }
    assert names[..|names|] == names;
  }

  method IndexModels(s: FileSummary) returns (index: map<string, nat>, models: seq<string>)
    ensures IsIndex(index, models) && models == TableOf(s)
    ensures forall e :: e in s.msgs ==> e.agg.model in index
    ensures forall e :: e in s.noId ==> e.model in index
  {
    index, models := map["" := 0], [];
    index, models := AddModels(Mapped(s.msgs, (e: MsgEntry) => e.agg.model), index, models, []);
    ghost var first := Mapped(s.msgs, (e: MsgEntry) => e.agg.model);
    assert [] + first == first;
    index, models := AddModels(Mapped(s.noId, (e: NoIdEvent) => e.model), index, models, first);
    NamesAreIndexed(s, models);
  }

  lemma NamesAreIndexed(s: FileSummary, table: seq<string>)
    requires table == TableOf(s)
    ensures forall e :: e in s.msgs ==> e.agg.model == "" || e.agg.model in table
    ensures forall e :: e in s.noId ==> e.model == "" || e.model in table
  {
    var a, b, names := Mapped(s.msgs, (e: MsgEntry) => e.agg.model), Mapped(s.noId, (e: NoIdEvent) => e.model),
      Names(s);
    TableHas(names);
    forall e | e in s.msgs ensures e.agg.model in names {
      var k :| 0 <= k < |s.msgs| && s.msgs[k] == e;
      assert a[k] == e.agg.model && names[k] == a[k];
    }
    forall e | e in s.noId ensures e.model in names {
      var k :| 0 <= k < |s.noId| && s.noId[k] == e;
      assert b[k] == e.model && names[|a| + k] == b[k];
    }
  }

  // ---------------------------------------------------------------- the file

  /** The entries in the order of their names. */
  ghost predicate InOrder(entries: map<string, Entry>, es: seq<(string, Entry)>) {
    && (forall e :: e in es <==> e.0 in entries && entries[e.0] == e.1)
    && (forall i, j :: 0 <= i < j < |es| ==> Less(es[i].0, es[j].0))
  }

  /** The keys of a map, which come in any order. */
  method Keys(entries: map<string, Entry>) returns (rels: seq<string>)
    ensures multiset(rels) == multiset(entries.Keys)
  {
    rels := [];
    var todo := entries.Keys;
    ghost var done: set<string> := {};
    while todo != {}
      invariant done !! todo && done + todo == entries.Keys && multiset(rels) == multiset(done)
      decreases todo
    {
      var r :| r in todo;
      assert multiset(done + {r}) == multiset(done) + multiset{r};
      rels := rels + [r];
      done, todo := done + {r}, todo - {r};
    }
    assert done == entries.Keys;
  }

  method SortedEntries(entries: map<string, Entry>) returns (es: seq<(string, Entry)>)
    ensures InOrder(entries, es)
  {
    var rels := Keys(entries);
    LessIsAStrictOrder();
    var sorted := Sort(rels, Less);
    NoRepeats(sorted, entries.Keys);
    es := seq(|sorted|, k requires 0 <= k < |sorted| => (sorted[k], entries[sorted[k]]));
    PairedInOrder(entries, sorted, es);
  }

  lemma PairedInOrder(entries: map<string, Entry>, sorted: seq<string>, es: seq<(string, Entry)>)
    requires |es| == |sorted| && forall r :: r in sorted <==> r in entries
    requires forall k :: 0 <= k < |es| ==> sorted[k] in entries && es[k] == (sorted[k], entries[sorted[k]])
    requires forall i, j :: 0 <= i < j < |sorted| ==> Less(sorted[i], sorted[j])
    ensures InOrder(entries, es)
  {
    forall e: (string, Entry) | e.0 in entries && entries[e.0] == e.1 ensures e in es {
      var k :| 0 <= k < |sorted| && sorted[k] == e.0;
      assert es[k] == e;
    }
  }

  lemma NoRepeats(s: seq<string>, keys: set<string>)
    requires Sorted(s, Less) && multiset(s) == multiset(keys)
    ensures forall i, j :: 0 <= i < j < |s| ==> Less(s[i], s[j])
    ensures forall r :: r in s <==> r in keys
  {
    forall r ensures r in s <==> r in keys {
      assert r in multiset(s) <==> r in s;
      assert r in multiset(keys) <==> r in keys;
    }
    forall i, j | 0 <= i < j < |s| ensures Less(s[i], s[j]) {
      LessIsTotal(s[i], s[j]);
      if s[i] == s[j] { TwoOf(s, i, j); }
    }
  }

  /** A map has one sequence of entries in order, so the file does not depend on how the map yields its keys. */
  lemma {:induction false} InOrderIsUnique(entries: map<string, Entry>, a: seq<(string, Entry)>,
                                           b: seq<(string, Entry)>)
    requires InOrder(entries, a) && InOrder(entries, b)
    ensures a == b
  {
    AscendingNames(a, b);
  }

  lemma {:induction false} AscendingNames(a: seq<(string, Entry)>, b: seq<(string, Entry)>)
    requires forall e :: e in a <==> e in b
    requires forall i, j :: 0 <= i < j < |a| ==> Less(a[i].0, a[j].0)
    requires forall i, j :: 0 <= i < j < |b| ==> Less(b[i].0, b[j].0)
    ensures a == b
  {
    LessIsAStrictOrder();
    if a == [] {
      FirstIsIn(b);
    } else {
      assert a[0] in a && a[0] in b && b[0] in b && b[0] in a;
      assert a[0] == b[0];
      assert a == [a[0]] + a[1..] && b == [b[0]] + b[1..];
      assert a[0] !in a[1..] && b[0] !in b[1..];
      forall e ensures e in a[1..] <==> e in b[1..] {
        assert e in a <==> e == a[0] || e in a[1..];
        assert e in b <==> e == b[0] || e in b[1..];
      }
      AscendingNames(a[1..], b[1..]);
    }
  }

  /** encodeCache: whatever the threshold and the order a map yields its keys in, the writer gets the file's bytes,
      or a prefix of them when it fails. */
  method Encode(w: Writer, step: (Word32, Byte) -> Word32, threshold: nat, version: nat, projects: string,
                entries: map<string, Entry>)
    returns (n: nat, ok: bool, ghost es: seq<(string, Entry)>)
    modifies w
    ensures InOrder(entries, es)
    ensures old(w.out) <= w.out <= old(w.out) + FileBytes(step, version, projects, es)
    ensures ok ==> w.out == old(w.out) + FileBytes(step, version, projects, es) && n == |FileBytes(step, version,
        projects, es)|
    ensures old(w.room).None? ==> ok
  {
    var sorted := SortedEntries(entries);
    es := sorted;
    var e := new Encoder(w, step, threshold);
    e.WriteAll(version, projects, sorted);
    n, ok := e.Finish();
  }
}

/** decodeCache, and the round trip of the whole file. */
module CacheFile {
  import opened Wrappers
  import opened SessionTypes
  import opened SliceSort
  import opened Varints
  import opened CacheFormat
  import opened CacheEncoder
  import opened CacheDecoder

  datatype Error = Corrupt | OtherVersion | OtherTree
  datatype Result = Ok(entries: map<string, Entry>) | Err(error: Error)

  predicate DistinctNames(es: seq<(string, Entry)>) {
    forall i, j :: 0 <= i < j < |es| ==> es[i].0 != es[j].0
  }

  function MapOf(es: seq<(string, Entry)>): map<string, Entry> {
    if es == [] then map[] else MapOf(es[..|es| - 1])[es[|es| - 1].0 := es[|es| - 1].1]
  }

  predicate Opens(step: (Word32, Byte) -> Word32, data: seq<Byte>) {
    && |data| >= |MAGIC| + 4 && data[..|MAGIC|] == BytesOf(MAGIC)
    && Checksum(step, 0, data[..|data| - 4]) == GetFixed(data[|data| - 4..])
  }

  /** What a file decodes to: the first thing wrong with it, or its entries when every byte of the body was used and
      no name comes twice. */
  function Decoded(step: (Word32, Byte) -> Word32, data: seq<Byte>, projects: string): Result {
    if !Opens(step, data) then Err(Corrupt)
    else
      var version := GetUvarint(data[..|data| - 4][|MAGIC|..]);
      if version.Fail? then Err(Corrupt)
      else if version.value != VERSION then Err(OtherVersion)
      else
        var tree := PStr(version.rest);
        if tree.Fail? then Err(Corrupt)
        else if tree.value != projects then Err(OtherTree)
        else EntriesIn(PCounted(tree.rest, 4, PEntry))
  }

  function EntriesIn(es: Parse<seq<(string, Entry)>>): Result {
    if es.Fail? || es.rest != [] || !DistinctNames(es.value) then Err(Corrupt) else Ok(MapOf(es.value))
  }

  // ---------------------------------------------------------------- decodeCache

  lemma {:induction false} MapOfHas(es: seq<(string, Entry)>, r: string)
    ensures r in MapOf(es) <==> exists k :: 0 <= k < |es| && es[k].0 == r
    ensures |MapOf(es)| <= |es|
  {
    if es != [] { MapOfHas(es[..|es| - 1], r); }
  }

  lemma MapOfNext(es: seq<(string, Entry)>, e: (string, Entry))
    requires DistinctNames(es) && e.0 !in MapOf(es)
    ensures DistinctNames(es + [e]) && MapOf(es + [e]) == MapOf(es)[e.0 := e.1]
  {
    MapOfHas(es, e.0);
    assert (es + [e])[..|es + [e]| - 1] == es;
  }

  /** A name that came twice is not made good by what follows. */
  lemma RepeatStays(es: seq<(string, Entry)>, e: (string, Entry), whole: Parse<seq<(string, Entry)>>,
                    tail: Parse<seq<(string, Entry)>>)
    requires e.0 in MapOf(es) && whole == Prepend(es + [e], tail)
    ensures EntriesIn(whole) == Err(Corrupt)
  {
    MapOfHas(es, e.0);
    var k :| 0 <= k < |es| && es[k].0 == e.0;
    assert (es + [e])[k].0 == (es + [e])[|es|].0;
    if whole.Got? {
      assert whole.value[k] == es[k] && whole.value[|es|] == e;
    }
  }

  /** The loop over the entries; it stops at the first that does not parse or repeats a name. */
  method Entries(d: Decoder, n: nat, ghost p: seq<Byte> -> Parse<(string, Entry)>)
      returns (m: map<string, Entry>, ok: bool)
    requires d.Valid() && !d.err && forall r {:trigger PEntry(r)} :: p(r) == PEntry(r)
    modifies d
    ensures d.Valid()
    ensures |m| <= n
    ensures !ok ==> EntriesIn(PList(n, old(d.Rest()), p)) == Err(Corrupt)
    ensures ok ==> !d.err && var whole := PList(n, old(d.Rest()), p);
                   whole.Got? && whole.rest == d.Rest() && DistinctNames(whole.value) && m == MapOf(whole.value)
  {
    m := map[];
    ghost var whole := PList(n, d.Rest(), p);
    ghost var es: seq<(string, Entry)> := [];
    LoopStart(whole);
    for k := 0 to n
      invariant d.Valid() && !d.err && |es| == k && Looped(whole, es, n - k, d.Rest(), false, p)
      invariant DistinctNames(es) && m == MapOf(es)
    {
      ghost var rest := d.Rest();
      var rel, ce := EntryBy(d, p);
      LoopNext(whole, es, n - k, rest, false, p, (rel, ce), d.Rest(), d.err);
      MapOfHas(es, rel);
      if d.err {
        return m, false;
      }
      if rel in m {
        RepeatStays(es, (rel, ce), whole, PList(n - k - 1, d.Rest(), p));
        return m, false;
      }
      MapOfNext(es, (rel, ce));
      m := m[rel := ce];
      es := es + [(rel, ce)];
    }
    LoopDone(whole, es, d.Rest(), false, p);
    MapOfHas(es, "");
    ok := true;
  }

  method EntryBy(d: Decoder, ghost p: seq<Byte> -> Parse<(string, Entry)>) returns (rel: string, ce: Entry)
    requires d.Valid() && forall r {:trigger PEntry(r)} :: p(r) == PEntry(r)
    modifies d
    ensures d.Valid() && d.Read(old(d.Rest()), old(d.err), p(old(d.Rest())), (rel, ce))
  {
    rel, ce := d.ReadEntry();
  }

  /** decodeCache: on any bytes it ends, with at most a quarter as many entries as bytes. */
  method Decode(step: (Word32, Byte) -> Word32, data: seq<Byte>, projects: string) returns (r: Result)
    ensures r == Decoded(step, data, projects)
    ensures r.Ok? ==> |r.entries| * 4 <= |data|
  {
    if |data| < |MAGIC| + 4 || data[..|MAGIC|] != BytesOf(MAGIC) {
      return Err(Corrupt);
    }
    var body := data[..|data| - 4];
    if Checksum(step, 0, body) != GetFixed(data[|data| - 4..]) {
      return Err(Corrupt);
    }
    var d := new Decoder(body, |MAGIC|);
    var v := d.Uvarint();
    if !d.err && v != VERSION {
      return Err(OtherVersion);
    }
    var p := d.Str();
    if !d.err && p != projects {
      return Err(OtherTree);
    }
    r := DecodeEntries(d);
    if d.err {
      return Err(Corrupt);
    }
  }

  /** The counted entries and the end of the body. */
  method DecodeEntries(d: Decoder) returns (r: Result)
    requires d.Valid()
    modifies d
    ensures old(d.err) ==> d.err
    ensures !old(d.err) ==> (if d.err then Err(Corrupt) else r) == EntriesIn(PCounted(old(d.Rest()), 4, PEntry))
    ensures r.Ok? ==> |r.entries| * 4 <= |d.b|
  {
    var n := d.Count(4);
    if d.err {
      return Err(Corrupt);
    }
    var m, ok := Entries(d, n, PEntry);
    if !ok {
      return Err(Corrupt);
    }
    if d.off != |d.b| {
      d.Fault();
      return Err(Corrupt);
    }
    return Ok(m);
  }

  // ---------------------------------------------------------------- the round trip

  predicate AllFit(es: seq<(string, Entry)>) {
    |es| < TWO63 && forall e :: e in es ==> EntryFits(e)
  }

  /** What comes back from a written file. */
  function StoredEntries(entries: map<string, Entry>): map<string, Entry> {
    map r | r in entries :: entries[r].(sum := StoredSum(entries[r].sum))
  }

  lemma {:induction false} MapOfMapped(es: seq<(string, Entry)>, r: string)
    requires DistinctNames(es)
    ensures r in MapOf(Mapped(es, StoredEntry)) <==> exists k :: 0 <= k < |es| && es[k].0 == r
    ensures forall k :: 0 <= k < |es| && es[k].0 == r ==> MapOf(Mapped(es, StoredEntry))[r] == StoredEntry(es[k]).1
  {
    var all := Mapped(es, StoredEntry);
    MapOfHas(all, r);
    assert forall k :: 0 <= k < |es| ==> all[k].0 == es[k].0;
    if es != [] {
      MapOfMapped(es[..|es| - 1], r);
      assert all[..|all| - 1] == Mapped(es[..|es| - 1], StoredEntry);
    }
  }

  lemma OrderedAreDistinct(entries: map<string, Entry>, es: seq<(string, Entry)>)
    requires InOrder(entries, es)
    ensures DistinctNames(es)
  {
    forall i, j | 0 <= i < j < |es| ensures es[i].0 != es[j].0 {
      assert Less(es[i].0, es[j].0);
      LessIsTotal(es[i].0, es[j].0);
    }
  }

  lemma StoredAt(entries: map<string, Entry>, es: seq<(string, Entry)>, r: string)
    requires InOrder(entries, es) && DistinctNames(es)
    ensures var m := MapOf(Mapped(es, StoredEntry));
            (r in m <==> r in entries) && (r in m ==> m[r] == entries[r].(sum := StoredSum(entries[r].sum)))
  {
    MapOfMapped(es, r);
    if r in entries {
      assert (r, entries[r]) in es;
      var k :| 0 <= k < |es| && es[k] == (r, entries[r]);
      assert es[k].0 == r;
    }
    if k :| 0 <= k < |es| && es[k].0 == r {
      assert es[k] in es;
    }
  }

  lemma StoredMap(entries: map<string, Entry>, es: seq<(string, Entry)>)
    requires InOrder(entries, es)
    ensures DistinctNames(Mapped(es, StoredEntry)) && MapOf(Mapped(es, StoredEntry)) == StoredEntries(entries)
  {
    OrderedAreDistinct(entries, es);
    var all := Mapped(es, StoredEntry);
    assert forall k :: 0 <= k < |es| ==> all[k].0 == StoredEntry(es[k]).0;
    forall r ensures r in MapOf(all) <==> r in StoredEntries(entries) { StoredAt(entries, es, r); }
    forall r | r in MapOf(all) ensures MapOf(all)[r] == StoredEntries(entries)[r] { StoredAt(entries, es, r); }
  }

  lemma SealedBody(step: (Word32, Byte) -> Word32, body: seq<Byte>, tail: seq<Byte>)
    requires body == BytesOf(MAGIC) + tail
    ensures var data := body + PutFixed(Checksum(step, 0, body), 4);
            Opens(step, data) && data[..|data| - 4][|MAGIC|..] == tail
  {
    var crc := Checksum(step, 0, body);
    var data := body + PutFixed(crc, 4);
    WordSizes();
    FixedRoundTrip(crc, 4);
    assert data[..|data| - 4] == body && data[|data| - 4..] == PutFixed(crc, 4);
    assert data[..|MAGIC|] == BytesOf(MAGIC);
  }

  lemma FileOpens(step: (Word32, Byte) -> Word32, version: nat, projects: string, es: seq<(string, Entry)>)
    ensures Opens(step, FileBytes(step, version, projects, es))
    ensures var data := FileBytes(step, version, projects, es);
            data[..|data| - 4][|MAGIC|..] == PutUvarint(version) + (EncStr(projects) + EncCounted(es, EncEntry))
  {
    SealedBody(step, Body(version, projects, es), PutUvarint(version) + (EncStr(projects) + EncCounted(es, EncEntry)));
  }

  /** A written file decodes to its entries exactly when no entry has more than 2^31 - 1 user turns without a uuid;
      with one that has, the whole file is refused. */
  lemma RoundTrip(step: (Word32, Byte) -> Word32, projects: string, entries: map<string, Entry>,
                  es: seq<(string, Entry)>)
    requires InOrder(entries, es) && AllFit(es) && IsByteString(projects)
    ensures Decoded(step, FileBytes(step, VERSION, projects, es), projects)
         == if forall e :: e in es ==> ComesBack(e) then Ok(StoredEntries(entries)) else Err(Corrupt)
  {
    FileOpens(step, VERSION, projects, es);
    PutThenGet(VERSION, EncStr(projects) + EncCounted(es, EncEntry));
    StrRoundTrip(projects, EncCounted(es, EncEntry));
    EntriesComeBack(entries, es);
  }

  lemma OneIsEnough(step: (Word32, Byte) -> Word32, projects: string, entries: map<string, Entry>,
                    es: seq<(string, Entry)>,
                    k: nat)
    requires InOrder(entries, es) && AllFit(es) && IsByteString(projects) && k < |es| && !ComesBack(es[k])
    ensures Decoded(step, FileBytes(step, VERSION, projects, es), projects) == Err(Corrupt)
  {
    RoundTrip(step, projects, entries, es);
    assert es[k] in es;
  }

  /** A file with 2^31 user turns that have no uuid. */
  const CROWDED := FileSummary("", "s", 0, 0, "", "", "", [], [], 0x8000_0000, [], [])

  lemma CrowdedFits(e: Entry)
    requires e == Entry(1, 1, Some(CROWDED))
    ensures AllFit([("a", e)])
  {
    assert HeaderFits(HeaderOf(CROWDED));
    assert SummaryFits(CROWDED);
    assert EntryFits(("a", e));
  }

  /** Its entry is encoded like any other, and the cache file with it is refused. */
  lemma CrowdedIsRefused(step: (Word32, Byte) -> Word32)
    ensures var e := Entry(1, 1, Some(CROWDED));
            && InOrder(map["a" := e], [("a", e)]) && AllFit([("a", e)])
            && Decoded(step, FileBytes(step, VERSION, "p", [("a", e)]), "p") == Err(Corrupt)
  {
    var e := Entry(1, 1, Some(CROWDED));
    CrowdedFits(e);
    OneIsEnough(step, "p", map["a" := e], [("a", e)], 0);
  }

  lemma EntriesComeBack(entries: map<string, Entry>, es: seq<(string, Entry)>)
    requires InOrder(entries, es) && AllFit(es)
    ensures EntriesIn(PCounted(EncCounted(es, EncEntry), 4, PEntry))
         == if forall e :: e in es ==> ComesBack(e) then Ok(StoredEntries(entries)) else Err(Corrupt)
  {
    var counted := EncCounted(es, EncEntry);
    assert counted + [] == counted;
    EntriesRoundTrip(es, []);
    StoredMap(entries, es);
  }

  /** A file of another version, or of another tree, is told apart from a corrupt one. */
  lemma OtherVersionIsTold(step: (Word32, Byte) -> Word32, version: nat, projects: string, other: string,
                           es: seq<(string, Entry)>)
    requires version < TWO64 && version != VERSION
    ensures Decoded(step, FileBytes(step, version, projects, es), other) == Err(OtherVersion)
  {
    FileOpens(step, version, projects, es);
    PutThenGet(version, EncStr(projects) + EncCounted(es, EncEntry));
  }

  lemma OtherTreeIsTold(step: (Word32, Byte) -> Word32, projects: string, other: string, es: seq<(string, Entry)>)
    requires IsByteString(projects) && projects != other
    ensures Decoded(step, FileBytes(step, VERSION, projects, es), other) == Err(OtherTree)
  {
    var counted := EncCounted(es, EncEntry);
    FileOpens(step, VERSION, projects, es);
    PutThenGet(VERSION, EncStr(projects) + counted);
    StrRoundTrip(projects, counted);
    assert PStr(EncStr(projects) + counted) == Got(projects, counted);
  }
}

module SummaryCache {
  // Cached calls over a changing tree: the cache file is read once per call, rewritten at checkpoints and at the end,
  // and may be replaced by other callers at any time. Time, writability, other callers and being killed are given by
  // functions of the step number.

  import opened Wrappers
  import opened SessionTypes
  import opened Varints
  import opened SliceSort
  import opened CacheFormat
  import opened CacheEncoder
  import opened CacheFile

  datatype Key = Key(size: int, mtimeNs: int)

  /** What the file system says of a listed file. */
  datatype FileState = Gone | Unreadable(key: Key) | Readable(key: Key)

  datatype Listed = Listed(path: string, rel: string)

  type Tree = string -> FileState

  /** The summary of the file `rel` with a size and modification time, which determine its content. The path is
      filled in by the caller. */
  type Contents = (string, Key) -> Option<FileSummary>

  datatype Meddle = Leaves | Replaces(file: Option<seq<Byte>>)

  function At(sum: Option<FileSummary>, path: string): Option<FileSummary> {
    if sum.None? then None else Some(sum.value.(path := path))
  }

  function Compact(results: seq<Option<FileSummary>>): seq<FileSummary> {
    if results == [] then []
    else Compact(results[..|results| - 1]) + if results[|results| - 1].Some? then [results[|results| - 1].value] else []
  }

  // ---------------------------------------------------------------- the two scans

  function ScanOne(contents: Contents, tree: Tree, f: Listed): Option<FileSummary> {
    match tree(f.rel)
    case Readable(k) => At(contents(f.rel, k), f.path)
    case _ => None
  }

  /** The call without a cache. */
  function Scan(contents: Contents, tree: Tree, files: seq<Listed>): seq<FileSummary> {
    Compact(Mapped(files, f => ScanOne(contents, tree, f)))
  }

  predicate Hit(m: map<string, Entry>, rel: string, k: Key) {
    rel in m && m[rel].size == k.size && m[rel].mtimeNs == k.mtimeNs
  }

  predicate IsHit(m: map<string, Entry>, tree: Tree, f: Listed) {
    !tree(f.rel).Gone? && Hit(m, f.rel, tree(f.rel).key)
  }

  /** The entry a cached call ends with for a file. */
  function EntryOf(contents: Contents, m: map<string, Entry>, tree: Tree, f: Listed): Option<Entry> {
    if IsHit(m, tree, f) then Some(m[f.rel].(sum := At(m[f.rel].sum, f.path)))
    else if tree(f.rel).Readable? then
      var k := tree(f.rel).key;
      Some(Entry(k.size, k.mtimeNs, At(contents(f.rel, k), f.path)))
    else None
  }

  function CachedOne(contents: Contents, m: map<string, Entry>, tree: Tree, f: Listed): Option<FileSummary> {
    var e := EntryOf(contents, m, tree, f);
    if e.Some? then e.value.sum else None
  }

  function CachedScan(contents: Contents, m: map<string, Entry>, tree: Tree, files: seq<Listed>): seq<FileSummary> {
    Compact(Mapped(files, f => CachedOne(contents, m, tree, f)))
  }

  /** The entry says what the file with its size and time holds. */
  predicate HonestEntry(contents: Contents, rel: string, e: Entry) {
    && StoredSum(e.sum) == contents(rel, Key(e.size, e.mtimeNs))
    && IsByteString(rel) && IsInt64(e.size) && IsInt64(e.mtimeNs)
  }

  ghost predicate Honest(contents: Contents, m: map<string, Entry>) {
    forall rel :: rel in m ==> HonestEntry(contents, rel, m[rel])
  }

  lemma HonestHit(contents: Contents, m: map<string, Entry>, tree: Tree, f: Listed)
    requires Honest(contents, m) && IsHit(m, tree, f)
    ensures CachedOne(contents, m, tree, f) == At(contents(f.rel, tree(f.rel).key), f.path)
  {
    assert HonestEntry(contents, f.rel, m[f.rel]);
  }

  /** A file the cache answers for although it can no longer be opened. */
  predicate Outlived(contents: Contents, m: map<string, Entry>, tree: Tree, f: Listed) {
    tree(f.rel).Unreadable? && IsHit(m, tree, f) && contents(f.rel, tree(f.rel).key).Some?
  }

  lemma OneAgrees(contents: Contents, m: map<string, Entry>, tree: Tree, f: Listed)
    requires Honest(contents, m)
    ensures CachedOne(contents, m, tree, f) == ScanOne(contents, tree, f) <==> !Outlived(contents, m, tree, f)
    ensures ScanOne(contents, tree, f).Some? ==> CachedOne(contents, m, tree, f) == ScanOne(contents, tree, f)
  {
    if IsHit(m, tree, f) { HonestHit(contents, m, tree, f); }
  }

  lemma {:induction false} CompactGrows(a: seq<Option<FileSummary>>, b: seq<Option<FileSummary>>)
    requires |a| == |b| && forall k :: 0 <= k < |a| ==> a[k].Some? ==> b[k] == a[k]
    ensures |Compact(a)| <= |Compact(b)|
    ensures |Compact(a)| == |Compact(b)| <==> a == b
    ensures Compact(a) == Compact(b) <==> a == b
  {
    if a != [] {
      var n := |a| - 1;
      CompactGrows(a[..n], b[..n]);
      assert a == a[..n] + [a[n]] && b == b[..n] + [b[n]];
    }
  }

  /** An honest cache changes the result exactly when it answers for a file that can no longer be opened. */
  lemma CachedIsUncached(contents: Contents, m: map<string, Entry>, tree: Tree, files: seq<Listed>)
    requires Honest(contents, m)
    ensures CachedScan(contents, m, tree, files) == Scan(contents, tree, files)
            <==> forall f :: f in files ==> !Outlived(contents, m, tree, f)
  {
    var a, b := Mapped(files, f => ScanOne(contents, tree, f)), Mapped(files, f => CachedOne(contents, m, tree, f));
    forall k | 0 <= k < |files|
      ensures (a[k].Some? ==> b[k] == a[k]) && (a[k] == b[k] <==> !Outlived(contents, m, tree, files[k]))
    {
      OneAgrees(contents, m, tree, files[k]);
    }
    CompactGrows(a, b);
    if f :| f in files && Outlived(contents, m, tree, f) {
      var k :| 0 <= k < |files| && files[k] == f;
      assert a[k] != b[k];
    }
  }

  const KEPT := FileSummary("", "s", 0, 0, "", "", "", [], [], 0, [], [])

  /** A file that was read once and whose permission was taken away since: the cached call still reports it. */
  lemma UnreadableIsAnswered()
    ensures var contents: Contents := (rel, k) => Some(KEPT);
            var m := map["a" := Entry(1, 1, Some(KEPT))];
            var tree: Tree := rel => Unreadable(Key(1, 1));
            && Honest(contents, m) && Outlived(contents, m, tree, Listed("p/a", "a"))
            && Scan(contents, tree, [Listed("p/a", "a")]) == []
            && CachedScan(contents, m, tree, [Listed("p/a", "a")]) == [KEPT.(path := "p/a")]
  {
    var contents: Contents := (rel, k) => Some(KEPT);
    var m := map["a" := Entry(1, 1, Some(KEPT))];
    var tree: Tree := rel => Unreadable(Key(1, 1));
    var f := Listed("p/a", "a");
    assert Mapped([f], f => ScanOne(contents, tree, f)) == [None];
    assert Mapped([f], f => CachedOne(contents, m, tree, f)) == [Some(KEPT.(path := "p/a"))];
    CompactOne(None);
    CompactOne(Some(KEPT.(path := "p/a")));
  }

  lemma CompactOne(s: Option<FileSummary>)
    ensures Compact([s]) == if s.Some? then [s.value] else []
  {
    assert [s][..0] == [];
  }

  // ---------------------------------------------------------------- the cache file

  function Loaded(step: (Word32, Byte) -> Word32, projects: string, file: Option<seq<Byte>>): map<string, Entry> {
    if file.None? then map[]
    else
      match Decoded(step, file.value, projects)
      case Ok(m) => m
      case Err(_) => map[]
  }

  /** Missing, unreadable as a cache, or honest. */
  ghost predicate HonestFile(contents: Contents, step: (Word32, Byte) -> Word32, projects: string,
                             file: Option<seq<Byte>>) {
    Honest(contents, Loaded(step, projects, file))
  }

  ghost predicate Widths(contents: Contents) {
    forall rel, k :: contents(rel, k).Some? ==> SummaryFits(contents(rel, k).value) && contents(rel, k).value.path == ""
  }

  lemma HonestFits(contents: Contents, e: (string, Entry))
    requires Widths(contents) && HonestEntry(contents, e.0, e.1)
    ensures EntryFits(e)
  {
    if e.1.sum.Some? {
      var s := contents(e.0, Key(e.1.size, e.1.mtimeNs)).value;
      assert s == Stored(e.1.sum.value);
    }
  }

  lemma {:induction false} MapSize(es: seq<(string, Entry)>)
    requires DistinctNames(es)
    ensures |MapOf(es)| == |es|
  {
    if es != [] {
      var n := |es| - 1;
      MapSize(es[..n]);
      MapOfHas(es[..n], es[n].0);
    }
  }

  lemma InOrderSize(entries: map<string, Entry>, es: seq<(string, Entry)>)
    requires InOrder(entries, es)
    ensures |es| == |entries|
  {
    OrderedAreDistinct(entries, es);
    MapSize(es);
    forall r ensures r in MapOf(es) <==> r in entries {
      MapOfHas(es, r);
      if k :| 0 <= k < |es| && es[k].0 == r { assert es[k] in es; }
      if r in entries { assert (r, entries[r]) in es; }
    }
    assert MapOf(es).Keys == entries.Keys;
    assert |MapOf(es).Keys| == |MapOf(es)| && |entries.Keys| == |entries|;
  }

  ghost predicate AllComeBack(entries: map<string, Entry>) {
    forall r :: r in entries ==> ComesBack((r, entries[r]))
  }

  lemma HonestEntriesFit(contents: Contents, entries: map<string, Entry>, es: seq<(string, Entry)>)
    requires Widths(contents) && Honest(contents, entries) && InOrder(entries, es) && |entries| < TWO63
    ensures AllFit(es)
    ensures AllComeBack(entries) <==> forall e :: e in es ==> ComesBack(e)
  {
    InOrderSize(entries, es);
    forall e | e in es ensures EntryFits(e) { HonestFits(contents, e); }
    if forall e :: e in es ==> ComesBack(e) {
      forall r | r in entries ensures ComesBack((r, entries[r])) { assert (r, entries[r]) in es; }
    }
  }

  /** A written file loads as the entries, or as nothing. */
  lemma WrittenLoads(contents: Contents, step: (Word32, Byte) -> Word32, projects: string,
                     entries: map<string, Entry>, es: seq<(string, Entry)>)
    requires Widths(contents) && Honest(contents, entries) && InOrder(entries, es) && |entries| < TWO63
             && IsByteString(projects)
    ensures var file := Some(FileBytes(step, VERSION, projects, es));
            && Loaded(step, projects, file) == (if AllComeBack(entries) then StoredEntries(entries) else map[])
            && HonestFile(contents, step, projects, file)
  {
    HonestEntriesFit(contents, entries, es);
    LoadsAs(step, projects, entries, es);
    StoredIsHonest(contents, entries);
  }

  lemma LoadsAs(step: (Word32, Byte) -> Word32, projects: string, entries: map<string, Entry>, es: seq<(string, Entry)>)
    requires InOrder(entries, es) && AllFit(es) && IsByteString(projects)
    ensures Loaded(step, projects, Some(FileBytes(step, VERSION, projects, es)))
         == if forall e :: e in es ==> ComesBack(e) then StoredEntries(entries) else map[]
  {
    RoundTrip(step, projects, entries, es);
  }

  lemma StoredIsHonest(contents: Contents, entries: map<string, Entry>)
    requires Honest(contents, entries)
    ensures Honest(contents, StoredEntries(entries))
  {
    forall r | r in entries ensures HonestEntry(contents, r, StoredEntries(entries)[r]) {
      assert HonestEntry(contents, r, entries[r]);
    }
  }

  predicate DistinctRels(files: seq<Listed>) {
    forall i, j :: 0 <= i < j < |files| ==> files[i].rel != files[j].rel
  }

  /** Names and file keys have the widths the program gives them. */
  ghost predicate FilesFit(files: seq<Listed>, tree: Tree) {
    && |files| < TWO63 && DistinctRels(files)
    && forall f :: f in files ==>
       IsByteString(f.rel) && (!tree(f.rel).Gone? ==> IsInt64(tree(f.rel).key.size) && IsInt64(tree(f.rel).key.mtimeNs))
  }

  // ---------------------------------------------------------------- summarize

  /** The file `k` is settled: its result and its entry are what the call ends with. */
  ghost predicate Settled(contents: Contents, m: map<string, Entry>, tree: Tree, f: Listed,
                          entries: map<string, Entry>, result: Option<FileSummary>) {
    && result == CachedOne(contents, m, tree, f)
    && (if EntryOf(contents, m, tree, f).Some? then f.rel in entries
       && entries[f.rel] == EntryOf(contents, m, tree, f).value
        else f.rel !in entries)
  }

  /** `todo` are the files not settled: misses, without a result or an entry. */
  ghost predicate Progress(contents: Contents, m: map<string, Entry>, tree: Tree, files: seq<Listed>, n: nat,
                           entries: map<string, Entry>, results: seq<Option<FileSummary>>, todo: set<nat>)
    requires n <= |files|
  {
    && |results| == |files|
    && (forall r :: r in entries ==> exists k :: 0 <= k < n && files[k].rel == r)
    && (forall k: nat :: k < n && k !in todo ==> Settled(contents, m, tree, files[k], entries, results[k]))
    && (forall k: nat :: k in todo ==>
       k < n && !tree(files[k].rel).Gone? && !IsHit(m, tree, files[k]) && results[k].None? && files[k].rel !in entries)
    && (forall k: nat :: n <= k < |files| ==> results[k].None?)
  }

  class Cache {
    const step: (Word32, Byte) -> Word32
    const projects: string
    const threshold: nat
    ghost const contents: Contents
    /** At a step: whether a checkpoint is due, what room a write finds, whether the call is killed, and what other
        callers did to the cache file. */
    const due: nat -> bool
    const room: nat -> Option<nat>
    const killed: nat -> bool
    const meddle: nat -> Meddle
    var file: Option<seq<Byte>>
    var tick: nat

    constructor (step: (Word32, Byte) -> Word32, projects: string, threshold: nat, ghost contents: Contents,
                 due: nat -> bool,
                 room: nat -> Option<nat>, killed: nat -> bool, meddle: nat -> Meddle, file: Option<seq<Byte>>)
      requires HonestFile(contents, step, projects, file) && Widths(contents) && IsByteString(projects)
      requires forall t :: meddle(t).Replaces? ==> HonestFile(contents, step, projects, meddle(t).file)
      ensures Valid() && this.contents == contents && this.file == file && this.step == step
              && this.projects == projects
    {
      this.step, this.projects, this.threshold, this.contents := step, projects, threshold, contents;
      this.due, this.room, this.killed, this.meddle := due, room, killed, meddle;
      this.file, tick := file, 0;
    }

    ghost predicate Valid()
      reads this
    {
      && HonestFile(contents, step, projects, file) && Widths(contents) && IsByteString(projects)
      && forall t :: meddle(t).Replaces? ==> HonestFile(contents, step, projects, meddle(t).file)
    }

    /** Nothing replaces the file and every write succeeds. */
    ghost predicate Quiet()
      reads this
    {
      forall t :: meddle(t).Leaves? && room(t).None?
    }

    /** Other callers get their turn. */
    method Others()
      requires Valid()
      modifies this`file, this`tick
      ensures Valid() && (Quiet() ==> file == old(file))
    {
      if meddle(tick).Replaces? {
        file := meddle(tick).file;
      }
      tick := tick + 1;
    }

    method Load() returns (m: map<string, Entry>)
      requires Valid()
      ensures m == Loaded(step, projects, file) && Honest(contents, m)
    {
      if file.None? {
        return map[];
      }
      var r := Decode(step, file.value, projects);
      return if r.Ok? then r.entries else map[];
    }

    /** The cache file is exactly what is written for the entries. */
    ghost predicate Holds(entries: map<string, Entry>)
      reads this
    {
      exists es :: InOrder(entries, es) && file == Some(FileBytes(step, VERSION, projects, es))
    }

    /** The temporary file is renamed over the cache file, or nothing happens. */
    method Save(entries: map<string, Entry>) returns (ok: bool)
      requires Valid() && Honest(contents, entries) && |entries| < TWO63
      modifies this`file
      ensures Valid()
      ensures !ok ==> file == old(file)
      ensures ok && AllComeBack(entries) ==> Loaded(step, projects, file) == StoredEntries(entries)
      ensures ok ==> Holds(entries)
      ensures Quiet() ==> ok
    {
      var w := new Writer(room(tick));
      var n;
      ghost var es;
      n, ok, es := Encode(w, step, threshold, VERSION, projects, entries);
      if ok {
        WrittenLoads(contents, step, projects, entries, es);
        assert [] + FileBytes(step, VERSION, projects, es) == FileBytes(step, VERSION, projects, es);
        file := Some(w.out);
      }
    }

    /** Stats the files: a hit is settled, a miss is left to read. */
    method Survey(files: seq<Listed>, tree: Tree, m: map<string, Entry>)
      returns (entries: map<string, Entry>, results: seq<Option<FileSummary>>, misses: set<nat>)
      requires Honest(contents, m) && FilesFit(files, tree)
      ensures Progress(contents, m, tree, files, |files|, entries, results, misses)
      ensures Honest(contents, entries)
      ensures forall r :: r in entries ==>
          r in m && StoredSum(entries[r].sum) == StoredSum(m[r].sum) && entries[r].size == m[r].size
            && entries[r].mtimeNs == m[r].mtimeNs
    {
      entries, results, misses := map[], seq(|files|, _ => None), {};
      for i := 0 to |files|
        invariant Progress(contents, m, tree, files, i, entries, results, misses)
        invariant Honest(contents, entries)
        invariant forall r :: r in entries ==>
            r in m && StoredSum(entries[r].sum) == StoredSum(m[r].sum) && entries[r].size == m[r].size
              && entries[r].mtimeNs == m[r].mtimeNs
      {
        var f := files[i];
        match tree(f.rel) {
          case Gone =>
            SurveyNext(contents, m, tree, files, i, entries, results, misses, entries, results, misses);
          case _ =>
            if Hit(m, f.rel, tree(f.rel).key) {
              var e := m[f.rel].(sum := At(m[f.rel].sum, f.path));
              HonestHit(contents, m, tree, f);
              SurveyNext(contents, m, tree, files, i, entries, results, misses, entries[f.rel := e],
                results[i := e.sum], misses);
              assert HonestEntry(contents, f.rel, m[f.rel]);
              entries := entries[f.rel := e];
              results := results[i := e.sum];
            } else {
              SurveyNext(contents, m, tree, files, i, entries, results, misses, entries, results, misses + {i});
              misses := misses + {i};
            }
        }
      }
    }

    /** Reads the missed files in the order their readers finish, with checkpoints in between; `ok` unless killed. */
    method Read(files: seq<Listed>, tree: Tree, parse: Contents, ghost m: map<string, Entry>,
                entries0: map<string, Entry>,
                results0: seq<Option<FileSummary>>, misses: set<nat>, unsaved0: bool)
      returns (entries: map<string, Entry>, results: seq<Option<FileSummary>>, unsaved: bool, ok: bool)
      requires Valid() && Honest(contents, m) && FilesFit(files, tree) && parse == contents
      requires Progress(contents, m, tree, files, |files|, entries0, results0, misses) && Honest(contents, entries0)
      requires Quiet() && AllSummariesComeBack(contents) && !unsaved0 ==> InSync(entries0)
      modifies this`file, this`tick
      ensures Valid()
      ensures ok ==> Progress(contents, m, tree, files, |files|, entries, results, {}) && Honest(contents, entries)
      ensures ok && Quiet() && AllSummariesComeBack(contents) && !unsaved ==> InSync(entries)
    {
      entries, results, unsaved := entries0, results0, unsaved0;
      var todo := misses;
      while todo != {}
        invariant Valid() && Progress(contents, m, tree, files, |files|, entries, results, todo)
                  && Honest(contents, entries)
        invariant Quiet() && AllSummariesComeBack(contents) && !unsaved ==> InSync(entries)
        decreases todo
      {
        var i :| i in todo;
        var f := files[i];
        Others();
        if killed(tick) {
          return entries, results, unsaved, false;
        }
        todo := todo - {i};
        if tree(f.rel).Unreadable? {
          ReadNext(contents, m, tree, files, i, entries, results, todo, entries, results);
        } else {
          var k := tree(f.rel).key;
          var sum := At(parse(f.rel, k), f.path);
          var e := Entry(k.size, k.mtimeNs, sum);
          ReadNext(contents, m, tree, files, i, entries, results, todo, entries[f.rel := e], results[i := sum]);
          ReadIsHonest(contents, f, k);
          entries, results := entries[f.rel := e], results[i := sum];
          unsaved := Checkpoint(files, entries);
        }
      }
      ok := true;
    }

    /** Writes the entries if it is time to; `unsaved` unless they were written, and then the file is as it was. */
    method Checkpoint(files: seq<Listed>, entries: map<string, Entry>) returns (unsaved: bool)
      requires Valid() && Honest(contents, entries) && |files| < TWO63
      requires forall r :: r in entries ==> exists k :: 0 <= k < |files| && files[k].rel == r
      modifies this`file
      ensures Valid()
      ensures AllSummariesComeBack(contents) && !unsaved ==> InSync(entries)
      ensures !due(tick) ==> unsaved
      ensures due(tick) && Quiet() ==> !unsaved
      ensures if unsaved then file == old(file) else Holds(entries)
    {
      unsaved := true;
      if due(tick) {
        EntriesAreFew(files, entries);
        var saved := Save(entries);
        HonestComeBack(contents, entries);
        unsaved := !saved;
      }
    }

    /** The cache file holds the entries. */
    ghost predicate InSync(entries: map<string, Entry>)
      reads this
    {
      StoredEntries(Loaded(step, projects, file)) == StoredEntries(entries)
    }

    /** A call: whatever the cache file held, it returns what an honest cache allows; the file stays honest at every
        step, wherever the call is killed; and a call that nothing disturbs leaves all its entries in the file. */
    method Summarize(files: seq<Listed>, tree: Tree, parse: Contents)
      returns (r: Option<seq<FileSummary>>, ghost m: map<string, Entry>, ghost entries: map<string, Entry>)
      requires Valid() && FilesFit(files, tree) && parse == contents
      modifies this`file, this`tick
      ensures Valid() && Honest(contents, m)
      ensures r.Some? ==> r.value == CachedScan(contents, m, tree, files)
      ensures Quiet() ==> m == Loaded(step, projects, old(file))
      ensures r.Some? && Quiet() && AllSummariesComeBack(contents) ==>
                InSync(entries) && Final(contents, m, tree, files, entries)
    {
      Others();
      var loaded := Load();
      m := loaded;
      var es, results, misses := Survey(files, tree, loaded);
      var unsaved := |es| != |loaded|;
      SameSizeInSync(contents, m, es);
      var ok;
      es, results, unsaved, ok := Read(files, tree, parse, m, es, results, misses, unsaved);
      entries := es;
      Others();
      if !ok || killed(tick) {
        return None, m, es;
      }
      if unsaved {
        EntriesAreFew(files, es);
        var saved := Save(es);
        HonestComeBack(contents, es);
      }
      SettledIsCached(contents, m, tree, files, es, results);
      r := Some(Compact(results));
    }
  }

  lemma SurveyNext(contents: Contents, m: map<string, Entry>, tree: Tree, files: seq<Listed>, i: nat,
                   entries: map<string, Entry>, results: seq<Option<FileSummary>>, todo: set<nat>,
                   entries': map<string, Entry>, results': seq<Option<FileSummary>>, todo': set<nat>)
    requires i < |files| && DistinctRels(files) && Progress(contents, m, tree, files, i, entries, results, todo)
    requires var f := files[i];
             if IsHit(m, tree, f) then
               var e := EntryOf(contents, m, tree, f).value;
               entries' == entries[f.rel := e] && results' == results[i := e.sum] && todo' == todo
             else
               entries' == entries && results' == results && todo' == todo + if tree(f.rel).Gone? then {} else {i}
    ensures Progress(contents, m, tree, files, i + 1, entries', results', todo')
  {
    var f := files[i];
    assert f.rel !in entries;
    forall k: nat | k < i + 1 && k !in todo' ensures Settled(contents, m, tree, files[k], entries', results'[k]) {
      if k < i {
        assert Settled(contents, m, tree, files[k], entries, results[k]);
      }
    }
  }

  lemma ReadNext(contents: Contents, m: map<string, Entry>, tree: Tree, files: seq<Listed>, i: nat,
                 entries: map<string, Entry>, results: seq<Option<FileSummary>>, todo: set<nat>,
                 entries': map<string, Entry>, results': seq<Option<FileSummary>>)
    requires i < |files| && DistinctRels(files) && i !in todo
    requires Progress(contents, m, tree, files, |files|, entries, results, todo + {i})
    requires var f := files[i];
             if tree(f.rel).Readable? then
               var e := EntryOf(contents, m, tree, f).value;
               entries' == entries[f.rel := e] && results' == results[i := e.sum]
             else entries' == entries && results' == results
    ensures Progress(contents, m, tree, files, |files|, entries', results', todo)
  {
    forall k: nat | k < |files| && k !in todo ensures Settled(contents, m, tree, files[k], entries', results'[k]) {
      if k != i {
        assert Settled(contents, m, tree, files[k], entries, results[k]);
      }
    }
  }

  lemma ReadIsHonest(contents: Contents, f: Listed, k: Key)
    requires Widths(contents) && IsByteString(f.rel) && IsInt64(k.size) && IsInt64(k.mtimeNs)
    ensures HonestEntry(contents, f.rel, Entry(k.size, k.mtimeNs, At(contents(f.rel, k), f.path)))
  {
  }

  ghost predicate AllSummariesComeBack(contents: Contents) {
    forall rel, k :: contents(rel, k).Some? ==> contents(rel, k).value.userNoUuid <= MAX_INT32
  }

  lemma HonestComeBack(contents: Contents, entries: map<string, Entry>)
    requires Honest(contents, entries)
    ensures AllSummariesComeBack(contents) ==> AllComeBack(entries)
    ensures StoredEntries(StoredEntries(entries)) == StoredEntries(entries)
  {
    if AllSummariesComeBack(contents) {
      forall r | r in entries ensures ComesBack((r, entries[r])) {
        assert HonestEntry(contents, r, entries[r]);
      }
    }
  }

  ghost predicate Final(contents: Contents, m: map<string, Entry>, tree: Tree, files: seq<Listed>,
                        entries: map<string, Entry>) {
    forall f :: f in files ==>
      if EntryOf(contents, m, tree, f).Some? then f.rel in entries
        && entries[f.rel] == EntryOf(contents, m, tree, f).value
      else f.rel !in entries
  }

  lemma SettledIsCached(contents: Contents, m: map<string, Entry>, tree: Tree, files: seq<Listed>,
                        entries: map<string, Entry>, results: seq<Option<FileSummary>>)
    requires Progress(contents, m, tree, files, |files|, entries, results, {})
    ensures Compact(results) == CachedScan(contents, m, tree, files) && Final(contents, m, tree, files, entries)
  {
    forall k: nat | k < |files| ensures Settled(contents, m, tree, files[k], entries, results[k]) {}
    assert results == Mapped(files, f => CachedOne(contents, m, tree, f));
    forall f | f in files
      ensures if EntryOf(contents, m, tree, f).Some? then f.rel in entries
              && entries[f.rel] == EntryOf(contents, m, tree, f).value
              else f.rel !in entries
    {
      var k: nat :| k < |files| && files[k] == f;
      assert Settled(contents, m, tree, files[k], entries, results[k]);
    }
  }

  /** There are no more entries than files. */
  lemma EntriesAreFew(files: seq<Listed>, entries: map<string, Entry>)
    requires forall r :: r in entries ==> exists k :: 0 <= k < |files| && files[k].rel == r
    ensures |entries| <= |files|
  {
    RelsAreFew(files);
    forall r | r in entries ensures r in Rels(files) { InRels(files, r); }
    SubsetIsSmaller(entries.Keys, Rels(files));
    assert |entries| == |entries.Keys|;
  }

  function Rels(files: seq<Listed>): set<string> {
    if files == [] then {} else Rels(files[..|files| - 1]) + {files[|files| - 1].rel}
  }

  lemma {:induction false} InRels(files: seq<Listed>, r: string)
    requires exists k :: 0 <= k < |files| && files[k].rel == r
    ensures r in Rels(files)
  {
    var k :| 0 <= k < |files| && files[k].rel == r;
    if k < |files| - 1 {
      assert files[..|files| - 1][k].rel == r;
      InRels(files[..|files| - 1], r);
    }
  }

  lemma {:induction false} RelsAreFew(files: seq<Listed>)
    ensures |Rels(files)| <= |files|
  {
    if files != [] { RelsAreFew(files[..|files| - 1]); }
  }

  /** As many hits as loaded entries: nothing was dropped, so the file need not be written. */
  lemma SameSizeInSync(contents: Contents, m: map<string, Entry>, entries: map<string, Entry>)
    requires forall r :: r in entries ==>
        r in m && StoredSum(entries[r].sum) == StoredSum(m[r].sum) && entries[r].size == m[r].size
          && entries[r].mtimeNs == m[r].mtimeNs
    ensures |entries| == |m| ==> StoredEntries(m) == StoredEntries(entries)
  {
    SubsetIsSmaller(entries.Keys, m.Keys);
    assert |entries| == |entries.Keys| && |m| == |m.Keys|;
  }

  // ---------------------------------------------------------------- runs of calls

  /** After an undisturbed call, a call over the same tree reads nothing: it only tries again what cannot be opened. */
  lemma NextCallReadsNothing(contents: Contents, m: map<string, Entry>, tree: Tree, files: seq<Listed>,
                             entries: map<string, Entry>, next: map<string, Entry>, f: Listed)
    requires Final(contents, m, tree, files, entries) && StoredEntries(next) == StoredEntries(entries) && f in files
    ensures tree(f.rel).Readable? ==> IsHit(next, tree, f)
  {
    if tree(f.rel).Readable? {
      assert f.rel in entries;
      assert f.rel in StoredEntries(entries) && f.rel in StoredEntries(next);
      assert StoredEntries(next)[f.rel] == StoredEntries(entries)[f.rel];
    }
  }

  datatype Call = Call(files: seq<Listed>, tree: Tree)

  /** A run of calls over a tree that changes between them: every call that is not killed returns what the scan
      without a cache returns, exactly unless an entry it loaded outlived its file's permissions. */
  method Run(cache: Cache, calls: seq<Call>, parse: Contents)
    returns (rs: seq<Option<seq<FileSummary>>>, ghost loaded: seq<map<string, Entry>>)
    requires cache.Valid() && parse == cache.contents
    requires forall c :: c in calls ==> FilesFit(c.files, c.tree)
    modifies cache`file, cache`tick
    ensures cache.Valid() && |rs| == |loaded| == |calls|
    ensures forall k :: 0 <= k < |calls| && rs[k].Some? ==>
        ReturnsScan(cache.contents, calls[k], loaded[k], rs[k].value)
  {
    rs, loaded := [], [];
    for k := 0 to |calls|
      invariant cache.Valid() && |rs| == |loaded| == k
      invariant forall j :: 0 <= j < k && rs[j].Some? ==> ReturnsScan(cache.contents, calls[j], loaded[j], rs[j].value)
    {
      var r, m, entries := cache.Summarize(calls[k].files, calls[k].tree, parse);
      CachedIsUncached(cache.contents, m, calls[k].tree, calls[k].files);
      rs, loaded := rs + [r], loaded + [m];
    }
  }

  /** The uncached result, exactly when no entry in use outlived its file's permissions. */
  ghost predicate ReturnsScan(contents: Contents, c: Call, m: map<string, Entry>, r: seq<FileSummary>) {
    && Honest(contents, m)
    && (r == Scan(contents, c.tree, c.files) <==> forall f :: f in c.files ==> !Outlived(contents, m, c.tree, f))
  }
}

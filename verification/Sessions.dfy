/** Sessions end to end: files read one by one, merged by session, and what each record then says of the lines. */
module Sessions {
  import opened Wrappers
  import opened SessionTypes
  import opened MergeSession
  import opened MergeSessions
  import opened TranscriptFold
  import opened FoldThenMerge

  ghost predicate Summary(f: File, s: FileSummary) {
    IsSummary(f.path, f.name, PartsOf(f.lines), s)
  }

  ghost predicate Dated(f: File) {
    PartsOf(f.lines).stamps != []
  }

  /** Of the first `n` files, `from` are the dated ones and `sums` their summaries, in file order. */
  ghost predicate SummariesOf(files: seq<File>, n: nat, sums: seq<FileSummary>, from: seq<nat>)
    requires n <= |files|
  {
    && |from| == |sums|
    && (forall k :: 0 <= k < |sums| ==> from[k] < n && Summary(files[from[k]], sums[k]))
    && (forall i, j :: 0 <= i < j < |from| ==> from[i] < from[j])
    && (forall f: nat :: f < n && Dated(files[f]) ==> f in from)
  }

  lemma SummaryAdded(files: seq<File>, n: nat, sums: seq<FileSummary>, from: seq<nat>, s: Option<FileSummary>)
    requires n < |files| && SummariesOf(files, n, sums, from)
    requires if s.Some? then Summary(files[n], s.value) else !Dated(files[n])
    ensures s.Some? ==> SummariesOf(files, n + 1, sums + [s.value], from + [n])
    ensures s.None? ==> SummariesOf(files, n + 1, sums, from)
  {
    if s.Some? {
      var sums', from' := sums + [s.value], from + [n];
      forall k | 0 <= k < |sums'| ensures from'[k] < n + 1 && Summary(files[from'[k]], sums'[k]) {
        assert k < |sums| ==> Summary(files[from[k]], sums[k]);
      }
      forall f: nat | f < n + 1 && Dated(files[f]) ensures f in from' {
        assert f < n ==> f in from;
      }
    }
  }

  /** The summaries of the dated files, in file order. */
  ghost predicate AreSummaries(files: seq<File>, sums: seq<FileSummary>) {
    exists from :: SummariesOf(files, |files|, sums, from)
  }

  predicate DistinctFiles(files: seq<File>) {
    forall i, j :: 0 <= i < j < |files| ==> files[i].path != files[j].path
  }

  lemma NoSharedPaths(files: seq<File>, sums: seq<FileSummary>)
    requires DistinctFiles(files) && AreSummaries(files, sums)
    ensures NoSharedPath(sums)
  {
    var from :| SummariesOf(files, |files|, sums, from);
    forall i, j | 0 <= i < j < |sums| ensures sums[i].path != sums[j].path {
      assert from[i] < from[j];
    }
  }

  /** summarizeAll: files that yield no summary are dropped. */
  method SummarizeAll(files: seq<File>) returns (sums: seq<FileSummary>)
    ensures AreSummaries(files, sums)
  {
    sums := [];
    ghost var from: seq<nat> := [];
    for k := 0 to |files|
      invariant SummariesOf(files, k, sums, from)
    {
      var s := SummarizeFile(files, k, sums, from);
      if s.Some? {
        sums, from := sums + [s.value], from + [k];
      }
    }
  }

  method SummarizeFile(files: seq<File>, k: nat, ghost sums: seq<FileSummary>, ghost from: seq<nat>)
      returns (s: Option<FileSummary>)
    requires k < |files| && SummariesOf(files, k, sums, from)
    ensures s.Some? ==> SummariesOf(files, k + 1, sums + [s.value], from + [k])
    ensures s.None? ==> SummariesOf(files, k + 1, sums, from)
  {
    s := Summarize(files[k].path, files[k].name, files[k].lines);
    SummaryAdded(files, k, sums, from, s);
  }

  /** The rollup of the files' summaries. */
  ghost predicate IsRollupOf(files: seq<File>, since: Option<Time>, before: Option<Time>, out: seq<SessionRecord>) {
    exists sums :: AreSummaries(files, sums) && IsRollup(Files(sums), since, before, out)
  }

  /** Sessions over already listed and decoded files. */
  method Rollup(files: seq<File>, since: Option<Time>, before: Option<Time>) returns (out: seq<SessionRecord>)
    requires DistinctFiles(files)
    ensures IsRollupOf(files, since, before, out)
    ensures forall r :: r in out && since.Some? ==> since.value <= r.startedAt
    ensures forall r :: r in out && before.Some? ==> r.startedAt < before.value
  {
    var sums := SummarizeAll(files);
    NoSharedPaths(files, sums);
    out := MergeSessions.MergeSessions(sums, since, before);
  }

  /** The files of the members of a session, in the order of their merge. */
  ghost function FilesOf(c: set<FileSummary>, fileOf: FileSummary -> File): seq<File> {
    seq(|Canon(c)|, k requires 0 <= k < |Canon(c)| => fileOf(Canon(c)[k]))
  }

  /** Whatever order the members of a session are met in. */
  lemma RecordIsDirect(c: set<FileSummary>, fileOf: FileSummary -> File)
    requires c != {} && forall s :: s in c ==> Summary(fileOf(s), s)
    requires OneEventPerUuid(AllLines(FilesOf(c, fileOf)))
    ensures IsDirect(RecordOf(c), AllLines(FilesOf(c, fileOf)))
  {
    CanonIsSorted(c);
    var ms, fs := Canon(c), FilesOf(c, fileOf);
    forall k | 0 <= k < |fs| ensures IsSummary(fs[k].path, fs[k].name, PartsOf(fs[k].lines), ms[k]) {
      assert ms[k] in multiset(ms);
      assert ms[k] in c && Summary(fs[k], ms[k]);
    }
    FoldThenMergeIsDirect(fs, ms);
  }

  // ---------------------------------------------------------------- the call

  /** A file with the summary `s`, if any of them has it. */
  ghost function FileOf(files: seq<File>, s: FileSummary): File
    requires files != []
  {
    if f :| f in files && Summary(f, s) then f else files[0]
  }

  lemma {:induction false} LinesOfFiles(fs: seq<File>, ln: Line)
    ensures ln in AllLines(fs) <==> exists f :: f in fs && ln in f.lines
  {
    if fs != [] {
      var front, last := fs[..|fs| - 1], fs[|fs| - 1];
      LinesOfFiles(front, ln);
      assert forall f :: f in fs <==> f in front || f == last;
    }
  }

  lemma FewerFilesOneEvent(files: seq<File>, fs: seq<File>)
    requires OneEventPerUuid(AllLines(files)) && forall f :: f in fs ==> f in files
    ensures OneEventPerUuid(AllLines(fs))
  {
    var all, some := AllLines(files), AllLines(fs);
    forall ln | ln in some ensures ln in all {
      LinesOfFiles(fs, ln);
      LinesOfFiles(files, ln);
    }
    forall i, j | 0 <= i < |some| && 0 <= j < |some| && some[i].uuid.Some? && some[i].uuid == some[j].uuid
      ensures some[i] == some[j]
    {
      assert some[i] in all && some[j] in all;
    }
  }

  /** `fs` are the files of the session of `x`, in the order of their merge. */
  ghost predicate SessionFiles(files: seq<File>, sums: seq<FileSummary>, x: FileSummary, fs: seq<File>) {
    var ms := Canon(Component(Files(sums), x));
    && x in Files(sums) && |fs| == |ms|
    && forall k :: 0 <= k < |fs| ==> fs[k] in files && Summary(fs[k], ms[k])
  }

  lemma MembersHaveFiles(files: seq<File>, sums: seq<FileSummary>, s: FileSummary)
    requires AreSummaries(files, sums) && s in sums
    ensures files != [] && FileOf(files, s) in files && Summary(FileOf(files, s), s)
  {
    var from :| SummariesOf(files, |files|, sums, from);
    var k :| 0 <= k < |sums| && sums[k] == s;
    FileIsFound(files, files[from[k]], s);
  }

  lemma FileIsFound(files: seq<File>, f: File, s: FileSummary)
    requires f in files && Summary(f, s)
    ensures FileOf(files, s) in files && Summary(FileOf(files, s), s)
  {
  }

  /** `r` is the direct reading of the lines of the session of `x`. */
  ghost predicate ReadsSession(files: seq<File>, sums: seq<FileSummary>, x: FileSummary, r: SessionRecord) {
    exists fs :: SessionFiles(files, sums, x, fs) && IsDirect(r, AllLines(fs))
  }

  /** The files of the members of `c`, in the order of their merge. */
  ghost function FilesIn(files: seq<File>, c: set<FileSummary>): seq<File>
    requires files != []
  {
    FilesOf(c, s => FileOf(files, s))
  }

  lemma ComponentHasFiles(files: seq<File>, sums: seq<FileSummary>, c: set<FileSummary>)
    requires AreSummaries(files, sums) && c <= Files(sums) && c != {}
    ensures files != [] && forall s :: s in c ==> FileOf(files, s) in files && Summary(FileOf(files, s), s)
  {
    var one :| one in c;
    MembersHaveFiles(files, sums, one);
    forall s | s in c ensures FileOf(files, s) in files && Summary(FileOf(files, s), s) {
      MembersHaveFiles(files, sums, s);
    }
  }

  lemma CanonIsWithin(c: set<FileSummary>, k: nat)
    requires k < |Canon(c)|
    ensures Canon(c)[k] in c
  {
    CanonIsSorted(c);
    assert Canon(c)[k] in multiset(Canon(c));
  }

  lemma SessionHasFiles(files: seq<File>, sums: seq<FileSummary>, x: FileSummary, c: set<FileSummary>)
    requires AreSummaries(files, sums) && x in Files(sums) && c == Component(Files(sums), x) && c != {}
    ensures files != [] && SessionFiles(files, sums, x, FilesIn(files, c))
    ensures forall s :: s in c ==> Summary(FileOf(files, s), s)
  {
    ComponentHasFiles(files, sums, c);
    var fs, ms := FilesIn(files, c), Canon(c);
    forall k | 0 <= k < |ms| ensures fs[k] in files && Summary(fs[k], ms[k]) {
      CanonIsWithin(c, k);
      assert fs[k] == FileOf(files, ms[k]);
    }
  }

  lemma SessionIsDirect(files: seq<File>, sums: seq<FileSummary>, x: FileSummary, c: set<FileSummary>)
    requires AreSummaries(files, sums) && OneEventPerUuid(AllLines(files))
    requires x in Files(sums) && c == Component(Files(sums), x) && c != {}
    ensures ReadsSession(files, sums, x, RecordOf(c))
  {
    SessionHasFiles(files, sums, x, c);
    FewerFilesOneEvent(files, FilesIn(files, c));
    RecordIsDirect(c, s => FileOf(files, s));
  }

  /** What the call reports: with one event per uuid, its records are, strictly ascending, exactly the direct readings
      of the sessions that begin in range. */
  ghost predicate ReportsDirectly(files: seq<File>, sums: seq<FileSummary>, since: Option<Time>, before: Option<Time>,
                                  out: seq<SessionRecord>)
  {
    && AreSummaries(files, sums)
    && (forall i, j :: 0 <= i < j < |out| ==> RecordLess(out[i], out[j]))
    && (forall r :: r in out ==> InRange(r, since, before) && exists x :: ReadsSession(files, sums, x, r))
    && (forall x :: x in Files(sums) ==> ReadInRange(files, sums, since, before, out, x))
  }

  /** The session of `x` has a record, and that is among those reported if it is in range. */
  ghost predicate ReadInRange(files: seq<File>, sums: seq<FileSummary>, since: Option<Time>, before: Option<Time>,
                              out: seq<SessionRecord>, x: FileSummary)
  {
    exists r :: ReadsSession(files, sums, x, r) && (InRange(r, since, before) ==> r in out)
  }

  lemma RollupIsDirect(files: seq<File>, since: Option<Time>, before: Option<Time>, out: seq<SessionRecord>)
    requires IsRollupOf(files, since, before, out) && OneEventPerUuid(AllLines(files))
    ensures exists sums :: ReportsDirectly(files, sums, since, before, out)
  {
    var sums :| AreSummaries(files, sums) && IsRollup(Files(sums), since, before, out);
    forall r | r in out ensures InRange(r, since, before) && exists x :: ReadsSession(files, sums, x, r) {
      assert Reported(Files(sums), since, before, r);
      var x :| x in Files(sums) && IsRecordOf(Files(sums), x, r);
      InOwnComponent(Files(sums), x);
      SessionIsDirect(files, sums, x, Component(Files(sums), x));
    }
    forall x | x in Files(sums) ensures ReadInRange(files, sums, since, before, out, x) {
      var c := Component(Files(sums), x);
      InOwnComponent(Files(sums), x);
      SessionIsDirect(files, sums, x, c);
      assert IsRecordOf(Files(sums), x, RecordOf(c));
      assert InRange(RecordOf(c), since, before) ==> Reported(Files(sums), since, before, RecordOf(c));
    }
    assert ReportsDirectly(files, sums, since, before, out);
  }

  // ---------------------------------------------------------------- the range

  /** Some line has this date and none has an earlier one. */
  ghost predicate StartsAt(lines: seq<Line>, t: Time) {
    && (exists ln :: ln in lines && ln.ts == Some(t))
    && forall ln :: ln in lines && ln.ts.Some? ==> t <= ln.ts.value
  }

  lemma EarliestLine(lines: seq<Line>)
    requires PartsOf(lines).stamps != []
    ensures StartsAt(lines, Earliest(PartsOf(lines).stamps))
  {
    var ts := PartsOf(lines).stamps;
    EarliestIs(ts);
    StampsAre(lines, Earliest(ts));
    forall ln | ln in lines && ln.ts.Some? ensures Earliest(ts) <= ln.ts.value { StampsAre(lines, ln.ts.value); }
  }

  /** Whatever uuids the lines share, a session's record starts at the earliest date of its files' lines. */
  lemma SessionStarts(files: seq<File>, sums: seq<FileSummary>, x: FileSummary, c: set<FileSummary>)
      returns (fs: seq<File>)
    requires AreSummaries(files, sums) && x in Files(sums) && c == Component(Files(sums), x) && c != {}
    ensures SessionFiles(files, sums, x, fs) && StartsAt(AllLines(fs), RecordOf(c).startedAt)
  {
    SessionHasFiles(files, sums, x, c);
    fs := FilesIn(files, c);
    var ms := Canon(c);
    CanonIsSorted(c);
    UnionOfDates(fs, ms);
    SortedStartsLeast(ms);
    EarliestLine(AllLines(fs));
  }

  /** `r` is reported for the session of `x`, and starts at the earliest date of its lines. */
  ghost predicate Starts(files: seq<File>, sums: seq<FileSummary>, x: FileSummary, r: SessionRecord) {
    exists fs :: SessionFiles(files, sums, x, fs) && StartsAt(AllLines(fs), r.startedAt)
  }

  /** Every reported record starts in the range, at the earliest date of the lines of a session, and every session whose
      earliest date is in the range is reported. */
  lemma RollupIsByEarliestDate(files: seq<File>, since: Option<Time>, before: Option<Time>, out: seq<SessionRecord>)
    requires IsRollupOf(files, since, before, out)
    ensures forall r :: r in out && since.Some? ==> since.value <= r.startedAt
    ensures forall r :: r in out && before.Some? ==> r.startedAt < before.value
    ensures exists sums :: AreSummaries(files, sums)
              && (forall r :: r in out ==> exists x :: Starts(files, sums, x, r))
              && (forall x :: x in Files(sums) ==> StartsReported(files, sums, since, before, out, x))
  {
    var sums :| AreSummaries(files, sums) && IsRollup(Files(sums), since, before, out);
    RollupIsByStart(Files(sums), since, before, out);
    forall r | r in out ensures exists x :: Starts(files, sums, x, r) {
      assert Reported(Files(sums), since, before, r);
      var x :| x in Files(sums) && IsRecordOf(Files(sums), x, r);
      InOwnComponent(Files(sums), x);
      var fs := SessionStarts(files, sums, x, Component(Files(sums), x));
      assert Starts(files, sums, x, r);
    }
    forall x | x in Files(sums) ensures StartsReported(files, sums, since, before, out, x) {
      InOwnComponent(Files(sums), x);
      var c := Component(Files(sums), x);
      var fs := SessionStarts(files, sums, x, c);
      assert IsRecordOf(Files(sums), x, RecordOf(c));
      assert Starts(files, sums, x, RecordOf(c));
    }
  }

  /** The session of `x` has an earliest date, and a record of that start is reported if the date is in the range. */
  ghost predicate StartsReported(files: seq<File>, sums: seq<FileSummary>, since: Option<Time>, before: Option<Time>,
                                 out: seq<SessionRecord>, x: FileSummary)
  {
    exists r :: Starts(files, sums, x, r)
      && ((since.Some? ==> since.value <= r.startedAt) && (before.Some? ==> r.startedAt < before.value) ==> r in out)
  }
}

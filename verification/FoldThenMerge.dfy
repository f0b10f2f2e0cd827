/** Folding every file of a session alone and merging the summaries reports what the definition over the union of
    all its lines says. Message ids are aggregated twice, by file and then by session, which is aggregating once;
    user turns and assistant lines without a message id share one set of seen uuids, which is harmless exactly when
    no uuid is on both. */
module FoldThenMerge {
  import opened Wrappers
  import opened Tokens
  import opened SessionTypes
  import opened SliceSort
  import opened MergeSession
  import opened TranscriptFold

  datatype File = File(path: string, name: string, lines: seq<Line>)

  /** `ms` are the summaries of the files. */
  ghost predicate Summaries(fs: seq<File>, ms: seq<FileSummary>) {
    |fs| == |ms| && forall k :: 0 <= k < |fs| ==> IsSummary(fs[k].path, fs[k].name, PartsOf(fs[k].lines), ms[k])
  }

  function AllLines(fs: seq<File>): seq<Line> {
    if fs == [] then [] else AllLines(fs[..|fs| - 1]) + fs[|fs| - 1].lines
  }

  // ---------------------------------------------------------------- message ids

  predicate AtLeastZero(t: Tok) {
    t.input >= 0 && t.output >= 0 && t.cacheRead >= 0 && t.cacheWrite >= 0
  }

  /** The aggregate's value of a category is some line's, or zero. */
  ghost predicate Attained(entries: seq<MsgEntry>, h: Hash, category: Tok -> int) {
    var v := category(AggOf(entries, h).tok);
    v == 0 || exists e :: e in entries && e.id == h && category(e.agg.tok) == v
  }

  /** An aggregate means: the largest value per category over the id's lines, the last named model, and whether
      some line is not a sidechain's. */
  lemma {:induction false} AggregateMeans(entries: seq<MsgEntry>, h: Hash)
    ensures AtLeastZero(AggOf(entries, h).tok)
    ensures forall e :: e in entries && e.id == h ==> AggOf(entries, h).tok == AggOf(entries, h).tok.MaxWith(e.agg.tok)
    ensures AggOf(entries, h).nonSide <==> exists e :: e in entries && e.id == h && e.agg.nonSide
    ensures AggOf(entries, h).model == "" <==> forall e :: e in entries && e.id == h ==> e.agg.model == ""
  {
    if entries != [] {
      var front, last := entries[..|entries| - 1], entries[|entries| - 1];
      AggregateMeans(front, h);
      assert entries == front + [last];
      assert forall e :: e in entries <==> e in front || e == last;
      assert last in entries;
    }
  }

  /** The last line of an id that names a model gives the aggregate its model. */
  lemma {:induction false} LastNamedModelWins(entries: seq<MsgEntry>, h: Hash, k: nat)
    requires k < |entries| && entries[k].id == h && entries[k].agg.model != ""
    requires forall j :: k < j < |entries| && entries[j].id == h ==> entries[j].agg.model == ""
    ensures AggOf(entries, h).model == entries[k].agg.model
  {
    var n := |entries| - 1;
    if k < n { LastNamedModelWins(entries[..n], h, k); }
  }

  /** Each of the four values is taken from a line, or zero. */
  lemma AggregateIsAttained(entries: seq<MsgEntry>, h: Hash)
    ensures Attained(entries, h, (x: Tok) => x.input) && Attained(entries, h, (x: Tok) => x.output)
    ensures Attained(entries, h, (x: Tok) => x.cacheRead) && Attained(entries, h, (x: Tok) => x.cacheWrite)
  {
    CategoryIsAttained(entries, h, (x: Tok) => x.input);
    CategoryIsAttained(entries, h, (x: Tok) => x.output);
    CategoryIsAttained(entries, h, (x: Tok) => x.cacheRead);
    CategoryIsAttained(entries, h, (x: Tok) => x.cacheWrite);
  }

  lemma {:induction false} CategoryIsAttained(entries: seq<MsgEntry>, h: Hash, category: Tok -> int)
    requires category(ZERO) == 0
    requires forall x: Tok, y: Tok :: category(x.MaxWith(y)) == category(x) || category(x.MaxWith(y)) == category(y)
    ensures Attained(entries, h, category)
  {
    if entries != [] {
      var front, last := entries[..|entries| - 1], entries[|entries| - 1];
      CategoryIsAttained(front, h, category);
      assert last in entries;
      if e :| e in front && e.id == h && category(e.agg.tok) == category(AggOf(front, h).tok) {
        assert e in entries;
      }
    }
  }

  lemma {:induction false} AggConcat(a: seq<MsgEntry>, b: seq<MsgEntry>, h: Hash)
    ensures AggOf(a + b, h) == Combine(AggOf(a, h), AggOf(b, h))
    ensures Ids(a + b) == Ids(a) + Ids(b)
  {
    if b == [] {
      assert a + b == a;
      AggregateMeans(a, h);
    } else {
      AggConcat(a, b[..|b| - 1], h);
      assert (a + b)[..|a + b| - 1] == a + b[..|b| - 1];
    }
  }

  predicate DistinctIds(es: seq<MsgEntry>) {
    forall i, j :: 0 <= i < j < |es| ==> es[i].id != es[j].id
  }

  lemma {:induction false} IdsAre(es: seq<MsgEntry>, h: Hash)
    ensures h in Ids(es) <==> exists k :: 0 <= k < |es| && es[k].id == h
    ensures h !in Ids(es) ==> AggOf(es, h) == EMPTY_AGG
  {
    if es != [] { IdsAre(es[..|es| - 1], h); }
  }

  lemma {:induction false} AggOfDistinct(es: seq<MsgEntry>, k: nat)
    requires DistinctIds(es) && k < |es| && AtLeastZero(es[k].agg.tok)
    ensures AggOf(es, es[k].id) == es[k].agg
  {
    var front := es[..|es| - 1];
    IdsAre(front, es[k].id);
    if k < |front| {
      AggOfDistinct(front, k);
    }
  }

  lemma {:induction false} FirstIdsAre(entries: seq<MsgEntry>)
    ensures forall i, j :: 0 <= i < j < |FirstIds(entries)| ==> FirstIds(entries)[i] != FirstIds(entries)[j]
    ensures forall h :: h in FirstIds(entries) <==> h in Ids(entries)
  {
    if entries != [] { FirstIdsAre(entries[..|entries| - 1]); }
  }

  /** A file's folded entries say of each message id what its lines say. */
  lemma FoldKeepsAggregates(entries: seq<MsgEntry>, h: Hash)
    ensures AggOf(Aggregated(entries), h) == AggOf(entries, h)
    ensures h in Ids(Aggregated(entries)) <==> h in Ids(entries)
  {
    var ids, es := FirstIds(entries), Aggregated(entries);
    FirstIdsAre(entries);
    assert forall k :: 0 <= k < |es| ==> es[k].id == ids[k];
    IdsAre(es, h);
    IdsAre(entries, h);
    if h in ids {
      var k :| 0 <= k < |ids| && ids[k] == h;
      assert es[k].id == h;
      AggregateMeans(entries, h);
      AggOfDistinct(es, k);
    }
  }

  // ---------------------------------------------------------------- the union of the lines

  lemma LastFile(fs: seq<File>)
    requires fs != []
    ensures PartsOf(AllLines(fs)) == PartsOf(AllLines(fs[..|fs| - 1])).Join(PartsOf(fs[|fs| - 1].lines))
  {
    PartsConcat(AllLines(fs[..|fs| - 1]), fs[|fs| - 1].lines);
  }

  lemma {:induction false} UnionOfEntries(fs: seq<File>, ms: seq<FileSummary>, h: Hash)
    requires Summaries(fs, ms)
    ensures SameMessage(AllMsgs(ms), PartsOf(AllLines(fs)).entries, h)
  {
    if fs != [] {
      var n := |fs| - 1;
      UnionOfEntries(fs[..n], ms[..n], h);
      LastFile(fs);
      SameMessagesJoin(AllMsgs(ms[..n]), PartsOf(AllLines(fs[..n])).entries, PartsOf(fs[n].lines).entries, h);
    }
  }

  /** The two say the same of one message id. */
  predicate SameMessage(a: seq<MsgEntry>, b: seq<MsgEntry>, h: Hash) {
    AggOf(a, h) == AggOf(b, h) && (h in Ids(a) <==> h in Ids(b))
  }

  lemma SameMessagesJoin(merged: seq<MsgEntry>, direct: seq<MsgEntry>, own: seq<MsgEntry>, h: Hash)
    requires SameMessage(merged, direct, h)
    ensures SameMessage(merged + Aggregated(own), direct + own, h)
  {
    AggConcat(merged, Aggregated(own), h);
    AggConcat(direct, own, h);
    FoldKeepsAggregates(own, h);
  }

  /** The events of members whose parts are `p`. */
  ghost predicate TurnsAre(ms: seq<FileSummary>, p: Parts) {
    TurnsWithoutUuid(ms) == p.anonymous && UsersIn(AllEvents(ms)) == p.turns && IdLessIn(AllEvents(ms)) == p.idLess
  }

  lemma TurnsJoin(ms: seq<FileSummary>, before: Parts, own: Parts, all: Parts)
    requires ms != [] && TurnsAre(ms[..|ms| - 1], before) && all == before.Join(own)
    requires var m := ms[|ms| - 1]; m.userUuids == own.turns && m.userNoUuid == own.anonymous && m.noId == own.idLess
    ensures TurnsAre(ms, all)
  {
    KindsOfMember(AllEvents(ms[..|ms| - 1]), ms[|ms| - 1]);
  }

  lemma {:induction false} UnionOfTurns(fs: seq<File>, ms: seq<FileSummary>)
    requires Summaries(fs, ms)
    ensures TurnsAre(ms, PartsOf(AllLines(fs)))
  {
    if fs != [] {
      var n := |fs| - 1;
      UnionOfTurns(fs[..n], ms[..n]);
      LastFile(fs);
      TurnsJoin(ms, PartsOf(AllLines(fs[..n])), PartsOf(fs[n].lines), PartsOf(AllLines(fs)));
    }
  }

  /** The names of members whose parts are `p`. */
  ghost predicate NamesAre(ms: seq<FileSummary>, p: Parts) {
    FirstCwd(ms) == FirstOf(p.cwds) && FirstBranch(ms) == FirstOf(p.branches) && LastModel(ms) == LastOf(p.models)
  }

  lemma NamesJoin(ms: seq<FileSummary>, before: Parts, own: Parts, all: Parts)
    requires ms != [] && NamesAre(ms[..|ms| - 1], before) && NamedParts(before) && NamedParts(own)
             && all == before.Join(own)
    requires var m := ms[|ms| - 1];
             m.cwd == FirstOf(own.cwds) && m.branch == FirstOf(own.branches) && m.model == LastOf(own.models)
    ensures NamesAre(ms, all) && NamedParts(all)
  {
    FirstNonEmpty(before.cwds, own.cwds);
    FirstNonEmpty(before.branches, own.branches);
    LastNonEmpty(before.models, own.models);
  }

  lemma {:induction false} UnionOfNames(fs: seq<File>, ms: seq<FileSummary>)
    requires Summaries(fs, ms)
    ensures NamesAre(ms, PartsOf(AllLines(fs))) && NamedParts(PartsOf(AllLines(fs)))
  {
    if fs != [] {
      var n := |fs| - 1;
      UnionOfNames(fs[..n], ms[..n]);
      LastFile(fs);
      PartsAreNamed(fs[n].lines);
      NamesJoin(ms, PartsOf(AllLines(fs[..n])), PartsOf(fs[n].lines), PartsOf(AllLines(fs)));
    }
  }

  predicate NamedParts(p: Parts) {
    "" !in p.cwds && "" !in p.branches && "" !in p.models
  }

  lemma {:induction false} PartsAreNamed(lines: seq<Line>)
    ensures NamedParts(PartsOf(lines))
  {
    if lines != [] { PartsAreNamed(lines[..|lines| - 1]); }
  }

  lemma FirstNonEmpty(a: seq<string>, b: seq<string>)
    requires "" !in a && "" !in b
    ensures FirstOf(a + b) == if FirstOf(a) != "" then FirstOf(a) else FirstOf(b)
  {
    assert a == [] || a[0] in a;
    assert a == [] ==> a + b == b;
  }

  lemma LastNonEmpty(a: seq<string>, b: seq<string>)
    requires "" !in a && "" !in b
    ensures LastOf(a + b) == if LastOf(b) != "" then LastOf(b) else LastOf(a)
  {
    assert b == [] || b[|b| - 1] in b;
    assert b == [] ==> a + b == a;
  }

  lemma {:induction false} Extremes(a: seq<Time>, b: seq<Time>)
    requires a != [] && b != []
    ensures Earliest(a + b) == (if Earliest(b) < Earliest(a) then Earliest(b) else Earliest(a))
            && Latest(a + b) == Max(Latest(a), Latest(b))
  {
    var front := b[..|b| - 1];
    assert (a + b)[..|a + b| - 1] == a + front;
    if front != [] {
      Extremes(a, front);
    } else {
      assert a + front == a;
    }
  }

  function LeastFirst(ms: seq<FileSummary>): Time
    requires ms != []
  {
    if |ms| == 1 || LeastFirst(ms[..|ms| - 1]) <= ms[|ms| - 1].first then
      if |ms| == 1 then ms[0].first else LeastFirst(ms[..|ms| - 1])
    else ms[|ms| - 1].first
  }

  ghost predicate DatesAre(ms: seq<FileSummary>, ts: seq<Time>)
    requires ms != []
  {
    ts != [] && LeastFirst(ms) == Earliest(ts) && LastEnd(ms) == Latest(ts)
  }

  lemma DatesJoin(ms: seq<FileSummary>, before: seq<Time>, own: seq<Time>, all: seq<Time>)
    requires ms != [] && all == before + own && if |ms| == 1 then before == [] else DatesAre(ms[..|ms| - 1], before)
    requires own != [] && ms[|ms| - 1].first == Earliest(own) && ms[|ms| - 1].last == Latest(own)
    ensures DatesAre(ms, all)
  {
    if |ms| > 1 {
      Extremes(before, own);
    } else {
      assert all == own;
    }
  }

  lemma {:induction false} UnionOfDates(fs: seq<File>, ms: seq<FileSummary>)
    requires Summaries(fs, ms) && ms != []
    ensures DatesAre(ms, PartsOf(AllLines(fs)).stamps)
  {
    var n := |fs| - 1;
    LastFile(fs);
    if n > 0 {
      UnionOfDates(fs[..n], ms[..n]);
    }
    DatesJoin(ms, PartsOf(AllLines(fs[..n])).stamps, PartsOf(fs[n].lines).stamps, PartsOf(AllLines(fs)).stamps);
  }

  lemma {:induction false} SortedStartsLeast(ms: seq<FileSummary>)
    requires ms != [] && Sorted(ms, MemberLess)
    ensures LeastFirst(ms) == ms[0].first
  {
    if |ms| > 1 {
      SortedStartsLeast(ms[..|ms| - 1]);
      assert !MemberLess(ms[|ms| - 1], ms[0]);
    }
  }

  // ---------------------------------------------------------------- user turns and id-less events

  /** The uuids of the user turns, and the id-less events, among the events. */
  function UsersIn(evs: seq<Event>): seq<Hash> {
    if evs == [] then [] else UsersIn(evs[..|evs| - 1]) + if evs[|evs| - 1].UserTurn? then [evs[|evs| - 1].u] else []
  }

  function IdLessIn(evs: seq<Event>): seq<NoIdEvent> {
    if evs == [] then [] else IdLessIn(evs[..|evs| - 1]) + if evs[|evs| - 1].IdLess? then [evs[|evs| - 1].e] else []
  }

  lemma KindAppended(evs: seq<Event>, ev: Event)
    ensures UsersIn(evs + [ev]) == UsersIn(evs) + if ev.UserTurn? then [ev.u] else []
    ensures IdLessIn(evs + [ev]) == IdLessIn(evs) + if ev.IdLess? then [ev.e] else []
    ensures ev.IdLess? ==> UsersIn(evs + [ev]) == UsersIn(evs)
    ensures ev.UserTurn? ==> IdLessIn(evs + [ev]) == IdLessIn(evs)
  {
    assert (evs + [ev])[..|evs + [ev]| - 1] == evs;
  }

  lemma {:induction false} UsersAppended(evs: seq<Event>, us: seq<Hash>)
    ensures UsersIn(evs + UserEvents(us)) == UsersIn(evs) + us && IdLessIn(evs + UserEvents(us)) == IdLessIn(evs)
  {
    if us == [] {
      assert evs + UserEvents(us) == evs;
    } else {
      var front, u := us[..|us| - 1], us[|us| - 1];
      UsersAppended(evs, front);
      KindAppended(evs + UserEvents(front), UserTurn(u));
      assert evs + UserEvents(us) == (evs + UserEvents(front)) + [UserTurn(u)];
      assert us == front + [u];
    }
  }

  lemma {:induction false} IdLessAppended(evs: seq<Event>, es: seq<NoIdEvent>)
    ensures UsersIn(evs + IdLessEvents(es)) == UsersIn(evs) && IdLessIn(evs + IdLessEvents(es)) == IdLessIn(evs) + es
  {
    if es == [] {
      assert evs + IdLessEvents(es) == evs;
    } else {
      var front, e := es[..|es| - 1], es[|es| - 1];
      IdLessAppended(evs, front);
      KindAppended(evs + IdLessEvents(front), IdLess(e));
      assert evs + IdLessEvents(es) == (evs + IdLessEvents(front)) + [IdLess(e)];
      assert es == front + [e];
    }
  }

  lemma KindsOfMember(evs: seq<Event>, m: FileSummary)
    ensures UsersIn(evs + UserEvents(m.userUuids) + IdLessEvents(m.noId)) == UsersIn(evs) + m.userUuids
    ensures IdLessIn(evs + UserEvents(m.userUuids) + IdLessEvents(m.noId)) == IdLessIn(evs) + m.noId
  {
    UsersAppended(evs, m.userUuids);
    IdLessAppended(evs + UserEvents(m.userUuids), m.noId);
  }

  function SetOf(us: seq<Hash>): set<Hash> {
    if us == [] then {} else SetOf(us[..|us| - 1]) + {us[|us| - 1]}
  }

  function UuidsOf(es: seq<NoIdEvent>): set<Hash> {
    Seen(IdLessEvents(es))
  }

  /** The first event with the uuid is an id-less one. */
  predicate FirstIsIdLess(evs: seq<Event>, u: Hash) {
    if evs == [] then false
    else if u in Seen(evs[..|evs| - 1]) then FirstIsIdLess(evs[..|evs| - 1], u)
    else evs[|evs| - 1].IdLess? && evs[|evs| - 1].e.uuid == Some(u)
  }

  /** User turns whose uuid an id-less event used first. */
  function Stolen(evs: seq<Event>): set<Hash> {
    set u | u in SetOf(UsersIn(evs)) && FirstIsIdLess(evs, u)
  }

  lemma {:induction false} SeenIs(evs: seq<Event>, u: Hash)
    ensures u in Seen(evs) ==> u in SetOf(UsersIn(evs)) || FirstIsIdLess(evs, u)
    ensures u in SetOf(UsersIn(evs)) || FirstIsIdLess(evs, u) ==> u in Seen(evs)
  {
    if evs != [] {
      var front, ev := evs[..|evs| - 1], evs[|evs| - 1];
      SeenIs(front, u);
      assert evs == front + [ev];
      KindAppended(front, ev);
      if ev.UserTurn? { SetGrows(UsersIn(front), ev.u); }
    }
  }

  lemma SetGrows(us: seq<Hash>, u: Hash)
    ensures SetOf(us + [u]) == SetOf(us) + {u}
  {
    assert (us + [u])[..|us + [u]| - 1] == us;
  }

  /** Every distinct user turn is counted but those whose uuid an id-less event used first. */
  lemma {:induction false} UserCountIs(evs: seq<Event>)
    ensures UserCount(evs) + |Stolen(evs)| == |SetOf(UsersIn(evs))|
  {
    if evs != [] {
      var front, ev := evs[..|evs| - 1], evs[|evs| - 1];
      UserCountIs(front);
      assert evs == front + [ev];
      UserCountNext(front, ev);
    }
  }

  lemma UserCountNext(front: seq<Event>, ev: Event)
    requires UserCount(front) + |Stolen(front)| == |SetOf(UsersIn(front))|
    ensures UserCount(front + [ev]) + |Stolen(front + [ev])| == |SetOf(UsersIn(front + [ev]))|
  {
    StolenNext(front, ev);
    EventAppended(front, ev);
    if ev.UserTurn? {
      var users, stolen := SetOf(UsersIn(front)), Stolen(front);
      if ev.u in users {
        assert users + {ev.u} == users;
      } else {
        assert |users + {ev.u}| == |users| + 1;
        assert ev.u in Seen(front) ==> |stolen + {ev.u}| == |stolen| + 1;
      }
    }
  }

  lemma StolenNext(front: seq<Event>, ev: Event)
    ensures ev.IdLess? ==> Stolen(front + [ev]) == Stolen(front) && UsersIn(front + [ev]) == UsersIn(front)
    ensures ev.UserTurn? ==> SetOf(UsersIn(front + [ev])) == SetOf(UsersIn(front)) + {ev.u}
    ensures ev.UserTurn? && ev.u in Seen(front) && ev.u !in SetOf(UsersIn(front)) ==>
              Stolen(front + [ev]) == Stolen(front) + {ev.u} && ev.u !in Stolen(front)
    ensures ev.UserTurn? && (ev.u !in Seen(front) || ev.u in SetOf(UsersIn(front))) ==>
        Stolen(front + [ev]) == Stolen(front)
    ensures ev.UserTurn? && ev.u in SetOf(UsersIn(front)) ==> ev.u in Seen(front)
  {
    var evs := front + [ev];
    KindAppended(front, ev);
    if ev.UserTurn? {
      SetGrows(UsersIn(front), ev.u);
      SeenIs(front, ev.u);
    }
    forall u | u in SetOf(UsersIn(front)) || u in Seen(front) ensures FirstIsIdLess(evs, u) == FirstIsIdLess(front, u) {
      SeenIs(front, u);
      assert evs[..|evs| - 1] == front;
    }
  }

  /** The merge counts each distinct user turn once exactly when no user turn's uuid was used first by an assistant
      line without a message id. */
  lemma UserTurnsExactly(fs: seq<File>, ms: seq<FileSummary>)
    requires Summaries(fs, ms) && ms != []
    ensures var p := PartsOf(AllLines(fs));
            RecordOfSeq(ms).userTurns == |SetOf(p.turns)| + p.anonymous
            <==> forall u :: u in SetOf(p.turns) ==> !FirstIsIdLess(AllEvents(ms), u)
  {
    UnionOfTurns(fs, ms);
    UserCountIs(AllEvents(ms));
    var stolen := Stolen(AllEvents(ms));
    assert stolen == {} <==> |stolen| == 0;
    assert stolen == {} <==> forall u :: u in SetOf(UsersIn(AllEvents(ms))) ==> u !in stolen;
  }

  /** No uuid is on both a user turn and an id-less assistant line. */
  predicate Apart(us: seq<Hash>, es: seq<NoIdEvent>) {
    SetOf(us) !! UuidsOf(es)
  }

  lemma UuidsGrow(es: seq<NoIdEvent>, e: NoIdEvent)
    ensures IdLessEvents(es + [e]) == IdLessEvents(es) + [IdLess(e)]
    ensures UuidsOf(es + [e]) == UuidsOf(es) + UuidSet(IdLess(e))
  {
    assert IdLessEvents(es + [e]) == IdLessEvents(es) + [IdLess(e)];
    SeenGrows(IdLessEvents(es), IdLess(e));
  }

  lemma {:induction false} SeenIsBoth(evs: seq<Event>)
    ensures Seen(evs) == SetOf(UsersIn(evs)) + UuidsOf(IdLessIn(evs))
  {
    if evs != [] {
      var front, ev := evs[..|evs| - 1], evs[|evs| - 1];
      SeenIsBoth(front);
      assert evs == front + [ev];
      KindAppended(front, ev);
      if ev.UserTurn? {
        SetGrows(UsersIn(front), ev.u);
        assert UsersIn(evs) == UsersIn(front) + [ev.u] && IdLessIn(evs) == IdLessIn(front);
      } else {
        UuidsGrow(IdLessIn(front), ev.e);
        assert UsersIn(evs) == UsersIn(front) && IdLessIn(evs) == IdLessIn(front) + [ev.e];
      }
    }
  }

  /** The id-less events of both add up to the same. */
  predicate SameTotals(a: seq<Event>, b: seq<Event>, m: string) {
    IdLessTurns(a) == IdLessTurns(b) && IdLessModels(a) == IdLessModels(b) && IdLessTokens(a, m) == IdLessTokens(b, m)
  }

  lemma UserBetween(front: seq<Event>, alone: seq<Event>, u: Hash, m: string)
    requires SameTotals(front, alone, m)
    ensures SameTotals(front + [UserTurn(u)], alone, m)
  {
    EventAppended(front, UserTurn(u));
    TokensAppended(front, UserTurn(u), m);
    PlusZero(IdLessTokens(front, m));
  }

  lemma SameEventAppended(front: seq<Event>, alone: seq<Event>, e: NoIdEvent, m: string)
    requires SameTotals(front, alone, m) && First(front, IdLess(e)) == First(alone, IdLess(e))
    ensures SameTotals(front + [IdLess(e)], alone + [IdLess(e)], m)
  {
    EventAppended(front, IdLess(e));
    EventAppended(alone, IdLess(e));
    TokensAppended(front, IdLess(e), m);
    TokensAppended(alone, IdLess(e), m);
  }

  /** User turns in between do not change what the id-less events add up to. */
  lemma {:induction false} IdLessAlone(evs: seq<Event>, m: string)
    requires Apart(UsersIn(evs), IdLessIn(evs))
    ensures SameTotals(evs, IdLessEvents(IdLessIn(evs)), m)
  {
    if evs != [] {
      var front, ev := evs[..|evs| - 1], evs[|evs| - 1];
      assert evs == front + [ev];
      KindAppended(front, ev);
      if ev.UserTurn? {
        SetGrows(UsersIn(front), ev.u);
        IdLessAlone(front, m);
        UserBetween(front, IdLessEvents(IdLessIn(front)), ev.u, m);
      } else {
        IdLessAloneStep(front, ev.e);
        IdLessAlone(front, m);
        SameEventAppended(front, IdLessEvents(IdLessIn(front)), ev.e, m);
      }
    }
  }

  lemma IdLessAloneStep(front: seq<Event>, e: NoIdEvent)
    requires Apart(UsersIn(front), IdLessIn(front) + [e])
    ensures Apart(UsersIn(front), IdLessIn(front))
    ensures IdLessEvents(IdLessIn(front) + [e]) == IdLessEvents(IdLessIn(front)) + [IdLess(e)]
    ensures First(front, IdLess(e)) == First(IdLessEvents(IdLessIn(front)), IdLess(e))
  {
    UuidsGrow(IdLessIn(front), e);
    SeenIsBoth(front);
  }

  // ---------------------------------------------------------------- the theorem

  /** A uuid names one event: lines with equal uuids are equal. */
  predicate OneEventPerUuid(lines: seq<Line>) {
    forall i, j :: 0 <= i < |lines| && 0 <= j < |lines| && lines[i].uuid.Some? && lines[i].uuid == lines[j].uuid ==>
      lines[i] == lines[j]
  }

  lemma TurnOfLine(us: seq<Hash>, ln: Line, u: Hash)
    requires u in SetOf(us + UserTurns(ln))
    ensures u in SetOf(us) || (ln.uuid == Some(u) && ln.kind == User)
  {
    if UserTurns(ln) == [] {
      assert us + UserTurns(ln) == us;
    } else {
      SetGrows(us, ln.uuid.value);
    }
  }

  lemma IdLessOfLine(es: seq<NoIdEvent>, ln: Line, u: Hash)
    requires u in UuidsOf(es + IdLessPartOf(ln))
    ensures u in UuidsOf(es) || (ln.uuid == Some(u) && ln.kind == Assistant)
  {
    if IdLessPartOf(ln) == [] {
      assert es + IdLessPartOf(ln) == es;
    } else {
      UuidsGrow(es, IdLessPartOf(ln)[0]);
    }
  }

  predicate HasLine(lines: seq<Line>, u: Hash, kind: Kind) {
    exists k :: 0 <= k < |lines| && lines[k].uuid == Some(u) && lines[k].kind == kind
  }

  lemma {:induction false} TurnsComeFromLines(lines: seq<Line>, u: Hash)
    requires u in SetOf(PartsOf(lines).turns)
    ensures HasLine(lines, u, User)
  {
    var front, ln := lines[..|lines| - 1], lines[|lines| - 1];
    TurnOfLine(PartsOf(front).turns, ln, u);
    if u in SetOf(PartsOf(front).turns) {
      TurnsComeFromLines(front, u);
      var k :| 0 <= k < |front| && front[k].uuid == Some(u) && front[k].kind == User;
      assert lines[k] == front[k];
    } else {
      assert lines[|lines| - 1] == ln;
    }
  }

  lemma {:induction false} IdLessComeFromLines(lines: seq<Line>, u: Hash)
    requires u in UuidsOf(PartsOf(lines).idLess)
    ensures HasLine(lines, u, Assistant)
  {
    var front, ln := lines[..|lines| - 1], lines[|lines| - 1];
    IdLessOfLine(PartsOf(front).idLess, ln, u);
    if u in UuidsOf(PartsOf(front).idLess) {
      IdLessComeFromLines(front, u);
      var k :| 0 <= k < |front| && front[k].uuid == Some(u) && front[k].kind == Assistant;
      assert lines[k] == front[k];
    } else {
      assert lines[|lines| - 1] == ln;
    }
  }

  lemma OneEventKeepsApart(lines: seq<Line>)
    requires OneEventPerUuid(lines)
    ensures Apart(PartsOf(lines).turns, PartsOf(lines).idLess)
  {
    forall u | u in SetOf(PartsOf(lines).turns) ensures u !in UuidsOf(PartsOf(lines).idLess) {
      TurnsComeFromLines(lines, u);
      if u in UuidsOf(PartsOf(lines).idLess) {
        IdLessComeFromLines(lines, u);
        assert false;
      }
    }
  }

  lemma SameMessages(a: seq<MsgEntry>, b: seq<MsgEntry>)
    requires forall h :: SameMessage(a, b, h)
    ensures Ids(a) == Ids(b) && TurnIds(a, Ids(a)) == TurnIds(b, Ids(b)) && IdModels(a, Ids(a)) == IdModels(b, Ids(b))
  {
    forall h ensures h in Ids(a) <==> h in Ids(b) {
      assert SameMessage(a, b, h);
    }
    forall h ensures AggOf(a, h) == AggOf(b, h) {
      assert SameMessage(a, b, h);
    }
  }

  lemma SameIdTokens(a: seq<MsgEntry>, b: seq<MsgEntry>, m: string)
    requires forall h :: SameMessage(a, b, h)
    ensures IdTokens(a, Ids(a), m) == IdTokens(b, Ids(b), m)
  {
    SameMessages(a, b);
    forall h ensures TokFor(a, h, m) == TokFor(b, h, m) {
      assert SameMessage(a, b, h);
    }
    SumsAgree(Ids(a), h => TokFor(a, h, m), h => TokFor(b, h, m));
  }

  lemma SameModelTokens(evs: seq<Event>, alone: seq<Event>, a: seq<MsgEntry>, b: seq<MsgEntry>)
    requires forall m :: SameTotals(evs, alone, m)
    requires forall h :: SameMessage(a, b, h)
    ensures ModelTokensOf(evs, a) == ModelTokensOf(alone, b)
  {
    assert SameTotals(evs, alone, "");
    SameMessages(a, b);
    forall m ensures IdLessTokens(evs, m).Plus(IdTokens(a, Ids(a), m))
      == IdLessTokens(alone, m).Plus(IdTokens(b, Ids(b), m)) {
      assert SameTotals(evs, alone, m);
      SameIdTokens(a, b, m);
    }
  }

  /** The turns and the tokens of events and entries with user turns and id-less events apart. */
  lemma EventsAreDirect(evs: seq<Event>, entries: seq<MsgEntry>, p: Parts)
    requires UsersIn(evs) == p.turns && IdLessIn(evs) == p.idLess && Apart(p.turns, p.idLess)
    requires forall h :: SameMessage(entries, p.entries, h)
    ensures UserCount(evs) == |SetOf(p.turns)|
    ensures IdLessTurns(evs) == IdLessTurns(IdLessEvents(p.idLess))
    ensures TurnIds(entries, Ids(entries)) == TurnIds(p.entries, Ids(p.entries))
    ensures ModelTokensOf(evs, entries) == ModelTokensOf(IdLessEvents(p.idLess), p.entries)
  {
    SameMessages(entries, p.entries);
    forall m ensures SameTotals(evs, IdLessEvents(p.idLess), m) { IdLessAlone(evs, m); }
    assert SameTotals(evs, IdLessEvents(p.idLess), "");
    SameModelTokens(evs, IdLessEvents(p.idLess), entries, p.entries);
    NothingStolen(evs);
    UserCountIs(evs);
  }

  /** The record is the direct reading of the lines: every user turn, message and id-less event once, the largest tokens
      per message, the earliest and the latest time. */
  ghost predicate IsDirect(r: SessionRecord, lines: seq<Line>) {
    var p := PartsOf(lines);
    && p.stamps != [] && r.startedAt == Earliest(p.stamps) && r.endedAt == Latest(p.stamps)
    && r.cwd == FirstOf(p.cwds) && r.branch == FirstOf(p.branches) && r.model == LastOf(p.models)
    && r.userTurns == |SetOf(p.turns)| + p.anonymous
    && r.assistantTurns == IdLessTurns(IdLessEvents(p.idLess)) + |TurnIds(p.entries, Ids(p.entries))|
    && r.modelTokens == ModelTokensOf(IdLessEvents(p.idLess), p.entries)
  }

  /** Members in their sorted order, one event per uuid: the record is the direct reading of all the lines. */
  lemma FoldThenMergeIsDirect(fs: seq<File>, ms: seq<FileSummary>)
    requires Summaries(fs, ms) && ms != [] && Sorted(ms, MemberLess) && OneEventPerUuid(AllLines(fs))
    ensures IsDirect(RecordOfSeq(ms), AllLines(fs))
  {
    UnionOfDates(fs, ms);
    SortedStartsLeast(ms);
    UnionOfNames(fs, ms);
    OneEventKeepsApart(AllLines(fs));
    forall h ensures SameMessage(AllMsgs(ms), PartsOf(AllLines(fs)).entries, h) { UnionOfEntries(fs, ms, h); }
    UnionOfTurns(fs, ms);
    EventsAreDirect(AllEvents(ms), AllMsgs(ms), PartsOf(AllLines(fs)));
  }

  lemma {:induction false} FirstIdLessIsIdLess(evs: seq<Event>, u: Hash)
    requires FirstIsIdLess(evs, u)
    ensures u in UuidsOf(IdLessIn(evs))
  {
    var front, ev := evs[..|evs| - 1], evs[|evs| - 1];
    assert evs == front + [ev];
    KindAppended(front, ev);
    if ev.IdLess? { UuidsGrow(IdLessIn(front), ev.e); }
    if u in Seen(front) {
      FirstIdLessIsIdLess(front, u);
    }
  }

  lemma NothingStolen(evs: seq<Event>)
    requires Apart(UsersIn(evs), IdLessIn(evs))
    ensures Stolen(evs) == {}
  {
    forall u | u in SetOf(UsersIn(evs)) ensures !FirstIsIdLess(evs, u) {
      if FirstIsIdLess(evs, u) {
        FirstIdLessIsIdLess(evs, u);
        assert false;
      }
    }
  }
}

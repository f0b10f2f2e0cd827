/** Two implementations of one rule: the token sums of the rollup and OutputTally's count of output tokens. */
module OutputTally {
  import opened Wrappers
  import opened Tokens
  import opened SessionTypes
  import opened MergeSession
  import opened TranscriptFold
  import opened FoldThenMerge

  // ---------------------------------------------------------------- a record's tokens

  /** The tokens of the id-less events, each first occurrence once. */
  function IdLessTotal(evs: seq<Event>): Tok {
    if evs == [] then ZERO
    else
      var before, ev := evs[..|evs| - 1], evs[|evs| - 1];
      IdLessTotal(before).Plus(EventTok(before, ev))
  }

  function EventTok(before: seq<Event>, ev: Event): Tok {
    if ev.IdLess? && First(before, ev) then ev.e.tok else ZERO
  }

  /** The tokens of the message ids over the models. */
  ghost function IdSum(entries: seq<MsgEntry>, ids: set<Hash>, models: set<string>): Tok {
    SumOver(models, m => IdTokens(entries, ids, m))
  }

  ghost function AggSum(entries: seq<MsgEntry>, ids: set<Hash>): Tok {
    SumOver(ids, h => AggOf(entries, h).tok)
  }

  lemma {:induction false} SumOverIds(entries: seq<MsgEntry>, ids: set<Hash>, models: set<string>)
    requires IdModels(entries, ids) <= models
    ensures IdSum(entries, ids, models) == AggSum(entries, ids)
    decreases |ids|
  {
    if ids == {} {
      SumOfZeros(models, m => IdTokens(entries, ids, m));
    } else {
      var h :| h in ids;
      var rest := ids - {h};
      assert rest + {h} == ids;
      IdModelsAdd(entries, rest, h);
      SumOverIds(entries, rest, models);
      IdSumAdds(entries, rest, h, models);
      OneIdOverModels(entries, h, models);
      SumAdds(rest, x => AggOf(entries, x).tok, h);
    }
  }

  lemma IdSumAdds(entries: seq<MsgEntry>, rest: set<Hash>, h: Hash, models: set<string>)
    requires h !in rest
    ensures IdSum(entries, rest + {h}, models)
        == IdSum(entries, rest, models).Plus(SumOver(models, m => TokFor(entries, h, m)))
  {
    forall m ensures IdTokens(entries, rest + {h}, m) == IdTokens(entries, rest, m).Plus(TokFor(entries, h, m)) {
      IdTokensAdd(entries, rest, h, m);
    }
    SumOfSums(models, m => IdTokens(entries, rest, m), m => TokFor(entries, h, m),
      m => IdTokens(entries, rest + {h}, m));
  }

  /** A message id is attributed to one model. */
  lemma OneIdOverModels(entries: seq<MsgEntry>, h: Hash, models: set<string>)
    requires !AggOf(entries, h).tok.IsZero() ==> AggOf(entries, h).model in models
    ensures SumOver(models, m => TokFor(entries, h, m)) == AggOf(entries, h).tok
  {
    if AggOf(entries, h).model in models {
      SumOfOne(models, m => TokFor(entries, h, m), AggOf(entries, h).model);
    } else {
      SumOfZeros(models, m => TokFor(entries, h, m));
    }
  }

  lemma {:induction false} SumOverEvents(evs: seq<Event>, models: set<string>)
    requires IdLessModels(evs) <= models
    ensures SumOver(models, m => IdLessTokens(evs, m)) == IdLessTotal(evs)
  {
    if evs == [] {
      SumOfZeros(models, m => IdLessTokens(evs, m));
    } else {
      var before, ev := evs[..|evs| - 1], evs[|evs| - 1];
      SumOverEvents(before, models);
      SumOfSums(models, m => IdLessTokens(before, m), m => IdLessPart(before, ev, m), m => IdLessTokens(evs, m));
      if ev.IdLess? && ev.e.model in models {
        SumOfOne(models, m => IdLessPart(before, ev, m), ev.e.model);
      } else {
        SumOfZeros(models, m => IdLessPart(before, ev, m));
      }
    }
  }

  /** A record's tokens count every message id and every distinct id-less event once, however the models split them. */
  lemma TokensCountEachOnce(ms: seq<FileSummary>)
    requires ms != []
    ensures RecordOfSeq(ms).tokens
         == IdLessTotal(AllEvents(ms)).Plus(AggSum(AllMsgs(ms), Ids(AllMsgs(ms))))
  {
    var evs, entries := AllEvents(ms), AllMsgs(ms);
    var ids, perModel := Ids(entries), ModelTokensOf(evs, entries);
    var models := perModel.Keys;
    SumOverIds(entries, ids, models);
    SumOverEvents(evs, models);
    SumOfSums(models, m => IdLessTokens(evs, m), m => IdTokens(entries, ids, m), m => Get(perModel, m));
  }

  // ---------------------------------------------------------------- OutputTally

  function OutputOf(e: MsgEntry): int { e.agg.tok.output }

  /** The largest output of the message id's lines, at least zero. */
  function LargestOutput(entries: seq<MsgEntry>, h: Hash): int {
    if entries == [] then 0
    else
      var before, e := LargestOutput(entries[..|entries| - 1], h), entries[|entries| - 1];
      if e.id == h then Max(before, OutputOf(e)) else before
  }

  function IdLessOutput(es: seq<NoIdEvent>): int {
    if es == [] then 0 else IdLessOutput(es[..|es| - 1]) + es[|es| - 1].tok.output
  }

  class Tally {
    var perId: map<Hash, int>
    var noId: int
    /** What was added so far. */
    ghost var entries: seq<MsgEntry>
    ghost var idLess: seq<NoIdEvent>

    ghost predicate Valid()
      reads this
    {
      && noId == IdLessOutput(idLess)
      && (forall h :: h in perId ==> h in Ids(entries) && perId[h] == LargestOutput(entries, h) > 0)
      && (forall h :: h !in perId ==> LargestOutput(entries, h) == 0)
    }

    constructor ()
      ensures Valid() && entries == [] && idLess == []
    {
      perId, noId, entries, idLess := map[], 0, [], [];
    }

    /** Folds an assistant line in: the entry or the id-less event it is. */
    method Add(ln: Line)
      requires Valid() && ln.kind == Assistant
      modifies this
      ensures Valid() && entries == old(entries) + Entry(ln) && idLess == old(idLess) + IdLessPartOf(ln)
    {
      var m := MessageOf(ln);
      var output := m.tok.output;
      if m.id.None? {
        ghost var e := IdLessPartOf(ln)[0];
        assert (idLess + [e])[..|idLess + [e]| - 1] == idLess;
        noId := noId + output;
        idLess := idLess + IdLessPartOf(ln);
        assert entries + Entry(ln) == entries;
        return;
      }
      var h := m.id.value;
      LargestNext(entries, Entry(ln)[0]);
      if output > (if h in perId then perId[h] else 0) {
        perId := perId[h := output];
      }
      entries := entries + Entry(ln);
      assert idLess + IdLessPartOf(ln) == idLess;
    }

    /** The tally of everything added; the map yields its ids in any order. */
    method Total() returns (total: int)
      requires Valid()
      ensures total == IdLessOutput(idLess) + OutputSum(entries, Ids(entries)).output
    {
      total := noId;
      var todo := perId.Keys;
      ghost var done: set<Hash> := {};
      OutputSumAdds(entries, {}, 0);
      while todo != {}
        invariant done !! todo && done + todo == perId.Keys
        invariant total == noId + OutputSum(entries, done).output
        decreases todo
      {
        var h :| h in todo;
        OutputSumAdds(entries, done, h);
        total := total + perId[h];
        done, todo := done + {h}, todo - {h};
      }
      assert done == perId.Keys;
      SumOfPositive(entries, perId.Keys, Ids(entries));
    }
  }

  ghost function OutputSum(entries: seq<MsgEntry>, ids: set<Hash>): Tok {
    SumOver(ids, h => OnlyOutput(LargestOutput(entries, h)))
  }

  lemma OutputSumAdds(entries: seq<MsgEntry>, ids: set<Hash>, h: Hash)
    ensures h !in ids ==>
              OutputSum(entries, ids + {h}).output == OutputSum(entries, ids).output + LargestOutput(entries, h)
    ensures OutputSum(entries, {}) == ZERO
  {
    if h !in ids { SumAdds(ids, h => OnlyOutput(LargestOutput(entries, h)), h); }
  }

  function OnlyOutput(n: int): Tok {
    Tok(0, n, 0, 0)
  }

  lemma LargestNext(entries: seq<MsgEntry>, e: MsgEntry)
    ensures forall h :: LargestOutput(entries + [e], h) == if h == e.id
        then Max(LargestOutput(entries, h), OutputOf(e)) else LargestOutput(entries, h)
    ensures Ids(entries + [e]) == Ids(entries) + {e.id}
  {
    assert (entries + [e])[..|entries + [e]| - 1] == entries;
  }

  /** Ids left out for adding nothing do not change the sum. */
  lemma {:induction false} SumOfPositive(entries: seq<MsgEntry>, some: set<Hash>, all: set<Hash>)
    requires some <= all && forall h :: h in all && h !in some ==> LargestOutput(entries, h) == 0
    ensures OutputSum(entries, some).output == OutputSum(entries, all).output
    decreases |all - some|
  {
    if h :| h in all && h !in some {
      SumOfPositive(entries, some + {h}, all);
      OutputSumAdds(entries, some, h);
    } else {
      assert some == all;
    }
  }

  lemma NotAssistant(lines: seq<Line>, k: nat)
    requires k < |lines| && lines[k].kind != Assistant
    ensures PartsOf(lines[..k + 1]).entries == PartsOf(lines[..k]).entries
            && PartsOf(lines[..k + 1]).idLess == PartsOf(lines[..k]).idLess
  {
    PrefixParts(lines, k);
    var p := PartsOf(lines[..k]);
    assert p.entries + [] == p.entries && p.idLess + [] == p.idLess;
  }

  /** OutputTokens: only assistant lines are added. */
  method OutputTokens(lines: seq<Line>, ghost parts: Parts) returns (total: int)
    requires parts == PartsOf(lines)
    ensures total == OutputTotal(parts)
  {
    var tally := new Tally();
    ghost var done := PartsOf(lines[..0]);
    for k := 0 to |lines|
      invariant tally.Valid() && fresh(tally)
      invariant done == PartsOf(lines[..k]) && tally.entries == done.entries && tally.idLess == done.idLess
    {
      PrefixParts(lines, k);
      done := PartsOf(lines[..k + 1]);
      if lines[k].kind != Assistant {
        NotAssistant(lines, k);
        continue;
      }
      tally.Add(lines[k]);
    }
    assert lines[..|lines|] == lines;
    total := tally.Total();
  }

  /** One count per message id and one per id-less line. */
  ghost function OutputTotal(p: Parts): int {
    IdLessOutput(p.idLess) + OutputSum(p.entries, Ids(p.entries)).output
  }

  // ---------------------------------------------------------------- the two agree

  lemma {:induction false} LargestIsAggregate(entries: seq<MsgEntry>, h: Hash)
    ensures LargestOutput(entries, h) == AggOf(entries, h).tok.output
  {
    if entries != [] { LargestIsAggregate(entries[..|entries| - 1], h); }
  }

  lemma {:induction false} SameOutputs(merged: seq<MsgEntry>, entries: seq<MsgEntry>, ids: set<Hash>)
    requires forall h :: SameMessage(merged, entries, h)
    ensures AggSum(merged, ids).output == OutputSum(entries, ids).output
    decreases |ids|
  {
    if ids != {} {
      var h :| h in ids;
      SumTakes(ids, h => AggOf(merged, h).tok, h);
      SumTakes(ids, h => OnlyOutput(LargestOutput(entries, h)), h);
      assert SameMessage(merged, entries, h);
      LargestIsAggregate(entries, h);
      SameOutputs(merged, entries, ids - {h});
    }
  }

  /** No two id-less lines share a uuid. */
  predicate DistinctUuids(es: seq<NoIdEvent>) {
    forall i, j :: 0 <= i < j < |es| && es[i].uuid.Some? ==> es[i].uuid != es[j].uuid
  }

  lemma {:induction false} InUuids(es: seq<NoIdEvent>, u: Hash)
    requires u in UuidsOf(es)
    ensures exists k :: 0 <= k < |es| && es[k].uuid == Some(u)
  {
    var front, e := es[..|es| - 1], es[|es| - 1];
    assert es == front + [e];
    UuidsGrow(front, e);
    if u in UuidsOf(front) {
      InUuids(front, u);
      var k :| 0 <= k < |front| && front[k].uuid == Some(u);
      assert es[k].uuid == Some(u);
    }
  }

  lemma {:induction false} DistinctEventsAllCount(es: seq<NoIdEvent>)
    requires DistinctUuids(es)
    ensures IdLessTotal(IdLessEvents(es)).output == IdLessOutput(es)
  {
    if es != [] {
      var front, e := es[..|es| - 1], es[|es| - 1];
      assert es == front + [e];
      DistinctEventsAllCount(front);
      UuidsGrow(front, e);
      if e.uuid.Some? && e.uuid.value in UuidsOf(front) {
        InUuids(front, e.uuid.value);
        assert false;
      }
      TotalAppended(IdLessEvents(front), IdLess(e));
    }
  }

  lemma TotalAppended(evs: seq<Event>, ev: Event)
    ensures IdLessTotal(evs + [ev]) == IdLessTotal(evs).Plus(EventTok(evs, ev))
  {
    assert (evs + [ev])[..|evs + [ev]| - 1] == evs;
  }

  lemma {:induction false} TotalAlone(evs: seq<Event>)
    requires Apart(UsersIn(evs), IdLessIn(evs))
    ensures IdLessTotal(evs) == IdLessTotal(IdLessEvents(IdLessIn(evs)))
  {
    if evs != [] {
      var front, ev := evs[..|evs| - 1], evs[|evs| - 1];
      assert evs == front + [ev];
      KindAppended(front, ev);
      TotalAppended(front, ev);
      if ev.UserTurn? {
        SetGrows(UsersIn(front), ev.u);
        TotalAlone(front);
        PlusZero(IdLessTotal(front));
      } else {
        IdLessAloneStep(front, ev.e);
        TotalAlone(front);
        TotalAppended(IdLessEvents(IdLessIn(front)), ev);
      }
    }
  }

  /** Id-less events among user turns: all of them count when no uuid comes twice. */
  lemma EventsAllCount(evs: seq<Event>, p: Parts)
    requires UsersIn(evs) == p.turns && IdLessIn(evs) == p.idLess && Apart(p.turns, p.idLess) && DistinctUuids(p.idLess)
    ensures IdLessTotal(evs).output == IdLessOutput(p.idLess)
  {
    TotalAlone(evs);
    DistinctEventsAllCount(p.idLess);
  }

  lemma OnlyFile(f: File)
    ensures PartsOf(AllLines([f])) == PartsOf(f.lines)
  {
    assert [f][..0] == [];
    assert AllLines([f]) == f.lines;
  }

  /** For one dated file whose events have distinct uuids, the rollup's output tokens are OutputTally's total. */
  lemma OneFileAgreesWithTally(f: File, s: FileSummary)
    requires IsSummary(f.path, f.name, PartsOf(f.lines), s)
    requires var p := PartsOf(f.lines); Apart(p.turns, p.idLess) && DistinctUuids(p.idLess)
    ensures RecordOfSeq([s]).tokens.output == OutputTotal(PartsOf(f.lines))
  {
    var p := PartsOf(f.lines);
    OnlyFile(f);
    UnionOfTurns([f], [s]);
    EventsAllCount(AllEvents([s]), p);
    forall h ensures SameMessage(AllMsgs([s]), p.entries, h) { UnionOfEntries([f], [s], h); }
    SameMessages(AllMsgs([s]), p.entries);
    SameOutputs(AllMsgs([s]), p.entries, Ids(p.entries));
    TokensCountEachOnce([s]);
  }
}

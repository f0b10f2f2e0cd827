/** What the merge drops because one set of seen uuids serves user turns and assistant lines without a message id. */
module SharedUuids {
  import opened Wrappers
  import opened Tokens
  import opened SessionTypes
  import opened MergeSession
  import opened TranscriptFold
  import opened MergeSessions
  import opened FoldThenMerge
  import opened Sessions

  /** The first id-less event of each uuid that an earlier user turn has. */
  function Dropped(evs: seq<Event>): seq<NoIdEvent> {
    if evs == [] then []
    else
      var front, ev := evs[..|evs| - 1], evs[|evs| - 1];
      Dropped(front) + if IsDropped(front, ev) then [ev.e] else []
  }

  predicate IsDropped(front: seq<Event>, ev: Event) {
    ev.IdLess? && !First(front, ev) && First(Alone(front), ev)
  }

  /** The id-less events without the user turns between them. */
  function Alone(evs: seq<Event>): seq<Event> {
    IdLessEvents(IdLessIn(evs))
  }

  function TurnsOf(es: seq<NoIdEvent>): nat {
    if es == [] then 0 else TurnsOf(es[..|es| - 1]) + if es[|es| - 1].sidechain then 0 else 1
  }

  function TokensFor(es: seq<NoIdEvent>, model: string): Tok {
    if es == [] then ZERO
    else
      var e := es[|es| - 1];
      TokensFor(es[..|es| - 1], model).Plus(if e.model == model then e.tok else ZERO)
  }

  function ModelsOf(es: seq<NoIdEvent>): set<string> {
    if es == [] then {}
    else ModelsOf(es[..|es| - 1]) + if es[|es| - 1].tok.IsZero() then {} else {es[|es| - 1].model}
  }

  lemma Appended(es: seq<NoIdEvent>, e: NoIdEvent)
    ensures TurnsOf(es + [e]) == TurnsOf(es) + if e.sidechain then 0 else 1
    ensures forall m :: TokensFor(es + [e], m) == TokensFor(es, m).Plus(if e.model == m then e.tok else ZERO)
    ensures ModelsOf(es + [e]) == ModelsOf(es) + if e.tok.IsZero() then {} else {e.model}
  {
    assert (es + [e])[..|es + [e]| - 1] == es;
  }

  // ---------------------------------------------------------------- conservation

  /** What is counted and what is dropped is what there is, of one model. */
  predicate Conserved(evs: seq<Event>, dropped: seq<NoIdEvent>, alone: seq<Event>, m: string) {
    && IdLessTurns(evs) + TurnsOf(dropped) == IdLessTurns(alone)
    && IdLessTokens(evs, m).Plus(TokensFor(dropped, m)) == IdLessTokens(alone, m)
    && IdLessModels(evs) + ModelsOf(dropped) == IdLessModels(alone)
  }

  lemma AloneFirst(front: seq<Event>, e: NoIdEvent)
    ensures First(front, IdLess(e)) ==> First(Alone(front), IdLess(e))
    ensures Alone(front + [IdLess(e)]) == Alone(front) + [IdLess(e)]
  {
    SeenIsBoth(front);
    KindAppended(front, IdLess(e));
    UuidsGrow(IdLessIn(front), e);
  }

  lemma IdLessConserved(front: seq<Event>, dropped: seq<NoIdEvent>, e: NoIdEvent, m: string)
    requires Conserved(front, dropped, Alone(front), m)
    ensures Conserved(front + [IdLess(e)], dropped + if IsDropped(front, IdLess(e)) then [e] else [],
              Alone(front) + [IdLess(e)], m)
  {
    AloneFirst(front, e);
    EventAppended(front, IdLess(e));
    EventAppended(Alone(front), IdLess(e));
    TokensAppended(front, IdLess(e), m);
    TokensAppended(Alone(front), IdLess(e), m);
    PlusZero(IdLessTokens(front, m));
    if IsDropped(front, IdLess(e)) {
      Appended(dropped, e);
    } else {
      assert dropped + [] == dropped;
    }
  }

  lemma UserConserved(front: seq<Event>, dropped: seq<NoIdEvent>, u: Hash, alone: seq<Event>, m: string)
    requires Conserved(front, dropped, alone, m)
    ensures Conserved(front + [UserTurn(u)], dropped, alone, m)
  {
    EventAppended(front, UserTurn(u));
    TokensAppended(front, UserTurn(u), m);
    PlusZero(IdLessTokens(front, m));
  }

  lemma DroppedNext(front: seq<Event>, ev: Event)
    ensures Dropped(front + [ev]) == Dropped(front) + if IsDropped(front, ev) then [ev.e] else []
  {
    assert (front + [ev])[..|front + [ev]| - 1] == front;
  }

  lemma ConservedNext(front: seq<Event>, ev: Event, evs: seq<Event>, m: string)
    requires evs == front + [ev] && Conserved(front, Dropped(front), Alone(front), m)
    ensures Conserved(evs, Dropped(evs), Alone(evs), m)
  {
    DroppedNext(front, ev);
    match ev {
      case IdLess(e) =>
        AloneFirst(front, e);
        IdLessConserved(front, Dropped(front), e, m);
      case UserTurn(u) =>
        KindAppended(front, ev);
        assert Dropped(front) + [] == Dropped(front);
        UserConserved(front, Dropped(front), u, Alone(front), m);
    }
  }

  lemma NothingConserved(m: string)
    ensures Conserved([], [], [], m)
  {
    PlusZero(ZERO);
  }

  lemma {:induction false} EventsConserved(evs: seq<Event>, m: string)
    ensures Conserved(evs, Dropped(evs), Alone(evs), m)
  {
    if evs == [] {
      assert Dropped(evs) == [] && Alone(evs) == [];
      NothingConserved(m);
    } else {
      var n := |evs| - 1;
      EventsConserved(evs[..n], m);
      ConservedNext(evs[..n], evs[n], evs, m);
    }
  }

  // ---------------------------------------------------------------- when nothing is dropped

  lemma FirstStays(front: seq<Event>, ev: Event, u: Hash)
    requires u in Seen(front)
    ensures FirstIsIdLess(front + [ev], u) == FirstIsIdLess(front, u)
  {
    assert (front + [ev])[..|front + [ev]| - 1] == front;
  }

  lemma IdLessDropped(front: seq<Event>, e: NoIdEvent)
    ensures IsDropped(front, IdLess(e)) <==>
              e.uuid.Some? && e.uuid.value !in FoldThenMerge.UuidsOf(IdLessIn(front))
              && !FirstIsIdLess(front + [IdLess(e)], e.uuid.value)
  {
    var evs := front + [IdLess(e)];
    assert evs[..|evs| - 1] == front;
    SeenIsBoth(front);
    if e.uuid.Some? && FirstIsIdLess(front, e.uuid.value) { FirstIdLessIsIdLess(front, e.uuid.value); }
  }

  /** Nothing is dropped if and only if no id-less event's uuid was used first by a user turn. */
  lemma {:induction false} DroppedIffUserFirst(evs: seq<Event>)
    ensures Dropped(evs) == [] <==> forall u :: u in FoldThenMerge.UuidsOf(IdLessIn(evs)) ==> FirstIsIdLess(evs, u)
  {
    if evs != [] {
      var front, ev := evs[..|evs| - 1], evs[|evs| - 1];
      assert evs == front + [ev];
      DroppedIffUserFirst(front);
      DroppedNext(front, ev);
      SeenIsBoth(front);
      KindAppended(front, ev);
      forall u | u in FoldThenMerge.UuidsOf(IdLessIn(front)) ensures FirstIsIdLess(evs, u) == FirstIsIdLess(front, u) {
        FirstStays(front, ev, u);
      }
      if ev.IdLess? {
        UuidsGrow(IdLessIn(front), ev.e);
        IdLessDropped(front, ev.e);
      }
    }
  }

  lemma {:induction false} NoTurnsIff(es: seq<NoIdEvent>)
    ensures TurnsOf(es) == 0 <==> forall e :: e in es ==> e.sidechain
  {
    if es != [] {
      NoTurnsIff(es[..|es| - 1]);
      assert es == es[..|es| - 1] + [es[|es| - 1]];
    }
  }

  lemma {:induction false} ZeroTokens(es: seq<NoIdEvent>, m: string)
    requires forall e :: e in es ==> e.tok == ZERO
    ensures TokensFor(es, m) == ZERO && ModelsOf(es) == {}
  {
    if es != [] { ZeroTokens(es[..|es| - 1], m); }
  }

  /** Tokens that are not negative add up to zero only if each is zero. */
  lemma {:induction false} TokensAreZero(es: seq<NoIdEvent>, e: NoIdEvent)
    requires forall x :: x in es ==> AtLeastZero(x.tok)
    ensures AtLeastZero(TokensFor(es, e.model))
    ensures e in es && TokensFor(es, e.model) == ZERO ==> e.tok == ZERO
  {
    if es != [] {
      TokensAreZero(es[..|es| - 1], e);
      assert es == es[..|es| - 1] + [es[|es| - 1]];
      assert es[|es| - 1] in es;
    }
  }

  // ---------------------------------------------------------------- the record

  /** The merge counts the turns of id-less lines once each but for those whose uuid a user turn used first: exactly
      when
      all of these are sidechains', and in any case if there are none. */
  lemma AssistantTurnsExactly(fs: seq<File>, ms: seq<FileSummary>)
    requires Summaries(fs, ms) && ms != []
    ensures var p, dropped := PartsOf(AllLines(fs)), Dropped(AllEvents(ms));
            var direct := IdLessTurns(IdLessEvents(p.idLess)) + |TurnIds(p.entries, Ids(p.entries))|;
            && RecordOfSeq(ms).assistantTurns + TurnsOf(dropped) == direct
            && (RecordOfSeq(ms).assistantTurns == direct <==> forall e :: e in dropped ==> e.sidechain)
            && (dropped == [] <==> forall u :: u in FoldThenMerge.UuidsOf(p.idLess) ==> FirstIsIdLess(AllEvents(ms), u))
  {
    var p := PartsOf(AllLines(fs));
    UnionOfTurns(fs, ms);
    forall h ensures SameMessage(AllMsgs(ms), p.entries, h) { UnionOfEntries(fs, ms, h); }
    SameMessages(AllMsgs(ms), p.entries);
    EventsConserved(AllEvents(ms), "");
    NoTurnsIff(Dropped(AllEvents(ms)));
    DroppedIffUserFirst(AllEvents(ms));
  }

  lemma {:induction false} NoModelNoTokens(evs: seq<Event>, m: string)
    ensures m !in IdLessModels(evs) ==> IdLessTokens(evs, m) == ZERO
  {
    if evs != [] { NoModelNoTokens(evs[..|evs| - 1], m); }
  }

  lemma GetIsTotal(evs: seq<Event>, entries: seq<MsgEntry>, m: string)
    ensures Get(ModelTokensOf(evs, entries), m) == IdLessTokens(evs, m).Plus(IdTokens(entries, Ids(entries), m))
  {
    if m !in IdLessModels(evs) + IdModels(entries, Ids(entries)) {
      NoModelNoTokens(evs, m);
      forall h | h in Ids(entries) ensures TokFor(entries, h, m) == ZERO {}
      SumOfZeros(Ids(entries), h => TokFor(entries, h, m));
    }
  }

  lemma TotalsConserved(evs: seq<Event>, msgs: seq<MsgEntry>, entries: seq<MsgEntry>, m: string)
    requires forall h :: SameMessage(msgs, entries, h)
    ensures Get(ModelTokensOf(evs, msgs), m).Plus(TokensFor(Dropped(evs), m))
         == Get(ModelTokensOf(Alone(evs), entries), m)
  {
    SameIdTokens(msgs, entries, m);
    SameMessages(msgs, entries);
    EventsConserved(evs, m);
    GetIsTotal(evs, msgs, m);
    GetIsTotal(Alone(evs), entries, m);
    Regrouped(Get(ModelTokensOf(evs, msgs), m), Get(ModelTokensOf(Alone(evs), entries), m), IdLessTokens(evs, m),
      IdLessTokens(Alone(evs), m), IdTokens(msgs, Ids(msgs), m), TokensFor(Dropped(evs), m));
  }

  lemma Regrouped(x: Tok, y: Tok, a: Tok, b: Tok, ids: Tok, c: Tok)
    requires x == a.Plus(ids) && y == b.Plus(ids) && a.Plus(c) == b
    ensures x.Plus(c) == y
  {
  }

  lemma ModelTokensAre(ms: seq<FileSummary>)
    requires ms != []
    ensures RecordOfSeq(ms).modelTokens == ModelTokensOf(AllEvents(ms), AllMsgs(ms))
  {
  }

  /** Per model, the record's tokens and those of the dropped lines are the direct tokens. */
  lemma TokensConserved(fs: seq<File>, ms: seq<FileSummary>, m: string)
    requires Summaries(fs, ms) && ms != []
    ensures var p := PartsOf(AllLines(fs));
            Get(RecordOfSeq(ms).modelTokens, m).Plus(TokensFor(Dropped(AllEvents(ms)), m))
            == Get(ModelTokensOf(IdLessEvents(p.idLess), p.entries), m)
  {
    var p := PartsOf(AllLines(fs));
    UnionOfTurns(fs, ms);
    forall h ensures SameMessage(AllMsgs(ms), p.entries, h) { UnionOfEntries(fs, ms, h); }
    ModelTokensAre(ms);
    TotalsConserved(AllEvents(ms), AllMsgs(ms), p.entries, m);
  }

  /** So the record's tokens are the direct ones if every dropped line has none, and only then unless a line says it
      has fewer than none. */
  lemma TokensExactly(fs: seq<File>, ms: seq<FileSummary>)
    requires Summaries(fs, ms) && ms != []
    ensures var p, dropped := PartsOf(AllLines(fs)), Dropped(AllEvents(ms));
            var exact := RecordOfSeq(ms).modelTokens == ModelTokensOf(IdLessEvents(p.idLess), p.entries);
            && ((forall e :: e in dropped ==> e.tok == ZERO) ==> exact)
            && ((forall e :: e in dropped ==> AtLeastZero(e.tok)) && exact ==> forall e :: e in dropped ==>
               e.tok == ZERO)
  {
    var p, dropped := PartsOf(AllLines(fs)), Dropped(AllEvents(ms));
    var direct := ModelTokensOf(IdLessEvents(p.idLess), p.entries);
    if RecordOfSeq(ms).modelTokens == direct && forall e :: e in dropped ==> AtLeastZero(e.tok) {
      forall e | e in dropped ensures e.tok == ZERO {
        TokensConserved(fs, ms, e.model);
        TokensAreZero(dropped, e);
      }
    }
    if forall e :: e in dropped ==> e.tok == ZERO {
      SameModels(fs, ms);
      forall m ensures Get(RecordOfSeq(ms).modelTokens, m) == Get(direct, m) {
        TokensConserved(fs, ms, m);
        ZeroTokens(dropped, m);
        PlusZero(Get(RecordOfSeq(ms).modelTokens, m));
      }
      SameMaps(RecordOfSeq(ms).modelTokens, direct);
    }
  }

  lemma ModelsConserved(evs: seq<Event>, msgs: seq<MsgEntry>, entries: seq<MsgEntry>)
    requires forall h :: SameMessage(msgs, entries, h)
    requires forall e :: e in Dropped(evs) ==> e.tok == ZERO
    ensures ModelTokensOf(evs, msgs).Keys == ModelTokensOf(Alone(evs), entries).Keys
  {
    SameMessages(msgs, entries);
    SameIdLessModels(evs);
    KeysAre(evs, msgs);
    KeysAre(Alone(evs), entries);
  }

  lemma SameIdLessModels(evs: seq<Event>)
    requires forall e :: e in Dropped(evs) ==> e.tok == ZERO
    ensures IdLessModels(evs) == IdLessModels(Alone(evs))
  {
    EventsConserved(evs, "");
    ZeroTokens(Dropped(evs), "");
  }

  lemma KeysAre(evs: seq<Event>, entries: seq<MsgEntry>)
    ensures ModelTokensOf(evs, entries).Keys == IdLessModels(evs) + IdModels(entries, Ids(entries))
  {
  }

  lemma SameModels(fs: seq<File>, ms: seq<FileSummary>)
    requires Summaries(fs, ms) && ms != [] && forall e :: e in Dropped(AllEvents(ms)) ==> e.tok == ZERO
    ensures var p := PartsOf(AllLines(fs));
            RecordOfSeq(ms).modelTokens.Keys == ModelTokensOf(IdLessEvents(p.idLess), p.entries).Keys
  {
    var p := PartsOf(AllLines(fs));
    UnionOfTurns(fs, ms);
    forall h ensures SameMessage(AllMsgs(ms), p.entries, h) { UnionOfEntries(fs, ms, h); }
    ModelTokensAre(ms);
    ModelsConserved(AllEvents(ms), AllMsgs(ms), p.entries);
  }

  lemma SameMaps(a: map<string, Tok>, b: map<string, Tok>)
    requires a.Keys == b.Keys && forall m :: Get(a, m) == Get(b, m)
    ensures a == b
  {
    forall m | m in a ensures a[m] == b[m] { assert Get(a, m) == Get(b, m); }
  }

  // ---------------------------------------------------------------- two files

  const SPENT := Tok(0, 5, 0, 0)

  /** Uuid 7 on an assistant line without a message id, and on a user's line. */
  function OwnLine(t: Time): Line {
    Line(Assistant, Some(7), Some(t), "s", "", "", false, false, Some(Message(None, "", true, SPENT)))
  }

  function TurnLine(t: Time): Line {
    Line(User, Some(7), Some(t), "s", "", "", false, false, Some(Message(None, "", true, ZERO)))
  }

  const OWN := NoIdEvent(Some(7), "", SPENT, false)

  lemma OneLine(ln: Line)
    ensures PartsOf([ln]) == PartsOfLine(ln)
  {
    var p := PartsOfLine(ln);
    assert PartsOf([]) == TranscriptFold.NOTHING && [] + [ln] == [ln];
    SumAppend([], ln, PartsOfLine, JoinParts, TranscriptFold.NOTHING);
    assert TranscriptFold.NOTHING.Join(p) == p;
  }

  lemma OwnSummary(path: string, t: Time) returns (a: FileSummary)
    ensures a == FileSummary(path, "s", t, t, "", "", "", [7], [], 0, [], [OWN])
    ensures Summary(File(path, path, [OwnLine(t)]), a)
  {
    OneLine(OwnLine(t));
    a := FileSummary(path, "s", t, t, "", "", "", [7], [], 0, [], [OWN]);
    assert Aggregated([]) == [];
  }

  lemma TurnSummary(path: string, t: Time) returns (b: FileSummary)
    ensures b == FileSummary(path, "s", t, t, "", "", "", [7], [7], 0, [], [])
    ensures Summary(File(path, path, [TurnLine(t)]), b)
  {
    OneLine(TurnLine(t));
    b := FileSummary(path, "s", t, t, "", "", "", [7], [7], 0, [], []);
    assert Aggregated([]) == [];
  }

  lemma RecordOfTwo(a: FileSummary, b: FileSummary)
    requires a.path != b.path && a.first < b.first
    ensures RecordOf({a, b}) == RecordOfSeq([a, b])
  {
    assert multiset([a, b]) == multiset({a, b});
    SortedMembers({a, b}, [a, b]);
  }

  lemma NoTurnsWithoutUuid(a: FileSummary, b: FileSummary)
    requires a.userNoUuid == b.userNoUuid == 0 && a.msgs == b.msgs == []
    ensures TurnsWithoutUuid([a, b]) == 0 && AllMsgs([a, b]) == []
  {
    assert [a][..|[a]| - 1] == [] && [a, b][..|[a, b]| - 1] == [a];
    assert TurnsWithoutUuid([a]) == 0 && AllMsgs([a]) == [] + a.msgs;
  }

  lemma EventsOfTwo(a: FileSummary, b: FileSummary, first: Event, second: Event)
    requires [first] == UserEvents(a.userUuids) + IdLessEvents(a.noId)
    requires [second] == UserEvents(b.userUuids) + IdLessEvents(b.noId)
    ensures AllEvents([a, b]) == [first] + [second]
  {
    assert [a][..|[a]| - 1] == [] && [a, b][..|[a, b]| - 1] == [a];
    assert AllEvents([a]) == [] + UserEvents(a.userUuids) + IdLessEvents(a.noId);
    assert AllEvents([a, b]) == AllEvents([a]) + UserEvents(b.userUuids) + IdLessEvents(b.noId);
  }

  lemma UserTurnsOfTwo(a: FileSummary, b: FileSummary, evs: seq<Event>)
    requires a.path != b.path && a.first < b.first && a.userNoUuid == b.userNoUuid == 0 && a.msgs == b.msgs == []
    requires AllEvents([a, b]) == evs
    ensures RecordOf({a, b}).userTurns == UserCount(evs)
  {
    RecordOfTwo(a, b);
    NoTurnsWithoutUuid(a, b);
  }

  lemma AssistantTurnsOfTwo(a: FileSummary, b: FileSummary, evs: seq<Event>)
    requires a.path != b.path && a.first < b.first && a.userNoUuid == b.userNoUuid == 0 && a.msgs == b.msgs == []
    requires AllEvents([a, b]) == evs && IdLessModels(evs) == {}
    ensures RecordOf({a, b}).assistantTurns == IdLessTurns(evs) && RecordOf({a, b}).modelTokens == map[]
  {
    RecordOfTwo(a, b);
    NoTurnsWithoutUuid(a, b);
    ModelTokensAre([a, b]);
    KeysAre(evs, []);
    assert TurnIds([], Ids([])) == {};
  }

  lemma Sequences()
    ensures UserEvents([]) == [] && IdLessEvents([]) == []
    ensures UserEvents([7]) == [UserTurn(7)] && IdLessEvents([OWN]) == [IdLess(OWN)]
  {
  }

  lemma OwnThenTurn()
    ensures UserCount([IdLess(OWN)] + [UserTurn(7)]) == 0
  {
    assert [] + [IdLess(OWN)] == [IdLess(OWN)];
    EventAppended([], IdLess(OWN));
    SeenGrows([], IdLess(OWN));
    EventAppended([IdLess(OWN)], UserTurn(7));
  }

  lemma TurnThenOwn()
    ensures IdLessTurns([UserTurn(7)] + [IdLess(OWN)]) == 0 && IdLessModels([UserTurn(7)] + [IdLess(OWN)]) == {}
  {
    assert [] + [UserTurn(7)] == [UserTurn(7)];
    EventAppended([], UserTurn(7));
    SeenGrows([], UserTurn(7));
    EventAppended([UserTurn(7)], IdLess(OWN));
  }

  lemma OneTurnOneEvent(t: Time, u: Time)
    ensures PartsOf([OwnLine(t)] + [TurnLine(u)]).turns == [7] && PartsOf([TurnLine(t)] + [OwnLine(u)]).idLess == [OWN]
  {
    OneLine(OwnLine(t));
    OneLine(TurnLine(u));
    OneLine(OwnLine(u));
    OneLine(TurnLine(t));
    PartsConcat([OwnLine(t)], [TurnLine(u)]);
    PartsConcat([TurnLine(t)], [OwnLine(u)]);
    assert PartsOf([OwnLine(t)] + [TurnLine(u)]).turns == [] + [7];
    assert PartsOf([TurnLine(t)] + [OwnLine(u)]).idLess == [] + [OWN];
  }

  /** The two files are one session with one user turn; its record has none. */
  lemma UserTurnCanBeLost() returns (a: FileSummary, b: FileSummary)
    ensures Summary(File("a", "a", [OwnLine(1)]), a) && Summary(File("b", "b", [TurnLine(2)]), b) && Linked(a, b)
    ensures PartsOf([OwnLine(1)] + [TurnLine(2)]).turns == [7] && RecordOf({a, b}).userTurns == 0
  {
    OneTurnOneEvent(1, 2);
    a := OwnSummary("a", 1);
    b := TurnSummary("b", 2);
    Sequences();
    EventsOfTwo(a, b, IdLess(OWN), UserTurn(7));
    OwnThenTurn();
    UserTurnsOfTwo(a, b, [IdLess(OWN)] + [UserTurn(7)]);
  }

  /** The same lines in the other order: the session has one assistant turn that spent tokens; its record has neither.
      */
  lemma AssistantTurnCanBeLost() returns (a: FileSummary, b: FileSummary)
    ensures Summary(File("a", "a", [TurnLine(1)]), a) && Summary(File("b", "b", [OwnLine(2)]), b) && Linked(a, b)
    ensures PartsOf([TurnLine(1)] + [OwnLine(2)]).idLess == [OWN]
    ensures RecordOf({a, b}).assistantTurns == 0 && RecordOf({a, b}).modelTokens == map[]
  {
    OneTurnOneEvent(1, 2);
    a := TurnSummary("a", 1);
    b := OwnSummary("b", 2);
    Sequences();
    EventsOfTwo(a, b, UserTurn(7), IdLess(OWN));
    TurnThenOwn();
    AssistantTurnsOfTwo(a, b, [UserTurn(7)] + [IdLess(OWN)]);
  }
}

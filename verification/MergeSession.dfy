/** mergeSession: the member files of one session folded into its record. */
module MergeSession {
  import opened Wrappers
  import opened Tokens
  import opened SessionTypes
  import opened SliceSort

  // ---------------------------------------------------------------- the order of the members

  predicate MemberLess(a: FileSummary, b: FileSummary) {
    if a.first != b.first then a.first < b.first
    else if a.id != b.id then Less(a.id, b.id)
    else Less(a.path, b.path)
  }

  lemma MemberLessIsAStrictOrder()
    ensures StrictOrder(MemberLess)
  {
    LessIsAStrictOrder();
    forall x, y, z | !MemberLess(y, x) && !MemberLess(z, y) ensures !MemberLess(z, x) {
      LessIsTotal(x.id, y.id);
      LessIsTotal(y.id, z.id);
      LessIsTotal(x.path, y.path);
    }
  }

  /** Files with different paths never compare equal, so a sort of them has no freedom. */
  lemma MembersAreOrdered(a: FileSummary, b: FileSummary)
    requires a.path != b.path
    ensures MemberLess(a, b) || MemberLess(b, a)
  {
    LessIsTotal(a.id, b.id);
    LessIsTotal(a.path, b.path);
  }

  // ---------------------------------------------------------------- the meaning of a sequence of members

  /** The aggregate of one message id over its entries, in order. */
  function AggOf(entries: seq<MsgEntry>, h: Hash): MsgAgg {
    if entries == [] then EMPTY_AGG
    else
      var before, e := AggOf(entries[..|entries| - 1], h), entries[|entries| - 1];
      if e.id == h then Combine(before, e.agg) else before
  }

  function Ids(entries: seq<MsgEntry>): set<Hash> {
    if entries == [] then {} else Ids(entries[..|entries| - 1]) + {entries[|entries| - 1].id}
  }

  /** The events that share one seen-set of uuids: user turns with a uuid, and assistant lines with no id. */
  datatype Event = UserTurn(u: Hash) | IdLess(e: NoIdEvent) {
    function Uuid(): Option<Hash> { if UserTurn? then Some(u) else e.uuid }
  }

  function Seen(evs: seq<Event>): set<Hash> {
    if evs == [] then {} else Seen(evs[..|evs| - 1]) + UuidSet(evs[|evs| - 1])
  }

  function UuidSet(ev: Event): set<Hash> {
    if ev.Uuid().Some? then {ev.Uuid().value} else {}
  }

  /** The event is not a repeat of one in `before`. */
  predicate First(before: seq<Event>, ev: Event) {
    ev.Uuid().None? || ev.Uuid().value !in Seen(before)
  }

  function UserCount(evs: seq<Event>): nat {
    if evs == [] then 0
    else
      var before, ev := evs[..|evs| - 1], evs[|evs| - 1];
      UserCount(before) + if ev.UserTurn? && First(before, ev) then 1 else 0
  }

  function IdLessTurns(evs: seq<Event>): nat {
    if evs == [] then 0
    else
      var before, ev := evs[..|evs| - 1], evs[|evs| - 1];
      IdLessTurns(before) + if ev.IdLess? && First(before, ev) && !ev.e.sidechain then 1 else 0
  }

  function IdLessTokens(evs: seq<Event>, model: string): Tok {
    if evs == [] then ZERO
    else
      var before, ev := evs[..|evs| - 1], evs[|evs| - 1];
      IdLessTokens(before, model).Plus(IdLessPart(before, ev, model))
  }

  /** What one event adds to a model's tokens. */
  function IdLessPart(before: seq<Event>, ev: Event, model: string): Tok {
    if ev.IdLess? && First(before, ev) && ev.e.model == model then ev.e.tok else ZERO
  }

  function IdLessModels(evs: seq<Event>): set<string> {
    if evs == [] then {}
    else
      var before, ev := evs[..|evs| - 1], evs[|evs| - 1];
      IdLessModels(before) + if ev.IdLess? && First(before, ev) && !ev.e.tok.IsZero() then {ev.e.model} else {}
  }

  function UserEvents(us: seq<Hash>): seq<Event> {
    seq(|us|, k requires 0 <= k < |us| => UserTurn(us[k]))
  }

  function IdLessEvents(es: seq<NoIdEvent>): seq<Event> {
    seq(|es|, k requires 0 <= k < |es| => IdLess(es[k]))
  }

  function AllEvents(ms: seq<FileSummary>): seq<Event> {
    if ms == [] then []
    else
      var m := ms[|ms| - 1];
      AllEvents(ms[..|ms| - 1]) + UserEvents(m.userUuids) + IdLessEvents(m.noId)
  }

  function AllMsgs(ms: seq<FileSummary>): seq<MsgEntry> {
    if ms == [] then [] else AllMsgs(ms[..|ms| - 1]) + ms[|ms| - 1].msgs
  }

  function TurnsWithoutUuid(ms: seq<FileSummary>): nat {
    if ms == [] then 0 else TurnsWithoutUuid(ms[..|ms| - 1]) + ms[|ms| - 1].userNoUuid
  }

  function LastEnd(ms: seq<FileSummary>): Time
    requires ms != []
  {
    if |ms| == 1 then ms[0].last else Max(LastEnd(ms[..|ms| - 1]), ms[|ms| - 1].last)
  }

  function FirstCwd(ms: seq<FileSummary>): string {
    if ms == [] then ""
    else if FirstCwd(ms[..|ms| - 1]) != "" then FirstCwd(ms[..|ms| - 1]) else ms[|ms| - 1].cwd
  }

  function FirstBranch(ms: seq<FileSummary>): string {
    if ms == [] then ""
    else if FirstBranch(ms[..|ms| - 1]) != "" then FirstBranch(ms[..|ms| - 1]) else ms[|ms| - 1].branch
  }

  function LastModel(ms: seq<FileSummary>): string {
    if ms == [] then ""
    else if ms[|ms| - 1].model != "" then ms[|ms| - 1].model else LastModel(ms[..|ms| - 1])
  }

  function TurnIds(entries: seq<MsgEntry>, ids: set<Hash>): set<Hash> {
    set h | h in ids && AggOf(entries, h).nonSide
  }

  /** The tokens of the message ids attributed to one model. */
  ghost function IdTokens(entries: seq<MsgEntry>, ids: set<Hash>, model: string): Tok {
    SumOver(ids, h => TokFor(entries, h, model))
  }

  /** What one message id adds to a model's tokens. */
  function TokFor(entries: seq<MsgEntry>, h: Hash, model: string): Tok {
    if AggOf(entries, h).model == model then AggOf(entries, h).tok else ZERO
  }

  function IdModels(entries: seq<MsgEntry>, ids: set<Hash>): set<string> {
    set h | h in ids && !AggOf(entries, h).tok.IsZero() :: AggOf(entries, h).model
  }

  ghost function ModelTokensOf(evs: seq<Event>, entries: seq<MsgEntry>): map<string, Tok> {
    map m | m in IdLessModels(evs) + IdModels(entries, Ids(entries)) ::
      IdLessTokens(evs, m).Plus(IdTokens(entries, Ids(entries), m))
  }

  /** The record of the members in their order: counts over first occurrences, one aggregate per message id. */
  ghost function RecordOfSeq(ms: seq<FileSummary>): SessionRecord
    requires ms != []
  {
    var perModel := ModelTokensOf(AllEvents(ms), AllMsgs(ms));
    SessionRecord(
      ms[0].id, FirstCwd(ms), FirstBranch(ms), LastModel(ms), ms[0].first, LastEnd(ms),
      UserCount(AllEvents(ms)) + TurnsWithoutUuid(ms),
      IdLessTurns(AllEvents(ms)) + |TurnIds(AllMsgs(ms), Ids(AllMsgs(ms)))|,
      ms[0].path, SumOver(perModel.Keys, m => Get(perModel, m)), perModel)
  }

  // ---------------------------------------------------------------- the loops

  lemma SeenGrows(evs: seq<Event>, ev: Event)
    ensures Seen(evs + [ev]) == Seen(evs) + UuidSet(ev)
  {
    assert (evs + [ev])[..|evs + [ev]| - 1] == evs;
  }

  lemma EventAppended(evs: seq<Event>, ev: Event)
    ensures UserCount(evs + [ev]) == UserCount(evs) + if ev.UserTurn? && First(evs, ev) then 1 else 0
    ensures IdLessTurns(evs + [ev]) == IdLessTurns(evs) + if ev.IdLess? && First(evs, ev) && !ev.e.sidechain then 1
        else 0
    ensures IdLessModels(evs + [ev]) == IdLessModels(evs) + if ev.IdLess? && First(evs, ev)
            && !ev.e.tok.IsZero() then {ev.e.model} else {}
  {
    assert (evs + [ev])[..|evs + [ev]| - 1] == evs;
  }

  lemma TokensAppended(evs: seq<Event>, ev: Event, m: string)
    ensures IdLessTokens(evs + [ev], m) == IdLessTokens(evs, m).Plus(IdLessPart(evs, ev, m))
  {
    assert (evs + [ev])[..|evs + [ev]| - 1] == evs;
  }

  /** Appending user turns leaves what the id-less events add up to. */
  ghost predicate SameIdLess(all: seq<Event>, evs: seq<Event>) {
    && IdLessTurns(all) == IdLessTurns(evs) && IdLessModels(all) == IdLessModels(evs)
    && forall m :: IdLessTokens(all, m) == IdLessTokens(evs, m)
  }

  lemma UserAppended(evs: seq<Event>, done: seq<Event>, u: Hash)
    requires SameIdLess(done, evs)
    ensures SameIdLess(done + [UserTurn(u)], evs)
    ensures UserCount(done + [UserTurn(u)]) == UserCount(done) + if u in Seen(done) then 0 else 1
    ensures Seen(done + [UserTurn(u)]) == Seen(done) + {u}
  {
    SeenGrows(done, UserTurn(u));
    EventAppended(done, UserTurn(u));
    forall m ensures IdLessTokens(done + [UserTurn(u)], m) == IdLessTokens(evs, m) {
      TokensAppended(done, UserTurn(u), m);
      PlusZero(IdLessTokens(done, m));
    }
  }

  /** The accumulators of the loop over user turns, after the events `done`. */
  ghost predicate Turned(evs: seq<Event>, done: seq<Event>, n0: nat, seen: set<Hash>, n: nat) {
    seen == Seen(done) && n == n0 + UserCount(done) - UserCount(evs) && SameIdLess(done, evs)
  }

  lemma TurnStep(evs: seq<Event>, us: seq<Hash>, k: nat, n0: nat, seen: set<Hash>, n: nat)
    requires k < |us| && Turned(evs, evs + UserEvents(us[..k]), n0, seen, n)
    ensures Turned(evs, evs + UserEvents(us[..k + 1]), n0, seen + {us[k]}, n + if us[k] in seen then 0 else 1)
  {
    var done := evs + UserEvents(us[..k]);
    assert evs + UserEvents(us[..k + 1]) == done + [UserTurn(us[k])];
    UserAppended(evs, done, us[k]);
  }

  method AddUserTurns(us: seq<Hash>, ghost evs: seq<Event>, seen0: set<Hash>, n0: nat)
    returns (seen: set<Hash>, n: nat)
    requires seen0 == Seen(evs)
    ensures Turned(evs, evs + UserEvents(us), n0, seen, n)
  {
    seen, n := seen0, n0;
    assert evs + UserEvents(us[..0]) == evs;
    for k := 0 to |us|
      invariant Turned(evs, evs + UserEvents(us[..k]), n0, seen, n)
    {
      TurnStep(evs, us, k, n0, seen, n);
      if us[k] !in seen {
        seen := seen + {us[k]};
        n := n + 1;
      } else {
        assert seen + {us[k]} == seen;
      }
    }
    assert us[..|us|] == us;
  }

  /** The accumulators of the loop over id-less events, after the events `evs`. */
  ghost predicate Tallied(evs: seq<Event>, seen: set<Hash>, turns: nat, perModel: map<string, Tok>) {
    && seen == Seen(evs) && turns == IdLessTurns(evs)
    && perModel.Keys == IdLessModels(evs) && forall m :: Get(perModel, m) == IdLessTokens(evs, m)
  }

  lemma TalliedRepeat(evs: seq<Event>, e: NoIdEvent, seen: set<Hash>, turns: nat, perModel: map<string, Tok>)
    requires Tallied(evs, seen, turns, perModel) && !First(evs, IdLess(e))
    ensures Tallied(evs + [IdLess(e)], seen, turns, perModel) && UserCount(evs + [IdLess(e)]) == UserCount(evs)
  {
    SeenGrows(evs, IdLess(e));
    EventAppended(evs, IdLess(e));
    forall m ensures Get(perModel, m) == IdLessTokens(evs + [IdLess(e)], m) {
      TokensAppended(evs, IdLess(e), m);
      PlusZero(IdLessTokens(evs, m));
    }
  }

  lemma TalliedFirst(evs: seq<Event>, e: NoIdEvent, seen: set<Hash>, turns: nat, perModel: map<string, Tok>)
    requires Tallied(evs, seen, turns, perModel) && First(evs, IdLess(e))
    ensures Tallied(evs + [IdLess(e)], seen + (if e.uuid.Some? then {e.uuid.value} else {}),
                    turns + (if e.sidechain then 0 else 1), AddModelTokens(perModel, e.model, e.tok))
    ensures UserCount(evs + [IdLess(e)]) == UserCount(evs)
  {
    SeenGrows(evs, IdLess(e));
    EventAppended(evs, IdLess(e));
    KeyAdded(perModel, e.model, e.tok);
    forall m ensures Get(AddModelTokens(perModel, e.model, e.tok), m) == IdLessTokens(evs + [IdLess(e)], m) {
      TokensOfFirst(evs, e, perModel, m);
    }
  }

  lemma TokensOfFirst(evs: seq<Event>, e: NoIdEvent, perModel: map<string, Tok>, m: string)
    requires Get(perModel, m) == IdLessTokens(evs, m) && First(evs, IdLess(e))
    ensures Get(AddModelTokens(perModel, e.model, e.tok), m) == IdLessTokens(evs + [IdLess(e)], m)
  {
    TokensAdded(perModel, e.model, e.tok, m);
    TokensAppended(evs, IdLess(e), m);
    PlusZero(IdLessTokens(evs, m));
  }

  lemma IdLessStep(evs: seq<Event>, es: seq<NoIdEvent>, k: nat)
    requires k < |es|
    ensures evs + IdLessEvents(es[..k + 1]) == (evs + IdLessEvents(es[..k])) + [IdLess(es[k])]
  {
  }

  method AddIdLessEvents(es: seq<NoIdEvent>, ghost evs: seq<Event>, seen0: set<Hash>, turns0: nat,
                         perModel0: map<string, Tok>)
    returns (seen: set<Hash>, turns: nat, perModel: map<string, Tok>)
    requires Tallied(evs, seen0, turns0, perModel0)
    ensures Tallied(evs + IdLessEvents(es), seen, turns, perModel)
    ensures UserCount(evs + IdLessEvents(es)) == UserCount(evs)
  {
    seen, turns, perModel := seen0, turns0, perModel0;
    assert evs + IdLessEvents(es[..0]) == evs;
    for k := 0 to |es|
      invariant Tallied(evs + IdLessEvents(es[..k]), seen, turns, perModel)
      invariant UserCount(evs + IdLessEvents(es[..k])) == UserCount(evs)
    {
      var e := es[k];
      ghost var done := evs + IdLessEvents(es[..k]);
      IdLessStep(evs, es, k);
      if e.uuid.Some? && e.uuid.value in seen {
        TalliedRepeat(done, e, seen, turns, perModel);
        continue;
      }
      TalliedFirst(done, e, seen, turns, perModel);
      seen := seen + if e.uuid.Some? then {e.uuid.value} else {};
      if !e.sidechain {
        turns := turns + 1;
      }
      perModel := AddModelTokens(perModel, e.model, e.tok);
    }
    assert es[..|es|] == es;
  }

  function Lookup(msgs: map<Hash, MsgAgg>, h: Hash): MsgAgg {
    if h in msgs then msgs[h] else EMPTY_AGG
  }

  /** The map holds one aggregate per message id of the entries. */
  ghost predicate Aggregates(msgs: map<Hash, MsgAgg>, entries: seq<MsgEntry>) {
    msgs.Keys == Ids(entries) && forall h :: Lookup(msgs, h) == AggOf(entries, h)
  }

  lemma IdsGrow(entries: seq<MsgEntry>, e: MsgEntry)
    ensures Ids(entries + [e]) == Ids(entries) + {e.id}
    ensures forall h :: AggOf(entries + [e], h) == if h == e.id then Combine(AggOf(entries, h), e.agg)
        else AggOf(entries, h)
  {
    assert (entries + [e])[..|entries + [e]| - 1] == entries;
  }

  lemma AggregatesNext(msgs: map<Hash, MsgAgg>, entries: seq<MsgEntry>, e: MsgEntry)
    requires Aggregates(msgs, entries)
    ensures Aggregates(msgs[e.id := Combine(Lookup(msgs, e.id), e.agg)], entries + [e])
  {
    IdsGrow(entries, e);
    var after := msgs[e.id := Combine(Lookup(msgs, e.id), e.agg)];
    forall h ensures Lookup(after, h) == AggOf(entries + [e], h) {
      assert Lookup(msgs, h) == AggOf(entries, h);
    }
  }

  lemma MessageStep(msgs: map<Hash, MsgAgg>, entries: seq<MsgEntry>, es: seq<MsgEntry>, k: nat)
    requires k < |es| && Aggregates(msgs, entries + es[..k])
    ensures Aggregates(msgs[es[k].id := Combine(Lookup(msgs, es[k].id), es[k].agg)], entries + es[..k + 1])
  {
    AggregatesNext(msgs, entries + es[..k], es[k]);
    assert entries + es[..k + 1] == (entries + es[..k]) + [es[k]];
  }

  method AddMessages(es: seq<MsgEntry>, ghost entries: seq<MsgEntry>, msgs0: map<Hash, MsgAgg>)
    returns (msgs: map<Hash, MsgAgg>)
    requires Aggregates(msgs0, entries)
    ensures Aggregates(msgs, entries + es)
  {
    msgs := msgs0;
    assert entries + es[..0] == entries;
    for k := 0 to |es|
      invariant Aggregates(msgs, entries + es[..k])
    {
      MessageStep(msgs, entries, es, k);
      msgs := msgs[es[k].id := Combine(Lookup(msgs, es[k].id), es[k].agg)];
    }
    assert es[..|es|] == es;
  }

  lemma IdTokensAdd(entries: seq<MsgEntry>, ids: set<Hash>, h: Hash, model: string)
    requires h !in ids
    ensures IdTokens(entries, ids + {h}, model)
         == IdTokens(entries, ids, model).Plus(TokFor(entries, h, model))
  {
    SumAdds(ids, h => TokFor(entries, h, model), h);
  }

  /** The accumulators of the loop over message ids, after the ids `done`. */
  ghost predicate Attributed(entries: seq<MsgEntry>, done: set<Hash>, base: map<string, Tok>,
                             perModel: map<string, Tok>) {
    && perModel.Keys == base.Keys + IdModels(entries, done)
    && forall m :: AttributedTo(entries, done, base, perModel, m)
  }

  ghost predicate AttributedTo(entries: seq<MsgEntry>, done: set<Hash>, base: map<string, Tok>,
                               perModel: map<string, Tok>, m: string) {
    Get(perModel, m) == Get(base, m).Plus(IdTokens(entries, done, m))
  }

  lemma AttributedAtFirst(entries: seq<MsgEntry>, base: map<string, Tok>)
    ensures Attributed(entries, {}, base, base)
  {
    assert IdModels(entries, {}) == {};
    forall m ensures AttributedTo(entries, {}, base, base, m) {
      PlusZero(Get(base, m));
    }
  }

  lemma AttributedNext(entries: seq<MsgEntry>, done: set<Hash>, base: map<string, Tok>, perModel: map<string, Tok>,
                       h: Hash, a: MsgAgg)
    requires Attributed(entries, done, base, perModel) && h !in done && a == AggOf(entries, h)
    ensures Attributed(entries, done + {h}, base, AddModelTokens(perModel, a.model, a.tok))
  {
    KeyAdded(perModel, a.model, a.tok);
    IdModelsAdd(entries, done, h);
    var added := AddModelTokens(perModel, a.model, a.tok);
    forall m ensures AttributedTo(entries, done + {h}, base, added, m) {
      assert AttributedTo(entries, done, base, perModel, m);
      TokensAdded(perModel, a.model, a.tok, m);
      IdTokensAdd(entries, done, h, m);
      AddedPart(Get(base, m), IdTokens(entries, done, m), TokFor(entries, h, m), a, m);
    }
  }

  lemma AddedPart(base: Tok, ids: Tok, part: Tok, a: MsgAgg, m: string)
    requires part == if a.model == m then a.tok else ZERO
    ensures (if m == a.model then base.Plus(ids).Plus(a.tok) else base.Plus(ids)) == base.Plus(ids.Plus(part))
  {
  }

  lemma TurnIdsAdd(entries: seq<MsgEntry>, ids: set<Hash>, h: Hash)
    requires h !in ids
    ensures |TurnIds(entries, ids + {h})| == |TurnIds(entries, ids)| + if AggOf(entries, h).nonSide then 1 else 0
  {
    assert TurnIds(entries, ids + {h}) == TurnIds(entries, ids) + if AggOf(entries, h).nonSide then {h} else {};
  }

  /** The accumulators after the message ids `done`, the turns counted from `turns0`. */
  ghost predicate Passed(entries: seq<MsgEntry>, done: set<Hash>, turns0: nat, turns: nat, base: map<string, Tok>,
                         perModel: map<string, Tok>) {
    turns == turns0 + |TurnIds(entries, done)| && Attributed(entries, done, base, perModel)
  }

  lemma PassedNext(entries: seq<MsgEntry>, done: set<Hash>, turns0: nat, turns: nat, base: map<string, Tok>,
                   perModel: map<string, Tok>,
                   h: Hash, a: MsgAgg)
    requires Passed(entries, done, turns0, turns, base, perModel) && h !in done && a == AggOf(entries, h)
    ensures Passed(entries, done + {h}, turns0, turns + (if a.nonSide then 1 else 0), base,
        AddModelTokens(perModel, a.model, a.tok))
  {
    TurnIdsAdd(entries, done, h);
    AttributedNext(entries, done, base, perModel, h, a);
  }

  lemma PassedAtFirst(entries: seq<MsgEntry>, turns0: nat, base: map<string, Tok>)
    ensures Passed(entries, {}, turns0, turns0, base, base)
  {
    assert TurnIds(entries, {}) == {};
    AttributedAtFirst(entries, base);
  }

  /** The pass over the message ids, which a map yields in any order. */
  method AddMessageTokens(msgs: map<Hash, MsgAgg>, ghost entries: seq<MsgEntry>, turns0: nat,
                          perModel0: map<string, Tok>)
    returns (turns: nat, perModel: map<string, Tok>)
    requires Aggregates(msgs, entries)
    ensures Passed(entries, Ids(entries), turns0, turns, perModel0, perModel)
  {
    turns, perModel := turns0, perModel0;
    var todo := msgs.Keys;
    ghost var done: set<Hash> := {};
    PassedAtFirst(entries, turns0, perModel0);
    while todo != {}
      invariant done !! todo && done + todo == msgs.Keys
      invariant Passed(entries, done, turns0, turns, perModel0, perModel)
      decreases todo
    {
      var h :| h in todo;
      var a := msgs[h];
      assert a == Lookup(msgs, h);
      PassedNext(entries, done, turns0, turns, perModel0, perModel, h, a);
      turns := turns + if a.nonSide then 1 else 0;
      perModel := AddModelTokens(perModel, a.model, a.tok);
      done, todo := done + {h}, todo - {h};
    }
    assert done == Ids(entries);
  }

  lemma IdModelsAdd(entries: seq<MsgEntry>, ids: set<Hash>, h: Hash)
    ensures IdModels(entries, ids + {h})
         == IdModels(entries, ids) + if AggOf(entries, h).tok.IsZero() then {} else {AggOf(entries, h).model}
  {
    var all := IdModels(entries, ids + {h});
    forall m | m in IdModels(entries, ids) ensures m in all {
      var x :| x in ids && !AggOf(entries, x).tok.IsZero() && AggOf(entries, x).model == m;
      assert x in ids + {h};
    }
    if !AggOf(entries, h).tok.IsZero() {
      assert h in ids + {h};
    }
  }

  /** The sum over the models, which a map yields in any order. */
  method SumModels(perModel: map<string, Tok>) returns (tokens: Tok)
    ensures tokens == SumOver(perModel.Keys, m => Get(perModel, m))
  {
    tokens := ZERO;
    var todo := perModel.Keys;
    ghost var done: set<string> := {};
    while todo != {}
      invariant done !! todo && done + todo == perModel.Keys
      invariant tokens == SumOver(done, m => Get(perModel, m))
      decreases todo
    {
      var m :| m in todo;
      SumAdds(done, m => Get(perModel, m), m);
      tokens := tokens.Plus(perModel[m]);
      done, todo := done + {m}, todo - {m};
    }
    assert done == perModel.Keys;
  }

  /** The accumulators of mergeSession's loop over the members `ms`. */
  datatype Acc = Acc(startedAt: Time, endedAt: Time, cwd: string, branch: string, model: string,
                     seen: set<Hash>, msgs: map<Hash, MsgAgg>, perModel: map<string, Tok>, userTurns: nat, turns: nat)

  ghost predicate Merged(ms: seq<FileSummary>, earliest: FileSummary, acc: Acc) {
    && acc.startedAt == earliest.first
    && acc.endedAt == (if ms == [] then earliest.last else LastEnd(ms))
    && acc.cwd == FirstCwd(ms) && acc.branch == FirstBranch(ms) && acc.model == LastModel(ms)
    && Tallied(AllEvents(ms), acc.seen, acc.turns, acc.perModel)
    && acc.userTurns == UserCount(AllEvents(ms)) + TurnsWithoutUuid(ms)
    && Aggregates(acc.msgs, AllMsgs(ms))
  }

  method MergeMember(m: FileSummary, ghost ms: seq<FileSummary>, ghost earliest: FileSummary, acc: Acc) returns (r: Acc)
    requires Merged(ms, earliest, acc) && earliest.first <= m.first && (ms == [] ==> m == earliest)
    ensures Merged(ms + [m], earliest, r)
  {
    ghost var evs := AllEvents(ms);
    assert (ms + [m])[..|ms + [m]| - 1] == ms;
    var seen, userTurns := AddUserTurns(m.userUuids, evs, acc.seen, acc.userTurns);
    var msgs := AddMessages(m.msgs, AllMsgs(ms), acc.msgs);
    var turns, perModel;
    seen, turns, perModel := AddIdLessEvents(m.noId, evs + UserEvents(m.userUuids), seen, acc.turns, acc.perModel);
    r := Acc(if m.first < acc.startedAt then m.first else acc.startedAt,
             if m.last > acc.endedAt then m.last else acc.endedAt,
             if acc.cwd == "" then m.cwd else acc.cwd,
             if acc.branch == "" then m.branch else acc.branch,
             if m.model != "" then m.model else acc.model,
             seen, msgs, perModel, userTurns + m.userNoUuid, turns);
  }

  /** The record of the members in some order their sort accepts. */
  ghost predicate IsMerged(members: seq<FileSummary>, rec: SessionRecord) {
    exists ms :: SortOf(members, ms) && ms != [] && rec == RecordOfSeq(ms)
  }

  predicate SortOf(members: seq<FileSummary>, ms: seq<FileSummary>) {
    multiset(ms) == multiset(members) && Sorted(ms, MemberLess)
  }

  lemma SortedMakesRecord(members: seq<FileSummary>, ms: seq<FileSummary>, rec: SessionRecord)
    requires SortOf(members, ms) && ms != [] && rec == RecordOfSeq(ms)
    ensures IsMerged(members, rec)
  {
  }

  /** mergeSession: sorts the members and folds them. */
  method MergeSession(members: seq<FileSummary>) returns (rec: SessionRecord)
    requires members != []
    ensures IsMerged(members, rec)
  {
    MemberLessIsAStrictOrder();
    var sorted := Sort(members, MemberLess);
    SameElements(sorted, members);
    var earliest := sorted[0];
    var acc := Acc(earliest.first, earliest.last, "", "", "", {}, map[], map[], 0, 0);
    for k := 0 to |sorted|
      invariant Merged(sorted[..k], earliest, acc)
    {
      assert sorted[..k + 1] == sorted[..k] + [sorted[k]];
      assert k > 0 ==> !MemberLess(sorted[k], earliest);
      acc := MergeMember(sorted[k], sorted[..k], earliest, acc);
    }
    assert sorted[..|sorted|] == sorted;
    var turns, perModel := AddMessageTokens(acc.msgs, AllMsgs(sorted), acc.turns, acc.perModel);
    var tokens := SumModels(perModel);
    RecordIs(sorted, earliest, acc, turns, perModel);
    rec := SessionRecord(earliest.id, acc.cwd, acc.branch, acc.model, acc.startedAt, acc.endedAt,
                         acc.userTurns, turns, earliest.path, tokens, perModel);
    SortedMakesRecord(members, sorted, rec);
  }

  lemma RecordIs(ms: seq<FileSummary>, earliest: FileSummary, acc: Acc, turns: nat, perModel: map<string, Tok>)
    requires ms != [] && earliest == ms[0] && Merged(ms, earliest, acc)
    requires Passed(AllMsgs(ms), Ids(AllMsgs(ms)), acc.turns, turns, acc.perModel, perModel)
    ensures SessionRecord(earliest.id, acc.cwd, acc.branch, acc.model, acc.startedAt, acc.endedAt, acc.userTurns, turns,
                          earliest.path, SumOver(perModel.Keys, m => Get(perModel, m)), perModel) == RecordOfSeq(ms)
  {
    ModelTokensAre(AllEvents(ms), AllMsgs(ms), acc.perModel, perModel);
  }

  lemma ModelTokensAre(evs: seq<Event>, entries: seq<MsgEntry>, base: map<string, Tok>, perModel: map<string, Tok>)
    requires base.Keys == IdLessModels(evs) && forall m :: Get(base, m) == IdLessTokens(evs, m)
    requires Attributed(entries, Ids(entries), base, perModel)
    ensures perModel == ModelTokensOf(evs, entries)
  {
    forall m | m in perModel
      ensures perModel[m] == IdLessTokens(evs, m).Plus(IdTokens(entries, Ids(entries), m))
    {
      assert AttributedTo(entries, Ids(entries), base, perModel, m);
      assert Get(base, m) == IdLessTokens(evs, m);
    }
  }
}

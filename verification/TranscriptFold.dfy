/** The fold of one transcript file into its summary. A line arrives decoded; a line that does not decode costs
    only itself and is not among them. */
module TranscriptFold {
  import opened Wrappers
  import opened Tokens
  import opened SessionTypes
  import opened MergeSession
  import opened SliceSort

  datatype Kind = User | Assistant | Other

  /** `text`: the content has a text block that is not blank. An empty message id is `None`. */
  datatype Message = Message(id: Option<Hash>, model: string, text: bool, tok: Tok)

  datatype Line = Line(kind: Kind, uuid: Option<Hash>, ts: Option<Time>, sessionId: string, cwd: string, branch: string,
                       sidechain: bool, meta: bool, msg: Option<Message>)

  // ---------------------------------------------------------------- what each line contributes

  function Uuid(ln: Line): seq<Hash> { if ln.uuid.Some? then [ln.uuid.value] else [] }
  function Stamp(ln: Line): seq<Time> { if ln.ts.Some? then [ln.ts.value] else [] }
  function NonEmpty(s: string): seq<string> { if s != "" then [s] else [] }

  /** Something a person typed: not a sidechain, not meta, with text. */
  predicate IsUserTurn(ln: Line) {
    ln.kind == User && !ln.sidechain && !ln.meta && ln.msg.Some? && ln.msg.value.text
  }

  function UserTurns(ln: Line): seq<Hash> { if IsUserTurn(ln) then Uuid(ln) else [] }

  function MessageOf(ln: Line): Message {
    if ln.msg.Some? then ln.msg.value else Message(None, "", false, ZERO)
  }

  /** A model name counts as the file's own unless it is a placeholder in angle brackets. */
  function Model(ln: Line): seq<string> {
    var m := MessageOf(ln).model;
    if ln.kind == Assistant && m != "" && m[0] != '<' then [m] else []
  }

  function Entry(ln: Line): seq<MsgEntry> {
    var m := MessageOf(ln);
    if ln.kind == Assistant && m.id.Some? then [MsgEntry(m.id.value, MsgAgg(m.model, m.tok, !ln.sidechain))] else []
  }

  function IdLessPartOf(ln: Line): seq<NoIdEvent> {
    var m := MessageOf(ln);
    if ln.kind == Assistant && m.id.None? then [NoIdEvent(ln.uuid, m.model, m.tok, ln.sidechain)] else []
  }

  /** What some lines contribute, each kind in line order. */
  datatype Parts = Parts(stamps: seq<Time>, sessionIds: seq<string>, cwds: seq<string>, branches: seq<string>,
                         models: seq<string>,
                         uuids: seq<Hash>, turns: seq<Hash>, anonymous: nat, entries: seq<MsgEntry>,
                           idLess: seq<NoIdEvent>)
  {
    function Join(o: Parts): Parts {
      Parts(stamps + o.stamps, sessionIds + o.sessionIds, cwds + o.cwds, branches + o.branches, models + o.models,
            uuids + o.uuids, turns + o.turns, anonymous + o.anonymous, entries + o.entries, idLess + o.idLess)
    }
  }

  const NOTHING := Parts([], [], [], [], [], [], [], 0, [], [])

  function PartsOfLine(ln: Line): Parts {
    Parts(Stamp(ln), NonEmpty(ln.sessionId), NonEmpty(ln.cwd), NonEmpty(ln.branch), Model(ln),
          Uuid(ln), UserTurns(ln), if IsUserTurn(ln) && ln.uuid.None? then 1 else 0, Entry(ln), IdLessPartOf(ln))
  }

  function Sum<P>(lines: seq<Line>, part: Line -> P, join: (P, P) -> P, nothing: P): P {
    if lines == [] then nothing else join(Sum(lines[..|lines| - 1], part, join, nothing), part(lines[|lines| - 1]))
  }

  lemma SumAppend<P>(lines: seq<Line>, ln: Line, part: Line -> P, join: (P, P) -> P, nothing: P)
    ensures Sum(lines + [ln], part, join, nothing) == join(Sum(lines, part, join, nothing), part(ln))
  {
    assert (lines + [ln])[..|lines + [ln]| - 1] == lines;
  }

  lemma {:induction false} SumConcat<P(!new)>(a: seq<Line>, b: seq<Line>, part: Line -> P, join: (P, P) -> P,
                                              nothing: P)
    requires forall x, y, z :: join(join(x, y), z) == join(x, join(y, z))
    requires forall x :: join(x, nothing) == x
    ensures Sum(a + b, part, join, nothing) == join(Sum(a, part, join, nothing), Sum(b, part, join, nothing))
  {
    if b == [] {
      assert a + b == a;
    } else {
      var front, ln := b[..|b| - 1], b[|b| - 1];
      SumConcat(a, front, part, join, nothing);
      SumAppend(a + front, ln, part, join, nothing);
      assert a + b == (a + front) + [ln];
    }
  }

  function JoinParts(a: Parts, b: Parts): Parts {
    a.Join(b)
  }

  function PartsOf(lines: seq<Line>): Parts {
    Sum(lines, PartsOfLine, JoinParts, NOTHING)
  }

  lemma Associative(a: Parts, b: Parts, c: Parts)
    ensures a.Join(b).Join(c) == a.Join(b.Join(c))
  {
  }

  lemma JoinNothing(a: Parts)
    ensures a.Join(NOTHING) == a
  {
  }

  /** The lines of two files contribute what each contributes. */
  lemma PartsConcat(a: seq<Line>, b: seq<Line>)
    ensures PartsOf(a + b) == PartsOf(a).Join(PartsOf(b))
  {
    forall x, y, z ensures JoinParts(JoinParts(x, y), z) == JoinParts(x, JoinParts(y, z)) { Associative(x, y, z); }
    forall x ensures JoinParts(x, NOTHING) == x { JoinNothing(x); }
    SumConcat(a, b, PartsOfLine, JoinParts, NOTHING);
  }

  lemma Added<P>(lines: seq<Line>, part: Line -> P, join: (P, P) -> P, nothing: P)
    requires lines != []
    ensures Sum(lines, part, join, nothing)
         == join(Sum(lines[..|lines| - 1], part, join, nothing), part(lines[|lines| - 1]))
  {
  }

  function TurnCount(p: Parts): nat { |p.turns| + p.anonymous }

  lemma LastTurn(lines: seq<Line>)
    requires lines != []
    ensures TurnCount(PartsOf(lines))
         == TurnCount(PartsOf(lines[..|lines| - 1])) + if IsUserTurn(lines[|lines| - 1]) then 1 else 0
  {
    Added(lines, PartsOfLine, JoinParts, NOTHING);
  }

  function TurnsAt(lines: seq<Line>): set<int> {
    set k | 0 <= k < |lines| && IsUserTurn(lines[k])
  }

  lemma {:induction false} TurnsCounted(lines: seq<Line>)
    ensures TurnCount(PartsOf(lines)) == |TurnsAt(lines)|
  {
    if lines != [] {
      var n := |lines| - 1;
      TurnsCounted(lines[..n]);
      LastTurn(lines);
      assert TurnsAt(lines) == TurnsAt(lines[..n]) + if IsUserTurn(lines[n]) then {n} else {};
    }
  }

  /** The user turns of some lines, with a uuid or without, are as many as the lines that a user wrote outside any
      sidechain, that are not meta, and whose message has text. */
  lemma TurnsAreTyped(lines: seq<Line>)
    ensures |PartsOf(lines).turns| + PartsOf(lines).anonymous
         == |set k | 0 <= k < |lines| && lines[k].kind == User && !lines[k].sidechain && !lines[k].meta
                     && lines[k].msg.Some? && lines[k].msg.value.text|
  {
    TurnsCounted(lines);
    assert TurnsAt(lines)
        == (set k | 0 <= k < |lines| && lines[k].kind == User && !lines[k].sidechain && !lines[k].meta
                    && lines[k].msg.Some? && lines[k].msg.value.text);
  }

  function FirstOf(s: seq<string>): string { if s == [] then "" else s[0] }
  function LastOf(s: seq<string>): string { if s == [] then "" else s[|s| - 1] }

  function Earliest(ts: seq<Time>): Time
    requires ts != []
  {
    if |ts| == 1 then ts[0]
    else if ts[|ts| - 1] < Earliest(ts[..|ts| - 1]) then ts[|ts| - 1] else Earliest(ts[..|ts| - 1])
  }

  function Latest(ts: seq<Time>): Time
    requires ts != []
  {
    if |ts| == 1 then ts[0] else Max(Latest(ts[..|ts| - 1]), ts[|ts| - 1])
  }

  lemma {:induction false} EarliestIs(ts: seq<Time>)
    requires ts != []
    ensures Earliest(ts) in ts && forall t :: t in ts ==> Earliest(ts) <= t
  {
    if |ts| > 1 {
      EarliestIs(ts[..|ts| - 1]);
      assert ts == ts[..|ts| - 1] + [ts[|ts| - 1]];
    }
  }

  lemma {:induction false} LatestIs(ts: seq<Time>)
    requires ts != []
    ensures Latest(ts) in ts && forall t :: t in ts ==> t <= Latest(ts)
  {
    if |ts| > 1 {
      LatestIs(ts[..|ts| - 1]);
      assert ts == ts[..|ts| - 1] + [ts[|ts| - 1]];
    }
  }

  /** The stamps are those of the dated lines. */
  lemma {:induction false} StampsAre(lines: seq<Line>, t: Time)
    ensures t in PartsOf(lines).stamps <==> exists ln :: ln in lines && ln.ts == Some(t)
  {
    if lines != [] {
      var front, last := lines[..|lines| - 1], lines[|lines| - 1];
      StampsAre(front, t);
      assert lines == front + [last];
      SumAppend(front, last, PartsOfLine, JoinParts, NOTHING);
      assert last in lines;
    }
  }

  /** An assistant line with a message id says of it the model, the tokens, and whether it is outside any sidechain; no
      other line says anything of an id. */
  lemma {:induction false} EntriesAre(lines: seq<Line>, e: MsgEntry)
    ensures e in PartsOf(lines).entries <==> exists ln :: ln in lines && SaysOfId(ln, e)
  {
    if lines != [] {
      EntriesAre(lines[..|lines| - 1], e);
      Added(lines, PartsOfLine, JoinParts, NOTHING);
      LastOfAll(lines);
      var last := lines[|lines| - 1];
      assert e in Entry(last) <==> SaysOfId(last, e);
    }
  }

  predicate SaysOfId(ln: Line, e: MsgEntry) {
    ln.kind == Assistant && ln.msg.Some? && ln.msg.value.id == Some(e.id)
    && e.agg == MsgAgg(ln.msg.value.model, ln.msg.value.tok, !ln.sidechain)
  }

  /** An assistant line whose message has no id, or that has no message, stands for itself. */
  lemma {:induction false} IdLessAre(lines: seq<Line>, e: NoIdEvent)
    ensures e in PartsOf(lines).idLess <==> exists ln :: ln in lines && StandsAlone(ln, e)
  {
    if lines != [] {
      IdLessAre(lines[..|lines| - 1], e);
      Added(lines, PartsOfLine, JoinParts, NOTHING);
      LastOfAll(lines);
      var last := lines[|lines| - 1];
      assert e in IdLessPartOf(last) <==> StandsAlone(last, e);
    }
  }

  predicate StandsAlone(ln: Line, e: NoIdEvent) {
    && ln.kind == Assistant && e.uuid == ln.uuid && e.sidechain == ln.sidechain
    && if ln.msg.Some? then ln.msg.value.id.None? && e.model == ln.msg.value.model && e.tok == ln.msg.value.tok
       else e.model == "" && e.tok == Tok(0, 0, 0, 0)
  }

  lemma LastOfAll(lines: seq<Line>)
    requires lines != []
    ensures forall ln :: ln in lines <==> ln in lines[..|lines| - 1] || ln == lines[|lines| - 1]
  {
    assert lines == lines[..|lines| - 1] + [lines[|lines| - 1]];
  }

  /** The first directory and branch that any line names are those reported. */
  lemma {:induction false} FirstNamesWin(lines: seq<Line>, k: nat)
    requires k < |lines|
    ensures lines[k].cwd != "" && (forall j :: 0 <= j < k ==> lines[j].cwd == "") ==>
        FirstOf(PartsOf(lines).cwds) == lines[k].cwd
    ensures lines[k].branch != "" && (forall j :: 0 <= j < k ==> lines[j].branch == "") ==>
        FirstOf(PartsOf(lines).branches) == lines[k].branch
  {
    var n := |lines| - 1;
    Added(lines, PartsOfLine, JoinParts, NOTHING);
    if k < n {
      FirstNamesWin(lines[..n], k);
    } else {
      NoNames(lines[..n]);
    }
  }

  lemma {:induction false} NoNames(lines: seq<Line>)
    ensures (forall j :: 0 <= j < |lines| ==> lines[j].cwd == "") ==> PartsOf(lines).cwds == []
    ensures (forall j :: 0 <= j < |lines| ==> lines[j].branch == "") ==> PartsOf(lines).branches == []
  {
    if lines != [] {
      NoNames(lines[..|lines| - 1]);
      Added(lines, PartsOfLine, JoinParts, NOTHING);
    }
  }

  /** An assistant line that names a model which is no placeholder in angle brackets. */
  predicate NamesModel(ln: Line) {
    ln.kind == Assistant && ln.msg.Some? && ln.msg.value.model != "" && ln.msg.value.model[0] != '<'
  }

  /** The last model that an assistant line names is the one reported. */
  lemma {:induction false} LastModelWins(lines: seq<Line>, k: nat)
    requires k < |lines| && NamesModel(lines[k]) && forall j :: k < j < |lines| ==> !NamesModel(lines[j])
    ensures LastOf(PartsOf(lines).models) == lines[k].msg.value.model
  {
    var n := |lines| - 1;
    Added(lines, PartsOfLine, JoinParts, NOTHING);
    if k < n {
      LastModelWins(lines[..n], k);
      assert PartsOf(lines).models == PartsOf(lines[..n]).models;
    }
  }

  /** The distinct message ids in the order of their first lines. */
  function FirstIds(entries: seq<MsgEntry>): seq<Hash> {
    if entries == [] then []
    else
      var before, h := FirstIds(entries[..|entries| - 1]), entries[|entries| - 1].id;
      if h in before then before else before + [h]
  }

  /** One entry per message id. */
  function Aggregated(entries: seq<MsgEntry>): seq<MsgEntry> {
    var ids := FirstIds(entries);
    seq(|ids|, k requires 0 <= k < |ids| => MsgEntry(ids[k], AggOf(entries, ids[k])))
  }

  /** The most frequent session id, the smaller of two equally frequent ones; the file's name when there is none. */
  ghost predicate IsCanonical(ids: seq<string>, fileName: string, id: string) {
    if ids == [] then id == fileName
    else id in ids && forall o :: o in ids && o != id ==> MoreFrequent(ids, id, o)
  }

  predicate MoreFrequent(ids: seq<string>, a: string, b: string) {
    var m, n := multiset(ids)[a], multiset(ids)[b];
    m > n || (m == n && Less(a, b))
  }

  lemma CanonicalIsUnique(ids: seq<string>, fileName: string, a: string, b: string)
    requires IsCanonical(ids, fileName, a) && IsCanonical(ids, fileName, b)
    ensures a == b
  {
    LessIsTotal(a, b);
  }

  /** The summary of the file at `path` whose lines contribute `p`. */
  ghost predicate IsSummary(path: string, fileName: string, p: Parts, s: FileSummary) {
    && p.stamps != []
    && s.path == path && IsCanonical(p.sessionIds, fileName, s.id)
    && s.first == Earliest(p.stamps) && s.last == Latest(p.stamps)
    && s.cwd == FirstOf(p.cwds) && s.branch == FirstOf(p.branches) && s.model == LastOf(p.models)
    && s.uuids == p.uuids && s.userUuids == p.turns && s.userNoUuid == p.anonymous
    && s.msgs == Aggregated(p.entries) && s.noId == p.idLess
  }

  lemma SummaryIsUnique(path: string, fileName: string, p: Parts, a: FileSummary, b: FileSummary)
    requires IsSummary(path, fileName, p, a) && IsSummary(path, fileName, p, b)
    ensures a == b
  {
    CanonicalIsUnique(p.sessionIds, fileName, a.id, b.id);
  }

  // ---------------------------------------------------------------- the fold

  /** Where each message id stands among the entries. */
  ghost predicate Indexed(msgs: seq<MsgEntry>, idx: map<Hash, nat>) {
    && (forall h :: h in idx ==> idx[h] < |msgs| && msgs[idx[h]].id == h)
    && (forall k :: 0 <= k < |msgs| ==> msgs[k].id in idx && idx[msgs[k].id] == k)
  }

  lemma EntriesAppended(entries: seq<MsgEntry>, e: MsgEntry)
    ensures FirstIds(entries + [e]) == if e.id in FirstIds(entries) then FirstIds(entries)
        else FirstIds(entries) + [e.id]
    ensures forall h :: AggOf(entries + [e], h) == if h == e.id then Combine(AggOf(entries, h), e.agg)
        else AggOf(entries, h)
  {
    assert (entries + [e])[..|entries + [e]| - 1] == entries;
  }

  lemma {:induction false} NewIdHasNoAggregate(entries: seq<MsgEntry>, h: Hash)
    requires h !in FirstIds(entries)
    ensures AggOf(entries, h) == EMPTY_AGG
  {
    if entries != [] { NewIdHasNoAggregate(entries[..|entries| - 1], h); }
  }

  /** What folding `e` does to the entries: a repeat updates its own, a new id comes last. */
  lemma AggregatedNext(entries: seq<MsgEntry>, e: MsgEntry, idx: map<Hash, nat>)
    requires Indexed(Aggregated(entries), idx)
    ensures var msgs, after := Aggregated(entries), Aggregated(entries + [e]);
            if e.id in idx then after == msgs[idx[e.id] := MsgEntry(e.id, Combine(msgs[idx[e.id]].agg, e.agg))]
              && Indexed(after, idx)
            else after == msgs + [MsgEntry(e.id, Combine(EMPTY_AGG, e.agg))] && Indexed(after, idx[e.id := |msgs|])
  {
    if e.id in idx {
      AggregatedRepeat(entries, e, idx);
    } else {
      AggregatedNew(entries, e, idx);
    }
  }

  lemma AggregatedRepeat(entries: seq<MsgEntry>, e: MsgEntry, idx: map<Hash, nat>)
    requires Indexed(Aggregated(entries), idx) && e.id in idx
    ensures var msgs, after := Aggregated(entries), Aggregated(entries + [e]);
            after == msgs[idx[e.id] := MsgEntry(e.id, Combine(msgs[idx[e.id]].agg, e.agg))] && Indexed(after, idx)
  {
    var ids, msgs, after := FirstIds(entries), Aggregated(entries), Aggregated(entries + [e]);
    EntriesAppended(entries, e);
    assert forall k :: 0 <= k < |ids| ==> msgs[k].id == ids[k];
    assert ids[idx[e.id]] == e.id;
    assert after == msgs[idx[e.id] := MsgEntry(e.id, Combine(msgs[idx[e.id]].agg, e.agg))];
  }

  lemma AggregatedNew(entries: seq<MsgEntry>, e: MsgEntry, idx: map<Hash, nat>)
    requires Indexed(Aggregated(entries), idx) && e.id !in idx
    ensures var msgs, after := Aggregated(entries), Aggregated(entries + [e]);
            after == msgs + [MsgEntry(e.id, Combine(EMPTY_AGG, e.agg))] && Indexed(after, idx[e.id := |msgs|])
  {
    var ids, msgs, after := FirstIds(entries), Aggregated(entries), Aggregated(entries + [e]);
    EntriesAppended(entries, e);
    assert forall k :: 0 <= k < |ids| ==> msgs[k].id == ids[k] && ids[k] in idx;
    NewIdHasNoAggregate(entries, e.id);
    assert after == msgs + [MsgEntry(e.id, Combine(EMPTY_AGG, e.agg))];
  }

  /** The occurrences of each session id. */
  ghost predicate Counts(freq: map<string, nat>, ids: seq<string>) {
    forall id :: (id in freq <==> id in ids) && (id in freq ==> freq[id] == multiset(ids)[id])
  }

  lemma CountsNext(freq: map<string, nat>, ids: seq<string>, id: string)
    requires Counts(freq, ids)
    ensures Counts(freq[id := (if id in freq then freq[id] else 0) + 1], ids + [id])
  {
    forall o ensures o in multiset(ids) <==> o in ids {}
  }

  /** The fold-time state of a file summary. */
  class Fold {
    var first: Time
    var last: Time
    var hasDatedEvent: bool
    var cwd: string
    var branch: string
    var model: string
    var uuids: seq<Hash>
    var userUuids: seq<Hash>
    var userNoUuid: nat
    var msgs: seq<MsgEntry>
    var noId: seq<NoIdEvent>
    var msgIdx: map<Hash, nat>
    var idFreq: map<string, nat>
    /** What the lines folded so far contribute. */
    ghost var parts: Parts

    ghost predicate Valid()
      reads this
    {
      Headers(parts) && Events(parts)
    }

    ghost predicate Headers(p: Parts)
      reads this
    {
      && DatesOf(p.stamps) == (hasDatedEvent, first, last) && uuids == p.uuids
      && cwd == FirstOf(p.cwds) && branch == FirstOf(p.branches) && Counts(idFreq, p.sessionIds)
      && "" !in p.sessionIds && "" !in p.cwds && "" !in p.branches
    }

    ghost predicate Events(p: Parts)
      reads this
    {
      && userUuids == p.turns && userNoUuid == p.anonymous
      && model == LastOf(p.models) && noId == p.idLess
      && msgs == Aggregated(p.entries) && Indexed(msgs, msgIdx)
    }

    constructor ()
      ensures Valid() && parts == NOTHING
    {
      first, last, hasDatedEvent := 0, 0, false;
      cwd, branch, model := "", "", "";
      uuids, userUuids, userNoUuid, msgs, noId := [], [], 0, [], [];
      msgIdx, idFreq := map[], map[];
      parts := NOTHING;
    }

    method FoldDate(ln: Line)
      requires DatesOf(parts.stamps) == (hasDatedEvent, first, last)
      modifies this`first, this`last, this`hasDatedEvent
      ensures DatesOf(parts.stamps + Stamp(ln)) == (hasDatedEvent, first, last)
    {
      if ln.ts.Some? {
        var ts := ln.ts.value;
        DatesAppended(parts.stamps, ts);
        if !hasDatedEvent || ts < first {
          first := ts;
        }
        if !hasDatedEvent || ts > last {
          last := ts;
        }
        hasDatedEvent := true;
      } else {
        assert parts.stamps + Stamp(ln) == parts.stamps;
      }
    }

    method FoldSessionId(ln: Line)
      requires Counts(idFreq, parts.sessionIds)
      modifies this`idFreq
      ensures Counts(idFreq, parts.sessionIds + NonEmpty(ln.sessionId))
    {
      if ln.sessionId != "" {
        CountsNext(idFreq, parts.sessionIds, ln.sessionId);
        idFreq := idFreq[ln.sessionId := (if ln.sessionId in idFreq then idFreq[ln.sessionId] else 0) + 1];
      } else {
        assert parts.sessionIds + NonEmpty(ln.sessionId) == parts.sessionIds;
      }
    }

    method AddEntry(e: MsgEntry)
      requires msgs == Aggregated(parts.entries) && Indexed(msgs, msgIdx)
      modifies this`msgs, this`msgIdx
      ensures msgs == Aggregated(parts.entries + [e]) && Indexed(msgs, msgIdx)
    {
      AggregatedNext(parts.entries, e, msgIdx);
      if e.id in msgIdx {
        var k := msgIdx[e.id];
        msgs := msgs[k := MsgEntry(e.id, Combine(msgs[k].agg, e.agg))];
      } else {
        msgIdx := msgIdx[e.id := |msgs|];
        msgs := msgs + [MsgEntry(e.id, Combine(EMPTY_AGG, e.agg))];
      }
    }

    method FoldAssistant(ln: Line)
      requires ln.kind == Assistant && msgs == Aggregated(parts.entries) && Indexed(msgs, msgIdx)
      modifies this`msgs, this`msgIdx, this`noId, this`model
      ensures model == (if Model(ln) == [] then old(model) else LastOf(Model(ln)))
      ensures noId == old(noId) + IdLessPartOf(ln)
      ensures msgs == Aggregated(parts.entries + Entry(ln)) && Indexed(msgs, msgIdx)
    {
      var m := MessageOf(ln);
      if m.model != "" && m.model[0] != '<' {
        model := m.model;
      }
      if m.id.None? {
        noId := noId + [NoIdEvent(ln.uuid, m.model, m.tok, ln.sidechain)];
        assert parts.entries + Entry(ln) == parts.entries;
      } else {
        AddEntry(MsgEntry(m.id.value, MsgAgg(m.model, m.tok, !ln.sidechain)));
      }
    }

    method FoldNames(ln: Line)
      modifies this`cwd, this`branch
      ensures cwd == (if old(cwd) == "" then ln.cwd else old(cwd))
      ensures branch == (if old(branch) == "" then ln.branch else old(branch))
    {
      if cwd == "" {
        cwd := ln.cwd;
      }
      if branch == "" {
        branch := ln.branch;
      }
    }

    method FoldHeader(ln: Line)
      requires Headers(parts)
      modifies this`first, this`last, this`hasDatedEvent, this`cwd, this`branch, this`idFreq, this`uuids
      ensures Headers(parts.Join(PartsOfLine(ln)))
    {
      ghost var p, q := parts, parts.Join(PartsOfLine(ln));
      FirstOfAppend(p.sessionIds, ln.sessionId);
      assert q.cwds == p.cwds + NonEmpty(ln.cwd) && q.branches == p.branches + NonEmpty(ln.branch);
      assert q.sessionIds == p.sessionIds + NonEmpty(ln.sessionId) && q.stamps == p.stamps + Stamp(ln);
      FoldSessionId(ln);
      FoldDate(ln);
      uuids := uuids + Uuid(ln);
      FirstOfAppend(parts.cwds, ln.cwd);
      FirstOfAppend(parts.branches, ln.branch);
      FoldNames(ln);
    }

    method FoldEvent(ln: Line)
      requires Events(parts)
      modifies this`userUuids, this`userNoUuid, this`msgs, this`msgIdx, this`noId, this`model
      ensures Events(parts.Join(PartsOfLine(ln)))
    {
      match ln.kind {
        case User =>
          assert parts.entries + Entry(ln) == parts.entries;
          if ln.sidechain || ln.meta || ln.msg.None? || !ln.msg.value.text {
            return;
          }
          if ln.uuid.Some? {
            userUuids := userUuids + [ln.uuid.value];
          } else {
            userNoUuid := userNoUuid + 1;
          }
        case Assistant => FoldAssistant(ln);
        case Other =>
          assert parts.entries + Entry(ln) == parts.entries;
      }
    }

    method FoldLine(ln: Line)
      requires Valid()
      modifies this
      ensures Valid() && parts == old(parts).Join(PartsOfLine(ln))
    {
      ghost var joined := parts.Join(PartsOfLine(ln));
      FoldHeader(ln);
      FoldEvent(ln);
      parts := joined;
    }
  }

  /** The dates of the stamps; the zero time where there is none. */
  function DatesOf(ts: seq<Time>): (bool, Time, Time) {
    if ts == [] then (false, 0, 0) else (true, Earliest(ts), Latest(ts))
  }

  lemma FirstOfAppend(names: seq<string>, name: string)
    requires "" !in names
    ensures FirstOf(names + NonEmpty(name)) == if FirstOf(names) == "" then name else FirstOf(names)
    ensures "" !in names + NonEmpty(name)
  {
    assert names == [] || names[0] in names;
  }

  lemma DatesAppended(ts: seq<Time>, t: Time)
    ensures ts == [] ==> Earliest(ts + [t]) == t == Latest(ts + [t])
    ensures ts != [] ==>
        Earliest(ts + [t]) == (if t < Earliest(ts) then t else Earliest(ts)) && Latest(ts + [t]) == Max(Latest(ts), t)
  {
    assert (ts + [t])[..|ts + [t]| - 1] == ts;
  }

  lemma NoIdsCounted(freq: map<string, nat>, ids: seq<string>)
    requires Counts(freq, ids) && freq.Keys == {}
    ensures ids == []
  {
    forall id ensures id !in multiset(ids) {
      assert id in multiset(ids) <==> id in ids;
    }
    assert multiset(ids) == multiset{} && |multiset(ids)| == |ids|;
  }

  /** canonicalID: a pass over the frequency map, which yields its keys in any order. */
  method CanonicalId(freq: map<string, nat>, fallback: string, ghost ids: seq<string>) returns (id: string)
    requires Counts(freq, ids) && "" !in ids
    ensures IsCanonical(ids, fallback, id)
  {
    var best, bestN := "", 0;
    var todo := freq.Keys;
    while todo != {}
      invariant todo <= freq.Keys
      invariant best == "" ==> todo == freq.Keys && bestN == 0
      invariant best != "" ==> best in freq && best !in todo && bestN == freq[best]
      invariant best != "" ==> forall o :: o in freq && o !in todo && o != best ==> MoreFrequent(ids, best, o)
      decreases todo
    {
      var o :| o in todo;
      var n := freq[o];
      assert o in ids && o in multiset(ids) && n > 0;
      LessIsTotal(o, best);
      BestSoFar(ids, freq.Keys - todo, best, o);
      if n > bestN || (n == bestN && Less(o, best)) {
        best, bestN := o, n;
      }
      todo := todo - {o};
    }
    if best == "" {
      NoIdsCounted(freq, ids);
      return fallback;
    }
    return best;
  }

  /** The better of the best so far and `o` beats everything either was compared with. */
  lemma BestSoFar(ids: seq<string>, seen: set<string>, best: string, o: string)
    requires forall p :: p in seen && p != best ==> best != "" ==> MoreFrequent(ids, best, p)
    ensures best != "" && MoreFrequent(ids, o, best) ==> forall p :: p in seen && p != o ==> MoreFrequent(ids, o, p)
  {
    if best != "" && MoreFrequent(ids, o, best) {
      forall p | p in seen && p != o ensures MoreFrequent(ids, o, p) {
        if p != best && multiset(ids)[o] == multiset(ids)[best] == multiset(ids)[p] {
          LessIsTransitive(o, best, p);
        }
      }
    }
  }

  method FoldAll(lines: seq<Line>) returns (s: Fold)
    ensures s.Valid() && fresh(s) && s.parts == PartsOf(lines)
  {
    s := new Fold();
    for k := 0 to |lines|
      invariant s.Valid() && fresh(s) && s.parts == PartsOf(lines[..k])
    {
      PrefixParts(lines, k);
      s.FoldLine(lines[k]);
    }
    assert lines[..|lines|] == lines;
  }

  lemma PrefixParts(lines: seq<Line>, k: nat)
    requires k < |lines|
    ensures PartsOf(lines[..k + 1]) == PartsOf(lines[..k]).Join(PartsOfLine(lines[k]))
  {
    assert lines[..k + 1] == lines[..k] + [lines[k]];
    SumAppend(lines[..k], lines[k], PartsOfLine, JoinParts, NOTHING);
  }

  /** summarizeTranscript: no summary when no line is dated. */
  method Summarize(path: string, fileName: string, lines: seq<Line>) returns (r: Option<FileSummary>)
    ensures r.None? <==> PartsOf(lines).stamps == []
    ensures r.Some? ==> IsSummary(path, fileName, PartsOf(lines), r.value)
  {
    var s := FoldAll(lines);
    if !s.hasDatedEvent {
      return None;
    }
    var id := CanonicalId(s.idFreq, fileName, s.parts.sessionIds);
    return Some(FileSummary(path, id, s.first, s.last, s.cwd, s.branch, s.model,
                            s.uuids, s.userUuids, s.userNoUuid, s.msgs, s.noId));
  }
}

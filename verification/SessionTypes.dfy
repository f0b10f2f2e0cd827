/** What the session rollup keeps of one transcript file and reports of one session. Event uuids and message ids
    are their 64-bit hashes, and equal hashes are equal events, as in the code. */
module SessionTypes {
  import opened Wrappers
  import opened Tokens

  type Hash = nat
  /** Nanoseconds since some origin; the order is what matters. */
  type Time = int

  /** One distinct assistant message id. */
  datatype MsgAgg = MsgAgg(model: string, tok: Tok, nonSide: bool)

  datatype MsgEntry = MsgEntry(id: Hash, agg: MsgAgg)

  /** An assistant line with no message id. */
  datatype NoIdEvent = NoIdEvent(uuid: Option<Hash>, model: string, tok: Tok, sidechain: bool)

  datatype FileSummary = FileSummary(
    path: string, id: string, first: Time, last: Time, cwd: string, branch: string, model: string,
    uuids: seq<Hash>, userUuids: seq<Hash>, userNoUuid: nat, msgs: seq<MsgEntry>, noId: seq<NoIdEvent>)

  datatype SessionRecord = SessionRecord(
    sessionId: string, cwd: string, branch: string, model: string, startedAt: Time, endedAt: Time,
    userTurns: nat, assistantTurns: nat, transcriptPath: string, tokens: Tok, modelTokens: map<string, Tok>)

  const EMPTY_AGG := MsgAgg("", ZERO, false)

  /** The later of two aggregates of one id folded into the earlier: the last model wins, the largest value per
      category, and one non-sidechain line makes it a turn. */
  function Combine(cur: MsgAgg, a: MsgAgg): MsgAgg {
    MsgAgg(if a.model != "" then a.model else cur.model, cur.tok.MaxWith(a.tok), cur.nonSide || a.nonSide)
  }

  function Get(perModel: map<string, Tok>, model: string): Tok {
    if model in perModel then perModel[model] else ZERO
  }

  /** addModelTokens: an all-zero usage block contributes nothing, not even a key. */
  function AddModelTokens(perModel: map<string, Tok>, model: string, tok: Tok): map<string, Tok> {
    if tok.IsZero() then perModel else perModel[model := Get(perModel, model).Plus(tok)]
  }

  lemma TokensAdded(perModel: map<string, Tok>, model: string, tok: Tok, m: string)
    ensures Get(AddModelTokens(perModel, model, tok), m)
         == if m == model then Get(perModel, m).Plus(tok) else Get(perModel, m)
  {
    if tok.IsZero() {
      assert tok == ZERO;
      PlusZero(Get(perModel, m));
    }
  }

  lemma KeyAdded(perModel: map<string, Tok>, model: string, tok: Tok)
    ensures AddModelTokens(perModel, model, tok).Keys == perModel.Keys + if tok.IsZero() then {} else {model}
  {
  }
}

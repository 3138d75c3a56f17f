/** Whole runs: the loop over turns, what happens after it, and the artifact that is written. */
module Runs {
  import opened Options
  import opened Json
  import opened Arenas
  import opened Events
  import opened Receipts
  import opened Match
  import opened ReplayCheck
  import opened Turns

  predicate Over(c: Config, s: State)
    requires s.turn.JInt?
  {
    s.terminal == JBool(true) || s.turn.i >= c.maxTurns
  }

  /** What a turn does to the state: an ending leaves it or forfeits it, a move is one legal step. */
  lemma TurnMovesTheState(env: Env, arena: Arena, c: Config, m: Match, reply: Reply)
    requires Contract(arena) && GoodState(arena, m.state)
    ensures var step := TakeTurn(env, arena, c, LegalList(arena, m.state), m, reply);
            step.Continued? ==>
              GoodState(arena, step.m.state) && step.m.state.turn == JInt(m.state.turn.i + 1)
  {
    TurnShape(env, arena, c, LegalList(arena, m.state), m, reply);
  }

  datatype Outcome = Aborted | Stopped(m: Match)

  /** The while loop, from any point of a run. */
  ghost function PlayFrom(env: Env, arena: Arena, c: Config, agent: Agent, m: Match): Outcome
    requires Contract(arena) && GoodState(arena, m.state)
    decreases if m.state.turn.i < c.maxTurns then c.maxTurns - m.state.turn.i else 0
  {
    if Over(c, m.state) then Stopped(m)
    else
      var legal := LegalList(arena, m.state);
      var reply := agent(MakeRequest(env, c, legal, m));
      TurnMovesTheState(env, arena, c, m, reply);
      match TakeTurn(env, arena, c, legal, m, reply)
      case Raised => Aborted
      case Broke(ended) => Stopped(ended)
      case Continued(next) => PlayFrom(env, arena, c, agent, next)
  }

  // ----- after the loop -----

  function Truncate(c: Config, m: Match): Match {
    if m.state.terminal != JBool(true) && m.state.turn.JInt? && m.state.turn.i >= c.maxTurns then
      m.(valid := false,
         reason := if m.reason.Some? then m.reason else Some("run_truncated"),
         codes := m.codes + [RunTruncated])
    else m
  }

  predicate TrustedIdentity(r: ReceiptRow) {
    && r.lockedModelId.JStr? && r.lockedModelId.s != ""
    && (r.identitySource == JStr("provider_response")
        || r.identitySource == JStr("pinned_endpoint")
        || (r.provider == JStr("mock") && r.identitySource == JStr("mock_attested")))
    && (r.identitySource == JStr("pinned_endpoint") ==> r.lockedModelId == r.model)
  }

  /** `_model_identity_verified`. */
  predicate IdentityVerified(c: Config, receipts: seq<ReceiptRow>) {
    c.providerSeats == {} ||
    forall p | p in c.providerSeats ::
      && (exists i | 0 <= i < |receipts| ::
            receipts[i].outcome == OK && receipts[i].activePlayer == JStr(p))
      && (forall i | 0 <= i < |receipts| && receipts[i].outcome == OK
                     && receipts[i].activePlayer == JStr(p) ::
            TrustedIdentity(receipts[i])
            && (p in c.expectedModels ==>
                  receipts[i].lockedModelId == JStr(c.expectedModels[p])))
  }

  /** `bool(config.case_id)`. */
  predicate HasCase(c: Config) {
    c.caseId.Some? && c.caseId.value != ""
  }

  predicate CompleteEvidence(c: Config, m: Match) {
    m.valid && HasCase(c) && IdentityVerified(c, m.receipts)
  }

  function Stamp(receipts: seq<ReceiptRow>, evidence: bool): seq<ReceiptRow> {
    seq(|receipts|, i requires 0 <= i < |receipts| =>
      receipts[i].(caseValid := JBool(evidence && receipts[i].actionApplied == JBool(true))))
  }

  /** The finished match, or None when an emitted receipt fails its own contract. */
  function Finalise(env: Env, c: Config, m: Match): Option<Match> {
    var done := Truncate(c, m);
    var stamped := Stamp(done.receipts, CompleteEvidence(c, done));
    if exists i | 0 <= i < |stamped| :: env.receiptInvalid(stamped[i]) then None
    else Some(done.(receipts := stamped))
  }

  /** A whole run; None when it raised instead of finishing. */
  ghost function Run(env: Env, arena: Arena, c: Config, agent: Agent, seed: int): Option<Match>
    requires Contract(arena)
  {
    match PlayFrom(env, arena, c, agent, Opening(env, arena, arena.initial(seed)))
    case Aborted => None
    case Stopped(m) => Finalise(env, c, m)
  }

  // ----- the artifact -----

  function AuditorRows(trace: seq<TraceEvent>): seq<TraceRow> {
    seq(|trace|, i requires 0 <= i < |trace| => CanonRow(View(trace[i], Auditor)))
  }

  /**
   The members of the artifact that the replay validator opens. `eligible` is the
   publication claim, which the writer makes only for a scoring-valid match.
   */
  function WrittenArtifact(arena: Arena, arenaVersion: string, m: Match, eligible: bool): Artifact
  {
    Artifact(
      Manifest(Some(ReplayMetadata(JStr("recorded"), REPLAY_VERSION, JInt(|m.trace|),
                                   JInt(|m.replay|))),
               JStr(arenaVersion), JBool(m.valid), JBool(m.valid && eligible),
               JBool(m.valid && eligible), JBool(false)),
      Some(AuditorRows(m.trace)),
      Some(m.replay),
      ScoreFile(JStr(arena.id), Canon(m.state.outcome), JBool(m.valid)))
  }
}

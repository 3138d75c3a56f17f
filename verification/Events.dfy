/**
 Trace and replay rows. A row is a JSON object that its readers only query with
 `.get`; the records below keep the keys those readers use. `None` is an absent
 key, which matters where one dict is laid over another.
 */
module Events {
  import opened Options
  import opened Json
  import opened Arenas

  datatype Provenance = ProviderAction | LocalAction | FallbackAction

  function ProvenanceText(p: Provenance): string {
    match p
    case ProviderAction => "provider_action"
    case LocalAction => "local_action"
    case FallbackAction => "fallback_action"
  }

  function OptionalText(s: Option<string>): Json {
    if s.Some? then JStr(s.value) else JNull
  }

  datatype TraceRow = TraceRow(
    eventType: Option<Json>, turnId: Option<Json>, createdAt: Option<Json>,
    activePlayer: Option<Json>, seat: Option<Json>, latencyMs: Option<Json>,
    stateHashBefore: Option<Json>, stateHashAfter: Option<Json>, action: Option<Json>,
    provenance: Option<Json>, logicalActionId: Option<Json>, attemptEventId: Option<Json>,
    stateBefore: Option<Json>, stateAfter: Option<Json>)

  const EMPTY_ROW :=
    TraceRow(None, None, None, None, None, None, None, None, None, None, None, None, None, None)

  /** `row.get(key)`. */
  function Read(field: Option<Json>): Json {
    if field.Some? then field.value else JNull
  }

  function Or<T>(over: Option<T>, under: Option<T>): Option<T> {
    if over.Some? then over else under
  }

  /** `base.update(over)`. */
  function Update(base: TraceRow, over: TraceRow): TraceRow {
    TraceRow(
      Or(over.eventType, base.eventType), Or(over.turnId, base.turnId),
      Or(over.createdAt, base.createdAt), Or(over.activePlayer, base.activePlayer),
      Or(over.seat, base.seat), Or(over.latencyMs, base.latencyMs),
      Or(over.stateHashBefore, base.stateHashBefore), Or(over.stateHashAfter, base.stateHashAfter),
      Or(over.action, base.action), Or(over.provenance, base.provenance),
      Or(over.logicalActionId, base.logicalActionId), Or(over.attemptEventId, base.attemptEventId),
      Or(over.stateBefore, base.stateBefore), Or(over.stateAfter, base.stateAfter))
  }

  function CanonField(f: Option<Json>): Option<Json> {
    if f.Some? then Some(Canon(f.value)) else None
  }

  /** `_canonical_hashed_payload` on a row: the two timing keys go, values are cleaned. */
  function CanonRow(r: TraceRow): TraceRow {
    TraceRow(
      CanonField(r.eventType), CanonField(r.turnId), None, CanonField(r.activePlayer),
      CanonField(r.seat), None, CanonField(r.stateHashBefore), CanonField(r.stateHashAfter),
      CanonField(r.action), CanonField(r.provenance), CanonField(r.logicalActionId),
      CanonField(r.attemptEventId), CanonField(r.stateBefore), CanonField(r.stateAfter))
  }

  datatype Privacy = Public | AgentVisible | PrivateJudge | Auditor

  datatype TraceEvent = TraceEvent(
    turnId: Json, eventType: string, createdAt: Json,
    public: TraceRow, agentVisible: TraceRow, judge: TraceRow, auditor: TraceRow)

  function View(e: TraceEvent, privacy: Privacy): TraceRow {
    var base := EMPTY_ROW.(eventType := Some(JStr(e.eventType)), turnId := Some(e.turnId),
                           createdAt := Some(e.createdAt));
    match privacy
    case Public => Update(base, e.public)
    case AgentVisible => Update(base, e.agentVisible)
    case PrivateJudge => Update(Update(base, e.public), e.judge)
    case Auditor => Update(Update(Update(base, e.public), e.judge), e.auditor)
  }

  /** `_trace_event`: only the judge and auditor layers carry a sealed action or the states. */
  function MakeTrace(hash: StateHasher, arena: Arena, before: State, after: State, action: Json,
                     eventType: string, provenance: Option<Provenance>,
                     logicalId: Option<string>, attemptEventId: Option<string>): TraceEvent
  {
    var public := EMPTY_ROW.(
      stateHashBefore := Some(JStr(hash(before))), stateHashAfter := Some(JStr(hash(after))),
      activePlayer := Some(before.activePlayer), seat := Some(before.activePlayer),
      action := Some(PublicAction(arena, after, action)),
      latencyMs := Some(JInt(0)),
      provenance := Some(if provenance.Some? then JStr(ProvenanceText(provenance.value)) else JNull),
      logicalActionId := Some(OptionalText(logicalId)),
      attemptEventId := Some(OptionalText(attemptEventId)));
    TraceEvent(
      before.turn, eventType, JNull,
      public,
      public,
      public.(action := Some(action)),
      public.(action := Some(action), stateBefore := Some(ToJson(hash, before)),
              stateAfter := Some(ToJson(hash, after))))
  }

  /** One row of the public replay; absent keys are null because readers use `.get`. */
  datatype ReplayRow = ReplayRow(
    turnId: Json, stateHash: Json, activePlayer: Json, seat: Json, action: Json,
    publicState: Json, scores: Json, terminal: Json, outcome: Json, renderHints: Json,
    provenance: Json, logicalActionId: Json, attemptEventId: Json)

  /** `_replay_event` followed by `to_dict`. */
  function MakeReplay(hash: StateHasher, arena: Arena, s: State, action: Json, actor: Json,
                      provenance: Option<Provenance>, logicalId: Option<string>,
                      attemptEventId: Option<string>): ReplayRow
  {
    ReplayRow(
      s.turn, JStr(hash(s)), s.activePlayer, actor, PublicAction(arena, s, action),
      s.publicState, s.scores, s.terminal, s.outcome, s.renderHints,
      if provenance.Some? then JStr(ProvenanceText(provenance.value)) else JNull,
      OptionalText(logicalId), OptionalText(attemptEventId))
  }

  /**
   The auditor projection read back from disk holds both states whole and the
   true action, while the public one withholds a sealed action and both states.
   */
  lemma ProjectionsOfOneMove(hash: StateHasher, arena: Arena, before: State, after: State,
                             action: Json, eventType: string, provenance: Option<Provenance>,
                             logicalId: Option<string>, attemptEventId: Option<string>)
    requires WellTyped(arena, before) && TimingFree(before) && TimingFree(after)
    ensures
      var e := MakeTrace(hash, arena, before, after, action, eventType, provenance, logicalId,
                         attemptEventId);
      var a := CanonRow(View(e, Auditor));
      var p := CanonRow(View(e, Public));
      && Read(a.eventType) == JStr(eventType)
      && Read(a.turnId) == before.turn
      && Read(a.activePlayer) == before.activePlayer
      && Read(a.stateHashBefore) == JStr(hash(before))
      && Read(a.stateHashAfter) == JStr(hash(after))
      && Read(a.action) == Canon(action)
      && a.stateBefore == Some(ToJson(hash, before))
      && a.stateAfter == Some(ToJson(hash, after))
      && Read(p.action) == (if Pending(arena, after) then JNull else Canon(action))
      && p.stateBefore == None && p.stateAfter == None
      && Read(p.seat) == before.activePlayer
  {
    TimingFreeStateIsWrittenUnchanged(hash, before);
    TimingFreeStateIsWrittenUnchanged(hash, after);
    CanonKeepsExactlyTimingFree(before.turn);
    CanonKeepsExactlyTimingFree(before.activePlayer);
  }
}

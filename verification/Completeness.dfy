/** Every record a finished run writes is one that the replay validator accepts. */
module Completeness {
  import opened Options
  import opened Json
  import opened Arenas
  import opened Events
  import opened Receipts
  import opened Match
  import opened Turns
  import opened Runs
  import opened ReplayCheck
  import opened Certificate
  import Evidence

  // ----- forfeit states can be written -----

  lemma WithFieldTimingFree(m: Object, k: Key, v: Json)
    requires NoTiming(JObj(m)) && NoTiming(v) && !IsTiming(k)
    ensures NoTiming(JObj(m[k := v]))
  {
  }

  lemma ForfeitScoresTimingFree(arena: Arena, s: State, seat: Key)
    requires s.scores.JObj? && NoTiming(s.scores) && !IsTiming(seat)
    ensures NoTiming(JObj(ForfeitScores(arena, s, seat)))
  {
    assert s.scores == JObj(s.scores.fields);
    if |arena.seatOrder(s)| > 2 && seat in s.scores.fields {
      WithFieldTimingFree(s.scores.fields, seat, JReal(0.0));
    }
  }

  lemma ForfeitPublicTimingFree(arena: Arena, s: State, seat: Key)
    requires s.scores.JObj? && NoTiming(s.scores) && !IsTiming(seat)
    requires s.publicState.JObj? && NoTiming(s.publicState)
    ensures NoTiming(JObj(ForfeitPublic(arena, s, seat)))
  {
    hide ForfeitScores, ForfeitWinner;
    ForfeitScoresTimingFree(arena, s, seat);
    assert s.publicState == JObj(s.publicState.fields);
    var m0 := s.publicState.fields[TerminalReason := JStr("forfeit")];
    WithFieldTimingFree(s.publicState.fields, TerminalReason, JStr("forfeit"));
    var winner := WinnerJson(ForfeitWinner(arena, s, seat));
    var m := m0[Winner := winner];
    WithFieldTimingFree(m0, Winner, winner);
    if Get(m, FinalValidation).JObj? {
      var scores := JObj(ForfeitScores(arena, s, seat));
      assert m[FinalValidation] == JObj(m[FinalValidation].fields);
      WithFieldTimingFree(m[FinalValidation].fields, ScoreKey, scores);
      WithFieldTimingFree(m, FinalValidation, JObj(m[FinalValidation].fields[ScoreKey := scores]));
    }
  }

  lemma ForfeitOutcomeIsSound(arena: Arena, s: State, seat: Key, reason: string)
    requires s.scores.JObj?
    ensures NoTiming(JObj(ForfeitOutcome(arena, s, seat, reason)))
    ensures IsForfeitOutcome(JObj(ForfeitOutcome(arena, s, seat, reason)))
  {
  }

  lemma EmptiedListsTimingFree(m: Object)
    requires NoTiming(JObj(m))
    ensures NoTiming(JObj(map k | k in m :: JList([])))
  {
  }

  lemma ForfeitStateTimingFree(arena: Arena, s: State, player: string, reason: string)
    requires WellTyped(arena, s) && TimingFree(s)
    ensures TimingFree(ForfeitState(arena, s, player, reason))
  {
    var f := ForfeitState(arena, s, player, reason);
    assert NoTiming(f.scores) by { ForfeitScoresTimingFree(arena, s, Name(player)); }
    assert NoTiming(f.publicState) by { ForfeitPublicTimingFree(arena, s, Name(player)); }
    assert NoTiming(f.outcome) by { ForfeitOutcomeIsSound(arena, s, Name(player), reason); }
    assert NoTiming(f.metadata) by {
      assert s.metadata == JObj(s.metadata.fields);
      WithFieldTimingFree(s.metadata.fields, ForfeitedPlayer, JStr(player));
    }
    assert NoTiming(f.legalActions) by {
      assert s.legalActions == JObj(s.legalActions.fields);
      EmptiedListsTimingFree(s.legalActions.fields);
    }
  }

  /** A forfeit state is terminal, carries the forfeit outcome and can be written unchanged. */
  lemma ForfeitStateIsSound(arena: Arena, s: State, player: string, reason: string)
    requires WellTyped(arena, s) && TimingFree(s)
    ensures var f := ForfeitState(arena, s, player, reason);
            && Constructible(f) && TimingFree(f)
            && f.terminal == JBool(true) && IsForfeitOutcome(f.outcome)
            && f.turn == JInt(s.turn.i + 1)
  {
    hide ForfeitOutcome, ForfeitPublic, ForfeitScores, TimingFree, NoTiming, IsForfeitOutcome;
    ForfeitStateTimingFree(arena, s, player, reason);
    ForfeitOutcomeIsSound(arena, s, Name(player), reason);
  }

  // ----- every recorded row describes its step -----

  /** The header, the states and the kind of a row written by the runner are read back as written. */
  lemma RowIsReadable(env: Env, arena: Arena, before: State, next: State, action: Json,
                      eventType: string, provenance: Option<Provenance>, id: Option<string>,
                      attempt: Option<string>)
    returns (row: TraceRow)
    requires WellTyped(arena, before) && TimingFree(before)
    requires Constructible(next) && TimingFree(next)
    requires eventType == "action" || eventType == "forfeit"
    ensures row == CanonRow(View(MakeTrace(env.hash, arena, before, next, action, eventType,
                                           provenance, id, attempt), Auditor))
    ensures ReadableRow(row) && HeaderDescribes(env.hash, row, before, next)
    ensures IsForfeitRow(row) <==> eventType == "forfeit"
    ensures Read(row.action) == Canon(action)
  {
    ProjectionsOfOneMove(env.hash, arena, before, next, action, eventType, provenance, id, attempt);
    row := CanonRow(View(MakeTrace(env.hash, arena, before, next, action, eventType, provenance, id,
                                   attempt), Auditor));
    ReadsDescribe(env.hash, row, before, next, eventType);
  }

  lemma ReadsDescribe(hash: StateHasher, row: TraceRow, before: State, next: State,
                      eventType: string)
    requires Constructible(before) && Constructible(next)
    requires eventType == "action" || eventType == "forfeit"
    requires Read(row.eventType) == JStr(eventType)
    requires Read(row.turnId) == before.turn && Read(row.activePlayer) == before.activePlayer
    requires Read(row.stateHashBefore) == JStr(hash(before))
    requires Read(row.stateHashAfter) == JStr(hash(next))
    requires Read(row.stateBefore) == ToJson(hash, before)
    requires Read(row.stateAfter) == ToJson(hash, next)
    ensures ReadableRow(row) && HeaderDescribes(hash, row, before, next)
    ensures IsForfeitRow(row) <==> eventType == "forfeit"
  {
    StateRoundTrip(hash, before);
    StateRoundTrip(hash, next);
    PyEqReflexive(before.turn);
    PyEqReflexive(before.activePlayer);
    assert "action"[0] == 'a' && "forfeit"[0] == 'f';
  }

  ghost predicate HeaderDescribes(hash: StateHasher, row: TraceRow, before: State, after: State) {
    && FromPayload(hash, Read(row.stateBefore)) == Some(before)
    && FromPayload(hash, Read(row.stateAfter)) == Some(after)
    && PyEq(Read(row.turnId), before.turn) && PyEq(Read(row.activePlayer), before.activePlayer)
    && Read(row.stateHashBefore) == JStr(hash(before))
    && Read(row.stateHashAfter) == JStr(hash(after))
  }

  /** Re-executing a recorded legal action finds that very action and reaches that very state. */
  lemma LegalMoveIsArenaMove(arena: Arena, before: State, next: State, action: Json)
    requires Contract(arena) && GoodState(arena, before)
    requires action in LegalList(arena, before)
    requires arena.apply(before, before.activePlayer, action) == Some(next)
    ensures GoodState(arena, next) && Canon(action) == action
    ensures ArenaMove(arena, before, action, next)
  {
    GoodLegalList(arena, before);
    CanonKeepsExactlyTimingFree(action);
    ResolveRecordedLegalAction(LegalList(arena, before), action);
    MoveByMeaning(arena, before, action, next, LegalList(arena, before), action);
  }

  /** The auditor row of a legal move describes that move. */
  lemma MoveIsDescribed(env: Env, arena: Arena, before: State, next: State, action: Json,
                        provenance: Option<Provenance>, id: Option<string>, attempt: Option<string>)
    returns (row: TraceRow)
    requires WellTyped(arena, before) && TimingFree(before)
    requires Constructible(next) && TimingFree(next)
    requires Canon(action) == action && ArenaMove(arena, before, action, next)
    ensures row == CanonRow(View(MakeTrace(env.hash, arena, before, next, action, "action",
                                           provenance, id, attempt), Auditor))
    ensures ReadableRow(row) && Describes(env.hash, arena, row, before, next)
  {
    row := RowIsReadable(env, arena, before, next, action, "action", provenance, id, attempt);
    assert "action"[0] == 'a' && "forfeit"[0] == 'f';
    ReadableRowDescribes(env.hash, arena, row, before, next);
  }

  /** A row whose header and effect are right describes its step. */
  lemma ReadableRowDescribes(hash: StateHasher, arena: Arena, row: TraceRow, before: State,
                             next: State)
    requires HeaderDescribes(hash, row, before, next) && LeadsTo(arena, row, before, next)
    ensures Describes(hash, arena, row, before, next)
  {
    hide FromPayload, LeadsTo, PyEq;
    Evidence.FromPayloadDecodes(hash, row.stateBefore, before);
    Evidence.FromPayloadDecodes(hash, row.stateAfter, next);
  }

  /** The auditor row of a forfeit describes that forfeit, whatever the agent had answered. */
  lemma ForfeitIsDescribed(env: Env, arena: Arena, before: State, action: Json, reason: string)
    returns (row: TraceRow)
    requires WellTyped(arena, before) && TimingFree(before)
    ensures var next := ForfeitState(arena, before, before.activePlayer.s, reason);
            row == CanonRow(View(MakeTrace(env.hash, arena, before, next, action, "forfeit",
                                           None, None, None), Auditor))
            && ReadableRow(row) && Describes(env.hash, arena, row, before, next)
  {
    hide HeaderDescribes, FromPayload, CanonRow, View, MakeTrace, ForfeitState, TimingFree;
    ForfeitStateIsSound(arena, before, before.activePlayer.s, reason);
    var next := ForfeitState(arena, before, before.activePlayer.s, reason);
    row := RowIsReadable(env, arena, before, next, action, "forfeit", None, None, None);
    ReadableRowDescribes(env.hash, arena, row, before, next);
  }

  lemma ReplayRowShows(env: Env, arena: Arena, s: State, action: Json, actor: Json,
                       provenance: Option<Provenance>, id: Option<string>, attempt: Option<string>)
    ensures Shows(env.hash, MakeReplay(env.hash, arena, s, action, actor, provenance, id, attempt), s)
  {
    PyEqReflexive(s.turn);
  }

  predicate ReadableRow(row: TraceRow) {
    IsTransition(row) && !Unhashable(Read(row.eventType))
    && Read(row.stateBefore).JObj? && Read(row.stateAfter).JObj?
  }

  /** The rows written so far are a real run through `states`, which ends at the current state. */
  ghost predicate Recorded(env: Env, arena: Arena, m: Match, states: seq<State>) {
    && |m.replay| == |m.trace| + 1
    && |states| == |m.trace| + 1
    && states[|states| - 1] == m.state
    && (forall i | 0 <= i < |m.trace| :: ReadableRow(AuditorRows(m.trace)[i]))
    && Snapshots(env.hash, m.replay, states)
    && RealRun(env.hash, arena, AuditorRows(m.trace), m.replay, states)
  }

  lemma SnapshotsGrow(hash: StateHasher, replay: seq<ReplayRow>, states: seq<State>, r: ReplayRow,
                      s: State)
    requires |replay| == |states| && Snapshots(hash, replay, states) && Shows(hash, r, s)
    ensures Snapshots(hash, replay + [r], states + [s])
  {
  }

  lemma AuditorRowsGrow(trace: seq<TraceEvent>, e: TraceEvent)
    ensures AuditorRows(trace + [e]) == AuditorRows(trace) + [CanonRow(View(e, Auditor))]
  {
  }

  lemma RecordGrows(env: Env, arena: Arena, m: Match, states: seq<State>, after: Match,
                    e: TraceEvent, row: TraceRow, r: ReplayRow)
    requires Recorded(env, arena, m, states)
    requires after.trace == m.trace + [e] && after.replay == m.replay + [r]
    requires row == CanonRow(View(e, Auditor)) && ReadableRow(row)
    requires Describes(env.hash, arena, row, m.state, after.state)
    requires Shows(env.hash, r, after.state)
    ensures Recorded(env, arena, after, states + [after.state])
  {
    AuditorRowsGrow(m.trace, e);
    SnapshotsGrow(env.hash, m.replay, states, r, after.state);
    RealRunGrows(env.hash, arena, AuditorRows(m.trace), m.replay, states, row, r, after.state);
  }

  lemma RealRunGrows(hash: StateHasher, arena: Arena, rows: seq<TraceRow>, replay: seq<ReplayRow>,
                     states: seq<State>, row: TraceRow, r: ReplayRow, s: State)
    requires RealRun(hash, arena, rows, replay, states)
    requires Snapshots(hash, replay + [r], states + [s])
    requires Describes(hash, arena, row, states[|states| - 1], s)
    ensures RealRun(hash, arena, rows + [row], replay + [r], states + [s])
  {
    var rows', states' := rows + [row], states + [s];
    forall i | 0 <= i < |rows'|
      ensures Describes(hash, arena, rows'[i], states'[i], states'[i + 1])
    {
      if i < |rows| {
        assert Describes(hash, arena, rows[i], states[i], states[i + 1]);
      }
    }
  }

  // ----- what every run keeps -----

  /** Nothing about the state hinders scoring it: it is terminal, or open with no outcome yet. */
  predicate Settled(s: State) {
    && s.turn.JInt? && s.terminal.JBool? && NoTiming(s.outcome)
    && (s.terminal == JBool(false) ==> s.outcome == JNull)
  }

  ghost predicate IsRecorded(env: Env, arena: Arena, m: Match) {
    Settled(m.state) && exists states :: Recorded(env, arena, m, states)
  }

  /** The invariant of the loop. */
  ghost predicate InPlay(env: Env, arena: Arena, m: Match) {
    && GoodState(arena, m.state) && IsRecorded(env, arena, m)
    && Flags(m) && |m.logicalActions| == |m.trace|
  }

  lemma OpeningIsInPlay(env: Env, arena: Arena, s: State)
    requires GoodState(arena, s)
    ensures InPlay(env, arena, Opening(env, arena, s))
  {
    var m := Opening(env, arena, s);
    ReplayRowShows(env, arena, s, JNull, JNull, None, None, None);
    assert Recorded(env, arena, m, [s]);
  }

  lemma SameRecordIsRecorded(env: Env, arena: Arena, m: Match, after: Match)
    requires IsRecorded(env, arena, m) && SameRecord(after, m)
    ensures IsRecorded(env, arena, after)
  {
    var states :| Recorded(env, arena, m, states);
    assert Recorded(env, arena, after, states);
  }

  lemma EndingIsRecorded(env: Env, arena: Arena, m: Match, after: Match)
    requires InPlay(env, arena, m) && EndsFrom(env, arena, m, after)
    ensures IsRecorded(env, arena, after)
  {
    if SameRecord(after, m) {
      SameRecordIsRecorded(env, arena, m, after);
    } else {
      var action, reason :| ForfeitedTo(env, arena, m, after, action, reason);
      ForfeitIsRecorded(env, arena, m, after, action, reason);
    }
  }

  /** One more described row and its snapshot keep the match recorded. */
  lemma RowIsAdded(env: Env, arena: Arena, m: Match, after: Match, e: TraceEvent, row: TraceRow,
                   r: ReplayRow)
    requires IsRecorded(env, arena, m) && Settled(after.state)
    requires after.trace == m.trace + [e] && after.replay == m.replay + [r]
    requires row == CanonRow(View(e, Auditor)) && ReadableRow(row)
    requires Describes(env.hash, arena, row, m.state, after.state)
    requires Shows(env.hash, r, after.state)
    ensures IsRecorded(env, arena, after)
  {
    var states :| Recorded(env, arena, m, states);
    RecordGrows(env, arena, m, states, after, e, row, r);
  }

  lemma ForfeitIsRecorded(env: Env, arena: Arena, m: Match, after: Match, action: Json,
                          reason: string)
    requires WellTyped(arena, m.state) && TimingFree(m.state) && IsRecorded(env, arena, m)
    requires ForfeitedTo(env, arena, m, after, action, reason)
    ensures IsRecorded(env, arena, after)
  {
    var row := ForfeitIsDescribed(env, arena, m.state, action, reason);
    ForfeitStateIsSound(arena, m.state, m.state.activePlayer.s, reason);
    var next := ForfeitState(arena, m.state, m.state.activePlayer.s, reason);
    ReplayRowShows(env, arena, next, action, m.state.activePlayer, None, None, None);
    var e := MakeTrace(env.hash, arena, m.state, next, action, "forfeit", None, None, None);
    var r := MakeReplay(env.hash, arena, next, action, m.state.activePlayer, None, None, None);
    RowIsAdded(env, arena, m, after, e, row, r);
  }

  lemma MoveIsRecorded(env: Env, arena: Arena, c: Config, m: Match, prepared: Match,
                       action: Json, provenance: Provenance, next: State)
    requires Contract(arena) && GoodState(arena, m.state) && IsRecorded(env, arena, m)
    requires SameRecord(prepared, m) && action in LegalList(arena, m.state)
    requires arena.apply(m.state, m.state.activePlayer, action) == Some(next)
    ensures IsRecorded(env, arena, Record(env, arena, c, prepared, m.state.activePlayer.s, action,
                                          provenance, next))
  {
    LegalMoveIsArenaMove(arena, m.state, next, action);
    GoodMoveIsRecorded(env, arena, c, m, prepared, action, provenance, next);
  }

  lemma GoodMoveIsRecorded(env: Env, arena: Arena, c: Config, m: Match, prepared: Match,
                           action: Json, provenance: Provenance, next: State)
    requires WellTyped(arena, m.state) && TimingFree(m.state) && IsRecorded(env, arena, m)
    requires WellTyped(arena, next) && TimingFree(next) && Settled(next)
    requires SameRecord(prepared, m)
    requires Canon(action) == action && ArenaMove(arena, m.state, action, next)
    ensures IsRecorded(env, arena, Record(env, arena, c, prepared, m.state.activePlayer.s, action,
                                          provenance, next))
  {
    hide IsRecorded, Describes, Shows, MakeTrace, MakeReplay, ArenaMove, TimingFree, View, CanonRow,
         ReadableRow, AppliedEventId, MarkApplied, Canon, NoTiming;
    var after := Record(env, arena, c, prepared, m.state.activePlayer.s, action, provenance, next);
    var id := LogicalId(c, m.state.activePlayer.s, m.state.turn.i);
    var attempt := AppliedEventId(after.receipts, id);
    var row := MoveIsDescribed(env, arena, m.state, next, action, Some(provenance), Some(id),
                               attempt);
    ReplayRowShows(env, arena, next, action, m.state.activePlayer, Some(provenance), Some(id),
                   attempt);
    var e := MakeTrace(env.hash, arena, m.state, next, action, "action", Some(provenance),
                       Some(id), attempt);
    var r := MakeReplay(env.hash, arena, next, action, m.state.activePlayer, Some(provenance),
                        Some(id), attempt);
    RowIsAdded(env, arena, m, after, e, row, r);
  }

  /** One pass keeps the invariant, or ends with a recorded match that all three flags reject. */
  lemma TurnKeepsTheRecord(env: Env, arena: Arena, c: Config, m: Match, reply: Reply)
    requires Contract(arena) && InPlay(env, arena, m)
    ensures var step := TakeTurn(env, arena, c, LegalList(arena, m.state), m, reply);
            && (step.Broke? ==> IsRecorded(env, arena, step.m) && Tainted(step.m))
            && (step.Continued? ==> InPlay(env, arena, step.m))
  {
    var legal := LegalList(arena, m.state);
    TurnShape(env, arena, c, legal, m, reply);
    TurnMovesTheState(env, arena, c, m, reply);
    var step := TakeTurn(env, arena, c, legal, m, reply);
    if step.Broke? {
      EndingIsRecorded(env, arena, m, step.m);
    } else if step.Continued? {
      var choice, next :| Moved(env, arena, c, legal, m, reply, step.m, choice, next);
      LegalIsMembership(legal, choice.action);
      MoveIsRecorded(env, arena, c, m, choice.m, choice.action, choice.provenance, next);
    }
  }

  /** How a run that did not raise leaves the loop. */
  ghost predicate Closed(env: Env, arena: Arena, c: Config, m: Match) {
    && IsRecorded(env, arena, m)
    && (Tainted(m) || (Over(c, m.state) && Flags(m) && |m.logicalActions| == |m.trace|))
  }

  lemma {:induction false} PlayIsClosed(env: Env, arena: Arena, c: Config, agent: Agent, m: Match)
    requires Contract(arena) && InPlay(env, arena, m)
    ensures var out := PlayFrom(env, arena, c, agent, m);
            out.Stopped? ==> Closed(env, arena, c, out.m)
    decreases if m.state.turn.i < c.maxTurns then c.maxTurns - m.state.turn.i else 0
  {
    if !Over(c, m.state) {
      var reply := agent(MakeRequest(env, c, LegalList(arena, m.state), m));
      TurnMovesTheState(env, arena, c, m, reply);
      TurnKeepsTheRecord(env, arena, c, m, reply);
      var step := TakeTurn(env, arena, c, LegalList(arena, m.state), m, reply);
      if step.Continued? {
        PlayIsClosed(env, arena, c, agent, step.m);
      }
    }
  }

  /** How a finished run ends: recorded, and either rejected by all flags or cleanly over. */
  ghost predicate Finished(env: Env, arena: Arena, m: Match) {
    && IsRecorded(env, arena, m)
    && (Tainted(m) || (m.state.terminal == JBool(true) && Flags(m)
                       && |m.logicalActions| == |m.trace|))
  }

  lemma FinaliseCloses(env: Env, arena: Arena, c: Config, m: Match)
    requires Closed(env, arena, c, m) && Finalise(env, c, m).Some?
    ensures Finished(env, arena, Finalise(env, c, m).value)
  {
    SameRecordIsRecorded(env, arena, m, Finalise(env, c, m).value);
  }

  lemma FinishedRunIsClosed(env: Env, arena: Arena, c: Config, agent: Agent, seed: int)
    requires Contract(arena)
    requires Run(env, arena, c, agent, seed).Some?
    ensures Finished(env, arena, Run(env, arena, c, agent, seed).value)
  {
    var opening := Opening(env, arena, arena.initial(seed));
    OpeningIsInPlay(env, arena, arena.initial(seed));
    PlayIsClosed(env, arena, c, agent, opening);
    FinaliseCloses(env, arena, c, PlayFrom(env, arena, c, agent, opening).m);
  }

  /**
   Scoring validity at the end of every run: the flag, the missing reason and the
   empty code list say the same thing, and a valid match is terminal, free of
   errors, illegal actions and fallbacks, with one trace row per logical action.
   */
  lemma ScoringValidity(env: Env, arena: Arena, c: Config, agent: Agent, seed: int)
    requires Contract(arena)
    requires Run(env, arena, c, agent, seed).Some?
    ensures var m := Run(env, arena, c, agent, seed).value;
            && (m.valid <==> m.reason == None)
            && (m.valid <==> m.codes == [])
            && (m.valid ==>
                  m.state.terminal == JBool(true)
                  && m.agentErrors == m.illegalActions == m.fallbackActions == multiset{}
                  && |m.logicalActions| == |m.trace|)
  {
    FinishedRunIsClosed(env, arena, c, agent, seed);
  }

  lemma {:induction false} AllRowsAreTransitions(rows: seq<TraceRow>)
    requires forall i | 0 <= i < |rows| :: IsTransition(rows[i])
    ensures Transitions(rows) == rows
  {
    if rows != [] {
      AllRowsAreTransitions(rows[1..]);
    }
  }

  lemma WrittenArtifactPassesThePrelude(env: Env, arena: Arena, registry: Registry, version: string,
                                        m: Match, eligible: bool)
    requires IsRecorded(env, arena, m) && registry(arena.id) == Some(arena)
    requires m.valid ==> m.state.terminal == JBool(true)
    ensures var a := WrittenArtifact(arena, version, m, eligible);
            PreludePasses(registry, a, arena) && DeclaredRecorded(a.manifest)
            && Transitions(a.auditor.value) == AuditorRows(m.trace)
  {
    hide RealRun, PyEq, View, CanonRow, FromPayload;
    var a := WrittenArtifact(arena, version, m, eligible);
    var states :| Recorded(env, arena, m, states);
    assert forall i | 0 <= i < |m.trace| :: ReadableRow(AuditorRows(m.trace)[i]);
    AllRowsAreTransitions(AuditorRows(m.trace));
    CanonKeepsExactlyTimingFree(m.state.outcome);
    assert Shows(env.hash, m.replay[|m.replay| - 1], m.state);
  }

  /**
   Completeness: whatever the arena, the agents and the failure policies, the
   artifact of a finished run is verified without a single error. This covers
   empty, truncated, forfeited and fallback runs, and needs nothing of the digest.
   */
  lemma EveryRunIsAccepted(env: Env, arena: Arena, c: Config, agent: Agent, seed: int,
                           registry: Registry, version: string, eligible: bool)
    requires Contract(arena) && registry(arena.id) == Some(arena)
    requires Run(env, arena, c, agent, seed).Some?
    ensures Validate(env.hash, registry,
                     WrittenArtifact(arena, version, Run(env, arena, c, agent, seed).value,
                                     eligible))
            == Report(Verified, [])
  {
    var m := Run(env, arena, c, agent, seed).value;
    FinishedRunIsClosed(env, arena, c, agent, seed);
    WrittenArtifactPassesThePrelude(env, arena, registry, version, m, eligible);
    var a := WrittenArtifact(arena, version, m, eligible);
    CleanPreludeLeavesOnlyRows(env.hash, registry, a, arena);
    var states :| Recorded(env, arena, m, states);
    if m.trace != [] {
      RealRunIsChain(env.hash, arena, m.replay, AuditorRows(m.trace), states);
      AChainIsClean(env.hash, arena, m.replay, AuditorRows(m.trace), 0, None, states);
    }
  }
}

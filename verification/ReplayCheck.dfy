/**
 The deterministic replay validator: it re-executes an artifact's auditor trace
 and compares every state with the public replay. The rows it is given are
 arbitrary JSON; nothing is assumed about who wrote them.
 */
module ReplayCheck {
  import opened Options
  import opened Json
  import opened Arenas
  import opened Events

  datatype ReplayMetadata =
    ReplayMetadata(status: Json, version: Json, actionCount: Json, replayCount: Json)

  datatype Manifest = Manifest(
    deterministic: Option<ReplayMetadata>, arenaVersion: Json, matchValid: Json, perCase: Json,
    proofRow: Json, aggregate: Json)

  datatype ScoreFile =
    | Unreadable
    | NotAnObject
    | ScoreFile(arenaId: Json, outcome: Json, matchValid: Json)

  /** The members the validator opens. None is a file that is missing or not JSON objects. */
  datatype Artifact = Artifact(
    manifest: Manifest, auditor: Option<seq<TraceRow>>, replay: Option<seq<ReplayRow>>,
    score: ScoreFile)

  datatype SnapshotKey =
    | OfHash | OfPlayer | OfPublic | OfScores | OfTerminal | OfOutcome | OfHints | OfTurn

  datatype ReplayError =
    | UnsupportedVersion
    | UnreadableRows
    | MissingStates
    | NoArenaId
    | UnknownArena
    | ActionCountMismatch | ReplayCountMismatch | LengthMismatch
    | NoReplayEvents | ScoreUnreadable | ScoreNotObject
    | NonterminalEligible | TerminalOutcomeMismatch | ScoreOutcomeNotTerminal | ScoreOutcomeMismatch
    | BadState(index: nat)
    | BrokenChain(index: nat)
    | TurnMismatch(index: nat) | PlayerMismatch(index: nat)
    | HashBeforeMismatch(index: nat) | HashAfterMismatch(index: nat)
    | SnapshotMissing(index: nat)
    | SnapshotMismatch(index: nat, key: SnapshotKey)
    | ForfeitNotTerminal(index: nat) | ForfeitWithoutOutcome(index: nat)
    | ActionNotLegal(index: nat) | ActionFailed(index: nat)
    | StateAfterMismatch(index: nat) | PayloadMismatch(index: nat)

  datatype Status = NotRecorded | Invalid | Verified

  /** `Raised` is an exception that escapes the validator. */
  datatype Report = Raised | Report(status: Status, errors: seq<ReplayError>)

  const REPLAY_VERSION: Json := JStr("eslams-deterministic-replay-v1")

  type Registry = string -> Option<Arena>

  function When(c: bool, e: ReplayError): seq<ReplayError> {
    if c then [e] else []
  }

  /** `_compare_replay_snapshot`. */
  function SnapshotErrors(hash: StateHasher, replay: seq<ReplayRow>, index: nat, s: State)
    : seq<ReplayError>
  {
    if index >= |replay| then [SnapshotMissing(index)]
    else
      var r := replay[index];
      When(r.stateHash != JStr(hash(s)), SnapshotMismatch(index, OfHash))
      + When(r.activePlayer != s.activePlayer, SnapshotMismatch(index, OfPlayer))
      + When(r.publicState != s.publicState, SnapshotMismatch(index, OfPublic))
      + When(r.scores != s.scores, SnapshotMismatch(index, OfScores))
      + When(r.terminal != s.terminal, SnapshotMismatch(index, OfTerminal))
      + When(r.outcome != s.outcome, SnapshotMismatch(index, OfOutcome))
      + When(r.renderHints != s.renderHints, SnapshotMismatch(index, OfHints))
      + When(!PyEq(r.turnId, s.turn), SnapshotMismatch(index, OfTurn))
  }

  /** `_resolve_recorded_action`: the first legal action Python takes for the recorded one. */
  function Resolve(legal: seq<Json>, recorded: Json): Json {
    if legal == [] then recorded
    else if PyEq(legal[0], recorded) then legal[0]
    else Resolve(legal[1..], recorded)
  }

  predicate IsForfeitRow(row: TraceRow) {
    Read(row.eventType) == JStr("forfeit")
  }

  predicate IsTransition(row: TraceRow) {
    Read(row.eventType) == JStr("action") || IsForfeitRow(row)
  }

  /** An unhashable event type makes the membership test itself raise. */
  predicate Unhashable(j: Json) {
    j.JList? || j.JObj?
  }

  function Transitions(rows: seq<TraceRow>): seq<TraceRow> {
    if rows == [] then []
    else (if IsTransition(rows[0]) then [rows[0]] else []) + Transitions(rows[1..])
  }

  function HeaderErrors(hash: StateHasher, index: nat, row: TraceRow, before: State, after: State,
                        previous: Option<State>): seq<ReplayError>
  {
    When(previous.Some? && hash(before) != hash(previous.value), BrokenChain(index))
    + When(!PyEq(Read(row.turnId), before.turn), TurnMismatch(index))
    + When(!PyEq(Read(row.activePlayer), before.activePlayer), PlayerMismatch(index))
    + When(Read(row.stateHashBefore) != JStr(hash(before)), HashBeforeMismatch(index))
    + When(Read(row.stateHashAfter) != JStr(hash(after)), HashAfterMismatch(index))
  }

  predicate IsForfeitOutcome(outcome: Json) {
    outcome.JObj? && Get(outcome.fields, ReasonKey) == JStr("forfeit")
  }

  /** The part of one iteration after the row's own header; None is an escaping exception. */
  function MoveErrors(hash: StateHasher, arena: Arena, replay: seq<ReplayRow>, index: nat,
                      row: TraceRow, before: State, after: State): Option<seq<ReplayError>>
  {
    if IsForfeitRow(row) then
      Some(When(!Truthy(after.terminal), ForfeitNotTerminal(index))
           + When(!IsForfeitOutcome(after.outcome), ForfeitWithoutOutcome(index))
           + SnapshotErrors(hash, replay, index + 1, after))
    else
      var legal := Legal(arena, before, before.activePlayer);
      if legal == None then None
      else
        var action := Resolve(legal.value, Read(row.action));
        if !IsLegal(legal.value, action) then Some([ActionNotLegal(index)])
        else
          var computed := arena.apply(before, before.activePlayer, action);
          if computed == None then Some([ActionFailed(index)])
          else
            Some(When(hash(computed.value) != hash(after), StateAfterMismatch(index))
                 + When(ToJson(hash, computed.value) != ToJson(hash, after), PayloadMismatch(index))
                 + SnapshotErrors(hash, replay, index + 1, computed.value))
  }

  datatype RowResult = RowRaised | RowChecked(errors: seq<ReplayError>, previous: Option<State>)

  /** One iteration of the validator's loop. */
  function CheckRow(hash: StateHasher, arena: Arena, replay: seq<ReplayRow>, index: nat,
                    row: TraceRow, previous: Option<State>): RowResult
  {
    var before := FromPayload(hash, Read(row.stateBefore));
    var after := FromPayload(hash, Read(row.stateAfter));
    if before == None || after == None then RowChecked([BadState(index)], previous)
    else
      var move := MoveErrors(hash, arena, replay, index, row, before.value, after.value);
      if move == None then RowRaised
      else
        RowChecked(HeaderErrors(hash, index, row, before.value, after.value, previous)
                   + SnapshotErrors(hash, replay, index, before.value)
                   + move.value,
                   after)
  }

  /** The loop from row `index` on. */
  function CheckRows(hash: StateHasher, arena: Arena, replay: seq<ReplayRow>, rows: seq<TraceRow>,
                     index: nat, previous: Option<State>): Option<seq<ReplayError>>
    requires index <= |rows|
    decreases |rows| - index
  {
    if index == |rows| then Some([])
    else
      match CheckRow(hash, arena, replay, index, rows[index], previous)
      case RowRaised => None
      case RowChecked(errors, next) =>
        Prepend(errors, CheckRows(hash, arena, replay, rows, index + 1, next))
  }

  function Prepend<T>(xs: seq<T>, rest: Option<seq<T>>): Option<seq<T>> {
    if rest == None then None else Some(xs + rest.value)
  }

  function CountErrors(meta: Option<ReplayMetadata>, actions: nat, replays: nat): seq<ReplayError> {
    if meta == None then []
    else
      When(PyInt(meta.value.actionCount).Some? && PyInt(meta.value.actionCount).value != actions,
           ActionCountMismatch)
      + When(PyInt(meta.value.replayCount).Some? && PyInt(meta.value.replayCount).value != replays,
             ReplayCountMismatch)
  }

  const JTRUE: Json := JBool(true)

  predicate ClaimsEligibility(m: Manifest, score: ScoreFile)
    requires score.ScoreFile?
  {
    score.matchValid == JTRUE || m.matchValid == JTRUE || m.perCase == JTRUE
    || m.proofRow == JTRUE || m.aggregate == JTRUE
  }

  /** `_validate_score_terminal_matches_last_replay`. */
  function ScoreErrors(m: Manifest, score: ScoreFile, replay: seq<ReplayRow>): seq<ReplayError> {
    if replay == [] then [NoReplayEvents]
    else
      match score
      case Unreadable => [ScoreUnreadable]
      case NotAnObject => [ScoreNotObject]
      case ScoreFile(_, outcome, _) =>
        var last := replay[|replay| - 1];
        When(last.terminal != JTRUE && ClaimsEligibility(m, score), NonterminalEligible)
        + (if outcome == JNull then
             When(Truthy(last.terminal) && last.outcome != JNull, TerminalOutcomeMismatch)
           else
             When(last.terminal != JTRUE, ScoreOutcomeNotTerminal)
             + When(outcome != last.outcome, ScoreOutcomeMismatch))
  }

  /** The text before the first colon, when there is a colon. */
  function BeforeColon(s: string): Option<string> {
    if s == "" then None
    else if s[0] == ':' then Some("")
    else match BeforeColon(s[1..])
      case None => None
      case Some(rest) => Some([s[0]] + rest)
  }

  /** `_artifact_arena_id`. */
  function ArenaId(m: Manifest, score: ScoreFile): Option<string> {
    if score.Unreadable? then None
    else if score.ScoreFile? && score.arenaId.JStr? then Some(score.arenaId.s)
    else if m.arenaVersion.JStr? then BeforeColon(m.arenaVersion.s)
    else None
  }

  predicate DeclaredRecorded(m: Manifest) {
    m.deterministic.Some? && m.deterministic.value.status == JStr("recorded")
  }

  predicate HasStates(rows: seq<TraceRow>) {
    forall i | 0 <= i < |rows| :: Read(rows[i].stateBefore).JObj? && Read(rows[i].stateAfter).JObj?
  }

  function VersionErrors(m: Manifest): seq<ReplayError> {
    When(DeclaredRecorded(m) && m.deterministic.value.version != REPLAY_VERSION, UnsupportedVersion)
  }

  function Finish(errors: seq<ReplayError>): Report {
    Report(if errors == [] then Verified else Invalid, errors)
  }

  /** `_validate_deterministic_replay`. */
  function Validate(hash: StateHasher, registry: Registry, a: Artifact): Report {
    var required := DeclaredRecorded(a.manifest);
    var versionErrors := VersionErrors(a.manifest);
    if a.auditor == None || a.replay == None then Report(Invalid, versionErrors + [UnreadableRows])
    else if exists i | 0 <= i < |a.auditor.value| :: Unhashable(Read(a.auditor.value[i].eventType))
    then Raised
    else
      var rows := Transitions(a.auditor.value);
      var replay := a.replay.value;
      if rows == [] && !required then Report(NotRecorded, versionErrors)
      else if !HasStates(rows) then
        if required then Report(Invalid, versionErrors + [MissingStates])
        else Report(NotRecorded, versionErrors)
      else if ArenaId(a.manifest, a.score) == None then Report(Invalid, versionErrors + [NoArenaId])
      else
        var arena := registry(ArenaId(a.manifest, a.score).value);
        if arena == None then Report(Invalid, versionErrors + [UnknownArena])
        else
          match CheckRows(hash, arena.value, replay, rows, 0, None)
          case None => Raised
          case Some(rowErrors) =>
            Finish(versionErrors + PreludeErrors(a.manifest, a.score, rows, replay) + rowErrors)
  }

  function PreludeErrors(m: Manifest, score: ScoreFile, rows: seq<TraceRow>,
                         replay: seq<ReplayRow>): seq<ReplayError>
  {
    CountErrors(m.deterministic, |rows|, |replay|)
    + When(|replay| != |rows| + 1, LengthMismatch)
    + ScoreErrors(m, score, replay)
  }

  // ----- the imperative validator -----

  method CollectTransitions(auditor: seq<TraceRow>) returns (raised: bool, rows: seq<TraceRow>)
    ensures raised <==> exists i | 0 <= i < |auditor| :: Unhashable(Read(auditor[i].eventType))
    ensures !raised ==> rows == Transitions(auditor)
  {
    raised, rows := false, [];
    var i := 0;
    while i < |auditor|
      invariant 0 <= i <= |auditor|
      invariant forall j | 0 <= j < i :: !Unhashable(Read(auditor[j].eventType))
      invariant Transitions(auditor) == rows + Transitions(auditor[i..])
    {
      if Unhashable(Read(auditor[i].eventType)) {
        return true, [];
      }
      if IsTransition(auditor[i]) {
        rows := rows + [auditor[i]];
      }
      i := i + 1;
    }
  }

  /** The validator as the source runs it: one pass with a previous state and an error list. */
  method ValidateDeterministicReplay(hash: StateHasher, registry: Registry, a: Artifact)
    returns (report: Report)
    ensures report == Validate(hash, registry, a)
  {
    var errors := VersionErrors(a.manifest);
    if a.auditor == None || a.replay == None {
      return Report(Invalid, errors + [UnreadableRows]);
    }
    var replay := a.replay.value;
    var raised, rows := CollectTransitions(a.auditor.value);
    if raised {
      return Raised;
    }
    if rows == [] && !DeclaredRecorded(a.manifest) {
      return Report(NotRecorded, errors);
    }
    if !HasStates(rows) {
      if DeclaredRecorded(a.manifest) {
        return Report(Invalid, errors + [MissingStates]);
      }
      return Report(NotRecorded, errors);
    }
    var id := ArenaId(a.manifest, a.score);
    if id == None {
      return Report(Invalid, errors + [NoArenaId]);
    }
    var arena := registry(id.value);
    if arena == None {
      return Report(Invalid, errors + [UnknownArena]);
    }
    errors := errors + PreludeErrors(a.manifest, a.score, rows, replay);
    var failed, found := ReplayRows(hash, arena.value, replay, rows);
    if failed {
      return Raised;
    }
    errors := errors + found;
    report := Finish(errors);
  }

  lemma PrependTwice<T>(xs: seq<T>, ys: seq<T>, rest: Option<seq<T>>)
    ensures Prepend(xs, Prepend(ys, rest)) == Prepend(xs + ys, rest)
    ensures Prepend([], rest) == rest
  {
    if rest.Some? {
      assert xs + (ys + rest.value) == (xs + ys) + rest.value;
      assert [] + rest.value == rest.value;
    }
  }

  /** One pass of the loop body. */
  method ReplayRow(hash: StateHasher, arena: Arena, replay: seq<ReplayRow>, index: nat,
                   row: TraceRow, previous: Option<State>)
    returns (raised: bool, errors: seq<ReplayError>, next: Option<State>)
    ensures CheckRow(hash, arena, replay, index, row, previous)
            == if raised then RowRaised else RowChecked(errors, next)
  {
    raised, errors, next := false, [], previous;
    var before := FromPayload(hash, Read(row.stateBefore));
    var after := FromPayload(hash, Read(row.stateAfter));
    if before == None || after == None {
      errors := [BadState(index)];
      return;
    }
    errors := HeaderErrors(hash, index, row, before.value, after.value, previous);
    errors := errors + SnapshotErrors(hash, replay, index, before.value);
    var move := MoveErrors(hash, arena, replay, index, row, before.value, after.value);
    if move == None {
      return true, [], None;
    }
    errors := errors + move.value;
    next := after;
  }

  method ReplayRows(hash: StateHasher, arena: Arena, replay: seq<ReplayRow>, rows: seq<TraceRow>)
    returns (raised: bool, errors: seq<ReplayError>)
    ensures CheckRows(hash, arena, replay, rows, 0, None) == if raised then None else Some(errors)
  {
    raised, errors := false, [];
    var previous: Option<State> := None;
    var index := 0;
    PrependTwice([], [], CheckRows(hash, arena, replay, rows, 0, None));
    while index < |rows|
      invariant 0 <= index <= |rows|
      invariant CheckRows(hash, arena, replay, rows, 0, None)
             == Prepend(errors, CheckRows(hash, arena, replay, rows, index, previous))
    {
      var broke, found, next := ReplayRow(hash, arena, replay, index, rows[index], previous);
      if broke {
        return true, [];
      }
      PrependTwice(errors, found, CheckRows(hash, arena, replay, rows, index + 1, next));
      errors := errors + found;
      previous := next;
      index := index + 1;
    }
    assert errors + [] == errors;
  }
}

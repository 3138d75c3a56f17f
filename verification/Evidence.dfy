/**
 What an artifact must show to be accepted, written out on the fields of its files. Nothing here is
 shared with the validator; the lemmas connect the two.
 */
module Evidence {
  import opened Options
  import opened Json
  import opened Arenas
  import opened Events
  import opened ReplayCheck

  // ----- rows -----

  predicate IsForfeit(row: TraceRow) {
    row.eventType == Some(JStr("forfeit"))
  }

  /** A row that changes the state: a move or a forfeit. */
  predicate IsStep(row: TraceRow) {
    row.eventType == Some(JStr("action")) || IsForfeit(row)
  }

  function Steps(rows: seq<TraceRow>): seq<TraceRow> {
    if rows == [] then []
    else
      var last := |rows| - 1;
      if IsStep(rows[last]) then Steps(rows[..last]) + [rows[last]] else Steps(rows[..last])
  }

  lemma {:induction false} TransitionsConcat(a: seq<TraceRow>, b: seq<TraceRow>)
    ensures Transitions(a + b) == Transitions(a) + Transitions(b)
  {
    if a == [] {
      assert a + b == b;
    } else {
      TransitionsConcat(a[1..], b);
      assert (a + b)[1..] == a[1..] + b;
    }
  }

  lemma {:induction false} TransitionsAreSteps(rows: seq<TraceRow>)
    ensures Transitions(rows) == Steps(rows)
  {
    if rows != [] {
      var last := |rows| - 1;
      TransitionsAreSteps(rows[..last]);
      TransitionsConcat(rows[..last], [rows[last]]);
      assert rows == rows[..last] + [rows[last]];
      assert Transitions([rows[last]]) == if IsTransition(rows[last]) then [rows[last]] else [];
    }
  }

  /** An event type that is a list or an object stops the validator. */
  predicate Hashable(row: TraceRow) {
    row.eventType.Some? ==> !row.eventType.value.JList? && !row.eventType.value.JObj?
  }

  predicate CarriesStates(row: TraceRow) {
    row.stateBefore.Some? && row.stateBefore.value.JObj? && row.stateAfter.Some? && row.stateAfter.value.JObj?
  }

  lemma RowsCarryStates(rows: seq<TraceRow>)
    ensures HasStates(rows) <==> forall i | 0 <= i < |rows| :: CarriesStates(rows[i])
  {
    if HasStates(rows) {
      forall i | 0 <= i < |rows| ensures CarriesStates(rows[i]) {
        assert Read(rows[i].stateBefore).JObj? && Read(rows[i].stateAfter).JObj?;
      }
    }
    if forall i | 0 <= i < |rows| :: CarriesStates(rows[i]) {
      forall i | 0 <= i < |rows| ensures Read(rows[i].stateBefore).JObj? && Read(rows[i].stateAfter).JObj? {
        assert CarriesStates(rows[i]);
      }
    }
  }

  // ----- states -----

  predicate Holds(m: Object, k: Key, v: Json) {
    k in m && m[k] == v
  }

  /** The payload decodes to this state: eleven fields are there, and a stored digest is the state's own. */
  predicate Decodes(hash: StateHasher, payload: Option<Json>, s: State) {
    payload.Some? && payload.value.JObj? &&
    var m := payload.value.fields;
    Holds(m, StateId, s.stateId) && Holds(m, Turn, s.turn) && Holds(m, ActivePlayer, s.activePlayer) &&
    Holds(m, PublicState, s.publicState) && Holds(m, PrivateState, s.privateState) &&
    Holds(m, LegalActions, s.legalActions) && Holds(m, Scores, s.scores) && Holds(m, Terminal, s.terminal) &&
    Holds(m, Outcome, s.outcome) && Holds(m, RngCommitment, s.rng) && Holds(m, RenderHints, s.renderHints) &&
    (if Metadata in m then m[Metadata] == s.metadata else s.metadata == JObj(map[])) &&
    Num(s.turn).Some? && Num(s.turn).value >= 0.0 && Truthy(s.stateId) && Truthy(s.activePlayer) &&
    (StateHash in m && Truthy(m[StateHash]) ==> m[StateHash] == JStr(hash(s)))
  }

  lemma FromPayloadDecodes(hash: StateHasher, payload: Option<Json>, s: State)
    ensures FromPayload(hash, Read(payload)) == Some(s) <==> Decodes(hash, payload, s)
  {
    hide Num;
    assert !Truthy(JNull);
    if payload.Some? && payload.value.JObj? {
      RequiredAreThere(payload.value.fields);
      hide REQUIRED_FIELDS;
    }
  }

  lemma RequiredAreThere(m: Object)
    ensures REQUIRED_FIELDS <= m.Keys <==>
              StateId in m && Turn in m && ActivePlayer in m && PublicState in m && PrivateState in m &&
              LegalActions in m && Scores in m && Terminal in m && Outcome in m && RngCommitment in m && RenderHints in m
  {
  }

  // ----- moves -----

  /** The state lists these actions for the player to move. */
  predicate Offers(arena: Arena, s: State, legal: seq<Json>) {
    s.legalActions.JObj? && s.activePlayer.JStr? && Name(s.activePlayer.s) in s.legalActions.fields &&
    arena.listOf(s.legalActions.fields[Name(s.activePlayer.s)]) == Some(legal)
  }

  lemma LegalIsOffered(arena: Arena, s: State, legal: seq<Json>)
    requires legal != []
    ensures Legal(arena, s, s.activePlayer) == Some(legal) <==> Offers(arena, s, legal)
  {
  }

  predicate EndsInForfeit(s: State) {
    Truthy(s.terminal) && s.outcome.JObj? && Holds(s.outcome.fields, ReasonKey, JStr("forfeit"))
  }

  predicate MatchesFirstAt(legal: seq<Json>, recorded: Json, i: nat) {
    i < |legal| && PyEq(legal[i], recorded) && forall j: nat | j < i :: !PyEq(legal[j], recorded)
  }

  /** The action is the first legal one that Python takes for the recorded value. */
  predicate FirstMatch(legal: seq<Json>, recorded: Json, action: Json) {
    exists i: nat | i < |legal| :: MatchesFirstAt(legal, recorded, i) && legal[i] == action
  }

  lemma {:induction false} ResolveIsFirstMatch(legal: seq<Json>, recorded: Json, action: Json)
    ensures (Resolve(legal, recorded) == action && action in legal && PyEq(action, recorded))
            <==> FirstMatch(legal, recorded, action)
  {
    PyEqReflexive(recorded);
    hide PyEq;
    if legal != [] {
      ResolveIsFirstMatch(legal[1..], recorded, action);
      FirstMatchTail(legal, recorded, action);
      assert legal == [legal[0]] + legal[1..];
    }
  }

  lemma FirstMatchTail(legal: seq<Json>, recorded: Json, action: Json)
    requires legal != []
    ensures FirstMatch(legal, recorded, action)
            <==> if PyEq(legal[0], recorded) then action == legal[0] else FirstMatch(legal[1..], recorded, action)
  {
    hide PyEq, MatchesFirstAt;
    var rest := legal[1..];
    if PyEq(legal[0], recorded) {
      HeadMatches(legal, recorded);
    } else {
      if FirstMatch(legal, recorded, action) {
        var i: nat :| i < |legal| && MatchesFirstAt(legal, recorded, i) && legal[i] == action;
        TailMatches(legal, recorded, i);
        assert rest[i - 1] == legal[i];
      }
      if FirstMatch(rest, recorded, action) {
        var i: nat :| i < |rest| && MatchesFirstAt(rest, recorded, i) && rest[i] == action;
        TailMatches(legal, recorded, i + 1);
        assert legal[i + 1] == action;
      }
    }
  }

  lemma HeadMatches(legal: seq<Json>, recorded: Json)
    requires legal != [] && PyEq(legal[0], recorded)
    ensures forall i: nat :: MatchesFirstAt(legal, recorded, i) <==> i == 0
  {
    hide PyEq;
  }

  lemma TailMatches(legal: seq<Json>, recorded: Json, i: nat)
    requires legal != [] && !PyEq(legal[0], recorded)
    ensures MatchesFirstAt(legal, recorded, i) <==> i > 0 && MatchesFirstAt(legal[1..], recorded, i - 1)
  {
    hide PyEq;
    var rest := legal[1..];
    if i > 0 && i < |legal| {
      assert rest[i - 1] == legal[i];
      if MatchesFirstAt(legal, recorded, i) {
        forall j: nat | j < i - 1 ensures !PyEq(rest[j], recorded) { assert rest[j] == legal[j + 1]; }
      }
      if MatchesFirstAt(rest, recorded, i - 1) {
        forall j: nat | j < i ensures !PyEq(legal[j], recorded) { if j > 0 { assert rest[j - 1] == legal[j]; } }
      }
    }
  }

  // ----- the rest of the artifact -----

  /** The arena the artifact names: in its score file, or before the first colon of its arena version. */
  predicate Names(a: Artifact, id: string) {
    !a.score.Unreadable? &&
    if a.score.ScoreFile? && a.score.arenaId.JStr? then id == a.score.arenaId.s
    else
      a.manifest.arenaVersion.JStr? && var v := a.manifest.arenaVersion.s;
      |id| < |v| && v[..|id|] == id && v[|id|] == ':' && ':' !in id
  }

  lemma {:induction false} BeforeColonIsThePrefix(v: string, id: string)
    ensures BeforeColon(v) == Some(id) <==> |id| < |v| && v[..|id|] == id && v[|id|] == ':' && ':' !in id
  {
    if v != "" && v[0] != ':' {
      if id == "" {
      } else {
        BeforeColonIsThePrefix(v[1..], id[1..]);
        assert id == [id[0]] + id[1..];
        assert |id| <= |v| ==> (v[..|id|] == id <==> v[0] == id[0] && v[1..][..|id| - 1] == id[1..]);
      }
    }
  }

  lemma ArenaIdIsNamed(a: Artifact, id: string)
    ensures ArenaId(a.manifest, a.score) == Some(id) <==> Names(a, id)
  {
    if a.manifest.arenaVersion.JStr? { BeforeColonIsThePrefix(a.manifest.arenaVersion.s, id); }
  }

  predicate IsCount(j: Json, n: nat) {
    (j.JInt? ==> j.i == n) && (j.JBool? ==> n == if j.b then 1 else 0)
  }

  /** Declared counts that are numbers are the numbers of steps and of snapshots. */
  predicate CountsHold(m: Manifest, steps: nat, snapshots: nat) {
    m.deterministic.Some? ==>
      IsCount(m.deterministic.value.actionCount, steps) && IsCount(m.deterministic.value.replayCount, snapshots)
  }

  /** The score file agrees with the last snapshot. */
  predicate ScoreAgrees(m: Manifest, score: ScoreFile, last: ReplayRow) {
    score.ScoreFile? &&
    (score.outcome != JNull ==> last.terminal == JBool(true) && score.outcome == last.outcome) &&
    (score.outcome == JNull ==> !Truthy(last.terminal) || last.outcome == JNull) &&
    ((score.matchValid == JBool(true) || m.matchValid == JBool(true) || m.perCase == JBool(true) ||
      m.proofRow == JBool(true) || m.aggregate == JBool(true)) ==> last.terminal == JBool(true))
  }

  lemma ScoreAgreesWithoutErrors(m: Manifest, score: ScoreFile, replay: seq<ReplayRow>)
    ensures ScoreErrors(m, score, replay) == [] <==> replay != [] && ScoreAgrees(m, score, replay[|replay| - 1])
  {
  }

  lemma CountsHoldWithoutErrors(m: Manifest, steps: nat, snapshots: nat)
    ensures CountErrors(m.deterministic, steps, snapshots) == [] <==> CountsHold(m, steps, snapshots)
  {
  }

  /** Which complaint about the score file is made, and when. */
  lemma ScoreComplaints(m: Manifest, score: ScoreFile, replay: seq<ReplayRow>)
    requires replay != [] && score.ScoreFile?
    ensures var last := replay[|replay| - 1];
            var errors := ScoreErrors(m, score, replay);
            (ScoreOutcomeMismatch in errors <==> score.outcome != JNull && score.outcome != last.outcome) &&
            (ScoreOutcomeNotTerminal in errors <==> score.outcome != JNull && last.terminal != JBool(true)) &&
            (TerminalOutcomeMismatch in errors <==>
               score.outcome == JNull && Truthy(last.terminal) && last.outcome != JNull) &&
            (NonterminalEligible in errors <==>
               last.terminal != JBool(true) &&
               (score.matchValid == JBool(true) || m.matchValid == JBool(true) || m.perCase == JBool(true) ||
                m.proofRow == JBool(true) || m.aggregate == JBool(true)))
  {
  }

  /** Everything but the rows: files, rows that carry states, a known arena, version, counts and score. */
  ghost predicate SoundPrelude(registry: Registry, a: Artifact, arena: Arena) {
    a.auditor.Some? && a.replay.Some? &&
    (forall i | 0 <= i < |a.auditor.value| :: Hashable(a.auditor.value[i])) &&
    var rows, replay := Steps(a.auditor.value), a.replay.value;
    (forall i | 0 <= i < |rows| :: CarriesStates(rows[i])) &&
    (exists id :: Names(a, id) && registry(id) == Some(arena)) &&
    (IsRecorded(a.manifest) ==>
       a.manifest.deterministic.value.version == JStr("eslams-deterministic-replay-v1")) &&
    CountsHold(a.manifest, |rows|, |replay|) && |replay| == |rows| + 1 &&
    ScoreAgrees(a.manifest, a.score, replay[|replay| - 1])
  }

  /** The manifest declares a recorded replay. */
  predicate IsRecorded(m: Manifest) {
    m.deterministic.Some? && m.deterministic.value.status == JStr("recorded")
  }
}

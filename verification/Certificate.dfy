/**
 What an accepted artifact proves. Acceptance by the replay validator is
 equivalent to the existence of one unbroken chain of states.
 */
module Certificate {
  import opened Options
  import opened Json
  import opened Arenas
  import opened Events
  import opened ReplayCheck
  import opened Evidence

  /** The public snapshot shows exactly this state (the turn up to Python's numeric equality). */
  predicate Shows(hash: StateHasher, r: ReplayRow, s: State) {
    r.stateHash == JStr(hash(s)) && r.activePlayer == s.activePlayer
    && r.publicState == s.publicState && r.scores == s.scores && r.terminal == s.terminal
    && r.outcome == s.outcome && r.renderHints == s.renderHints && PyEq(r.turnId, s.turn)
  }

  /** An arena move: the first offered action the record can mean leads exactly to `after`. */
  ghost predicate ArenaMove(arena: Arena, before: State, recorded: Json, after: State) {
    exists legal, action :: MoveBy(arena, before, recorded, after, legal, action)
  }

  predicate MoveBy(arena: Arena, before: State, recorded: Json, after: State, legal: seq<Json>,
                   action: Json)
  {
    && Offers(arena, before, legal) && FirstMatch(legal, recorded, action)
    && arena.apply(before, before.activePlayer, action) == Some(after)
  }

  lemma MoveByMeaning(arena: Arena, before: State, recorded: Json, after: State, legal: seq<Json>,
                      action: Json)
    ensures MoveBy(arena, before, recorded, after, legal, action)
            <==> Legal(arena, before, before.activePlayer) == Some(legal) && action in legal
                 && action == Resolve(legal, recorded)
                 && arena.apply(before, before.activePlayer, action) == Some(after)
  {
    hide FirstMatch, PyEq, Resolve;
    ResolveIsFirstMatch(legal, recorded, action);
    ResolveFindsFirst(legal, recorded);
    if legal != [] {
      LegalIsOffered(arena, before, legal);
    } else {
      NothingMatchesFirst(recorded, action);
    }
  }

  lemma NothingMatchesFirst(recorded: Json, action: Json)
    ensures !FirstMatch([], recorded, action)
  {
  }

  /** What a row must lead to, after its own header. */
  ghost predicate LeadsTo(arena: Arena, row: TraceRow, before: State, after: State) {
    if IsForfeit(row) then EndsInForfeit(after)
    else ArenaMove(arena, before, Read(row.action), after)
  }

  /** The row describes a real step from `before` to `after`. */
  ghost predicate Describes(hash: StateHasher, arena: Arena, row: TraceRow, before: State,
                            after: State)
  {
    && Decodes(hash, row.stateBefore, before) && Decodes(hash, row.stateAfter, after)
    && PyEq(Read(row.turnId), before.turn) && PyEq(Read(row.activePlayer), before.activePlayer)
    && row.stateHashBefore == Some(JStr(hash(before)))
    && row.stateHashAfter == Some(JStr(hash(after)))
    && LeadsTo(arena, row, before, after)
  }

  ghost predicate Snapshots(hash: StateHasher, replay: seq<ReplayRow>, states: seq<State>) {
    |states| <= |replay| && forall i | 0 <= i < |states| :: Shows(hash, replay[i], states[i])
  }

  /** One chain of states: row i leads from state i to state i+1 and snapshot i shows state i. */
  ghost predicate RealRun(hash: StateHasher, arena: Arena, rows: seq<TraceRow>,
                          replay: seq<ReplayRow>, states: seq<State>)
  {
    && |states| == |rows| + 1
    && (forall i | 0 <= i < |rows| :: Describes(hash, arena, rows[i], states[i], states[i + 1]))
    && (rows != [] ==> Snapshots(hash, replay, states))
  }

  lemma {:induction false} ResolveFindsFirst(legal: seq<Json>, recorded: Json)
    ensures var a := Resolve(legal, recorded);
            PyEq(a, recorded)
            && (a in legal || (a == recorded && forall x | x in legal :: !PyEq(x, recorded)))
  {
    PyEqReflexive(recorded);
    if legal != [] && !PyEq(legal[0], recorded) {
      ResolveFindsFirst(legal[1..], recorded);
      assert legal == [legal[0]] + legal[1..];
    }
  }

  /** Where no two legal actions are confused, a recorded legal action resolves to itself. */
  lemma ResolveRecordedLegalAction(legal: seq<Json>, recorded: Json)
    requires Unconfused(legal) && recorded in legal
    ensures Resolve(legal, recorded) == recorded
  {
    ResolveFindsFirst(legal, recorded);
    PyEqReflexive(recorded);
  }

  lemma SnapshotErrorsMeaning(hash: StateHasher, replay: seq<ReplayRow>, index: nat, s: State)
    ensures SnapshotErrors(hash, replay, index, s) == []
            <==> index < |replay| && Shows(hash, replay[index], s)
  {
  }

  lemma MoveErrorsMeaning(hash: StateHasher, arena: Arena, replay: seq<ReplayRow>, index: nat,
                          row: TraceRow, before: State, after: State)
    ensures MoveErrors(hash, arena, replay, index, row, before, after) == Some([])
            <==> LeadsTo(arena, row, before, after)
                 && index + 1 < |replay| && Shows(hash, replay[index + 1], after)
  {
    hide MoveBy, PyEq, Resolve, SnapshotErrors, Shows, ToJson, IsLegal;
    SnapshotErrorsMeaning(hash, replay, index + 1, after);
    if !IsForfeit(row) {
      var legal := Legal(arena, before, before.activePlayer);
      var recorded := Read(row.action);
      if legal.Some? {
        var action := Resolve(legal.value, recorded);
        LegalIsMembership(legal.value, action);
        MoveByMeaning(arena, before, recorded, after, legal.value, action);
        var computed := arena.apply(before, before.activePlayer, action);
        if computed.Some? {
          SnapshotErrorsMeaning(hash, replay, index + 1, computed.value);
          if IsLegal(legal.value, action) {
            assert MoveErrors(hash, arena, replay, index, row, before, after)
                   == Some(When(hash(computed.value) != hash(after), StateAfterMismatch(index))
                           + When(ToJson(hash, computed.value) != ToJson(hash, after),
                                  PayloadMismatch(index))
                           + SnapshotErrors(hash, replay, index + 1, computed.value));
          }
          if ToJson(hash, computed.value) == ToJson(hash, after) {
            ToJsonInjective(hash, computed.value, after);
          }
        }
      }
      if ArenaMove(arena, before, recorded, after) {
        var list, action :| MoveBy(arena, before, recorded, after, list, action);
        MoveByMeaning(arena, before, recorded, after, list, action);
      }
    }
  }

  /** A row passes when it describes a step that its two snapshots show and that continues. */
  ghost predicate RowPasses(hash: StateHasher, arena: Arena, replay: seq<ReplayRow>, index: nat,
                            row: TraceRow, before: State, after: State)
  {
    && Describes(hash, arena, row, before, after)
    && index + 1 < |replay|
    && Shows(hash, replay[index], before) && Shows(hash, replay[index + 1], after)
  }

  /** A row that passes and continues the chain raises no error. */
  lemma PassingRowIsClean(hash: StateHasher, arena: Arena, replay: seq<ReplayRow>, index: nat,
                          row: TraceRow, previous: Option<State>, before: State, after: State)
    requires RowPasses(hash, arena, replay, index, row, before, after)
    requires previous.Some? ==> before == previous.value
    ensures CheckRow(hash, arena, replay, index, row, previous) == RowChecked([], Some(after))
  {
    hide MoveErrors, SnapshotErrors, Decodes, FromPayload, LeadsTo, Shows, PyEq;
    FromPayloadDecodes(hash, row.stateBefore, before);
    FromPayloadDecodes(hash, row.stateAfter, after);
    MoveErrorsMeaning(hash, arena, replay, index, row, before, after);
    SnapshotErrorsMeaning(hash, replay, index, before);
    assert HeaderErrors(hash, index, row, before, after, previous) == [];
  }

  /** The state a row ends in and the one the next row starts from are told apart by their digests. */
  ghost predicate NeighboursDiffer(hash: StateHasher, previous: Option<State>, row: TraceRow) {
    var before := FromPayload(hash, Read(row.stateBefore));
    previous.Some? && before.Some? ==> NoCollision(hash, before.value, previous.value)
  }

  /** No digest collision between neighbouring rows: all that the chain check relies on. */
  ghost predicate CollisionFree(hash: StateHasher, rows: seq<TraceRow>) {
    forall i: nat | i + 1 < |rows| ::
      NeighboursDiffer(hash, FromPayload(hash, Read(rows[i].stateAfter)), rows[i + 1])
  }

  /** A row without errors passes; without a collision it also continues the chain. */
  lemma CleanRowPasses(hash: StateHasher, arena: Arena, replay: seq<ReplayRow>, index: nat,
                       row: TraceRow, previous: Option<State>)
    returns (before: State, after: State)
    requires NeighboursDiffer(hash, previous, row)
    requires CheckRow(hash, arena, replay, index, row, previous).RowChecked?
    requires CheckRow(hash, arena, replay, index, row, previous).errors == []
    ensures FromPayload(hash, Read(row.stateAfter)) == Some(after)
    ensures CheckRow(hash, arena, replay, index, row, previous) == RowChecked([], Some(after))
    ensures RowPasses(hash, arena, replay, index, row, before, after)
    ensures previous.Some? ==> before == previous.value
  {
    hide MoveErrors, SnapshotErrors, Decodes, FromPayload, LeadsTo, Shows, PyEq;
    before := FromPayload(hash, Read(row.stateBefore)).value;
    after := FromPayload(hash, Read(row.stateAfter)).value;
    FromPayloadDecodes(hash, row.stateBefore, before);
    FromPayloadDecodes(hash, row.stateAfter, after);
    MoveErrorsMeaning(hash, arena, replay, index, row, before, after);
    SnapshotErrorsMeaning(hash, replay, index, before);
  }

  /** Rows from `index` on step through `states`, starting from `previous` if there is one. */
  ghost predicate ChainFrom(hash: StateHasher, arena: Arena, replay: seq<ReplayRow>,
                            rows: seq<TraceRow>, index: nat, previous: Option<State>,
                            states: seq<State>)
    requires index <= |rows|
    decreases |rows| - index
  {
    && |states| == |rows| - index + 1
    && (previous.Some? ==> states[0] == previous.value)
    && (index < |rows| ==>
          && RowPasses(hash, arena, replay, index, rows[index], states[0], states[1])
          && ChainFrom(hash, arena, replay, rows, index + 1, Some(states[1]), states[1..]))
  }

  lemma {:induction false} CleanRowsAreAChain(hash: StateHasher, arena: Arena,
      replay: seq<ReplayRow>, rows: seq<TraceRow>, index: nat, previous: Option<State>)
    returns (states: seq<State>)
    requires CollisionFree(hash, rows) && index <= |rows|
    requires index == |rows| ==> previous.Some?
    requires previous.Some? ==> index > 0 && FromPayload(hash, Read(rows[index - 1].stateAfter)) == previous
    requires CheckRows(hash, arena, replay, rows, index, previous) == Some([])
    ensures ChainFrom(hash, arena, replay, rows, index, previous, states)
    decreases |rows| - index
  {
    hide CheckRow, FromPayload, RowPasses;
    if index == |rows| {
      states := [previous.value];
    } else {
      if previous.Some? {
        assert NeighboursDiffer(hash, FromPayload(hash, Read(rows[index - 1].stateAfter)), rows[index - 1 + 1]);
      }
      var before, after := CleanRowPasses(hash, arena, replay, index, rows[index], previous);
      var tail := CleanRowsAreAChain(hash, arena, replay, rows, index + 1, Some(after));
      states := [before] + tail;
      assert states[1..] == tail;
    }
  }

  lemma {:induction false} AChainIsClean(hash: StateHasher, arena: Arena,
      replay: seq<ReplayRow>, rows: seq<TraceRow>, index: nat, previous: Option<State>,
      states: seq<State>)
    requires index <= |rows|
    requires ChainFrom(hash, arena, replay, rows, index, previous, states)
    ensures CheckRows(hash, arena, replay, rows, index, previous) == Some([])
    decreases |rows| - index
  {
    if index < |rows| {
      PassingRowIsClean(hash, arena, replay, index, rows[index], previous, states[0], states[1]);
      AChainIsClean(hash, arena, replay, rows, index + 1, Some(states[1]), states[1..]);
    }
  }

  lemma {:induction false} ChainAt(hash: StateHasher, arena: Arena, replay: seq<ReplayRow>,
                                   rows: seq<TraceRow>, index: nat, previous: Option<State>,
                                   states: seq<State>, i: nat)
    requires index <= i < |rows|
    requires ChainFrom(hash, arena, replay, rows, index, previous, states)
    ensures RowPasses(hash, arena, replay, i, rows[i], states[i - index], states[i - index + 1])
    decreases i - index
  {
    hide RowPasses;
    if index < i {
      ChainAt(hash, arena, replay, rows, index + 1, Some(states[1]), states[1..], i);
    }
  }

  lemma {:induction false} ChainFromSteps(hash: StateHasher, arena: Arena, replay: seq<ReplayRow>,
                                          rows: seq<TraceRow>, index: nat,
                                          previous: Option<State>, states: seq<State>)
    requires index <= |rows| && |states| == |rows| + 1
    requires previous.Some? ==> states[index] == previous.value
    requires forall i | index <= i < |rows| ::
               RowPasses(hash, arena, replay, i, rows[i], states[i], states[i + 1])
    ensures ChainFrom(hash, arena, replay, rows, index, previous, states[index..])
    decreases |rows| - index
  {
    if index < |rows| {
      ChainFromSteps(hash, arena, replay, rows, index + 1, Some(states[index + 1]), states);
      assert states[index..][1..] == states[index + 1..];
    }
  }

  /** The validator gets as far as the rows and has reported nothing on the way. */
  ghost predicate PreludePasses(registry: Registry, a: Artifact, arena: Arena) {
    && a.auditor.Some? && a.replay.Some?
    && (forall i | 0 <= i < |a.auditor.value| :: !Unhashable(Read(a.auditor.value[i].eventType)))
    && HasStates(Transitions(a.auditor.value))
    && ArenaId(a.manifest, a.score).Some?
    && registry(ArenaId(a.manifest, a.score).value) == Some(arena)
    && VersionErrors(a.manifest) == []
    && PreludeErrors(a.manifest, a.score, Transitions(a.auditor.value), a.replay.value) == []
  }

  /** Read off the files themselves: that is the case exactly when they are sound. */
  lemma PreludePassesExactlyWhenSound(registry: Registry, a: Artifact, arena: Arena)
    ensures PreludePasses(registry, a, arena) <==> SoundPrelude(registry, a, arena)
  {
    hide ScoreErrors, CountErrors, ScoreAgrees, CountsHold, Names, ArenaId, HasStates, CarriesStates;
    if a.auditor.Some? && a.replay.Some? {
      var rows, replay := Steps(a.auditor.value), a.replay.value;
      TransitionsAreSteps(a.auditor.value);
      RowsCarryStates(rows);
      RowsAreHashable(a.auditor.value);
      CountsHoldWithoutErrors(a.manifest, |rows|, |replay|);
      ScoreAgreesWithoutErrors(a.manifest, a.score, replay);
      NamedArena(registry, a, arena);
    }
  }

  lemma RowsAreHashable(rows: seq<TraceRow>)
    ensures (forall i | 0 <= i < |rows| :: !Unhashable(Read(rows[i].eventType)))
            <==> forall i | 0 <= i < |rows| :: Hashable(rows[i])
  {
    if forall i | 0 <= i < |rows| :: Hashable(rows[i]) {
      forall i | 0 <= i < |rows| ensures !Unhashable(Read(rows[i].eventType)) {
        assert Hashable(rows[i]);
      }
    }
  }

  lemma NamedArena(registry: Registry, a: Artifact, arena: Arena)
    ensures ArenaId(a.manifest, a.score).Some?
            && registry(ArenaId(a.manifest, a.score).value) == Some(arena)
            <==> exists id :: Names(a, id) && registry(id) == Some(arena)
  {
    hide Names, ArenaId;
    var found := ArenaId(a.manifest, a.score);
    if found.Some? { ArenaIdIsNamed(a, found.value); }
    if id :| Names(a, id) && registry(id) == Some(arena) { ArenaIdIsNamed(a, id); }
  }

  /** After a clean prelude the verdict depends on the rows alone. */
  lemma CleanPreludeLeavesOnlyRows(hash: StateHasher, registry: Registry, a: Artifact, arena: Arena)
    requires PreludePasses(registry, a, arena)
    requires IsRecorded(a.manifest) || Transitions(a.auditor.value) != []
    ensures
      var found := CheckRows(hash, arena, a.replay.value, Transitions(a.auditor.value), 0, None);
      Validate(hash, registry, a) == if found == None then Raised else Finish(found.value)
  {
    var found := CheckRows(hash, arena, a.replay.value, Transitions(a.auditor.value), 0, None);
    if found.Some? {
      assert VersionErrors(a.manifest)
             + PreludeErrors(a.manifest, a.score, Transitions(a.auditor.value), a.replay.value)
             + found.value == found.value;
    }
  }

  /** The artifact has something to replay, and replaying it is one unbroken chain of states. */
  ghost predicate Proves(hash: StateHasher, registry: Registry, a: Artifact, arena: Arena,
                         states: seq<State>)
  {
    && SoundPrelude(registry, a, arena)
    && (IsRecorded(a.manifest) || Steps(a.auditor.value) != [])
    && RealRun(hash, arena, Steps(a.auditor.value), a.replay.value, states)
  }

  lemma CleanRowsMeanARealRun(hash: StateHasher, arena: Arena, rows: seq<TraceRow>,
                              replay: seq<ReplayRow>)
    requires CollisionFree(hash, rows) && |replay| == |rows| + 1
    ensures CheckRows(hash, arena, replay, rows, 0, None) == Some([])
            <==> exists states :: RealRun(hash, arena, rows, replay, states)
  {
    hide CheckRow, ChainFrom, Describes, Snapshots;
    if rows == [] {
      var any: State :| true;
      assert RealRun(hash, arena, rows, replay, [any]);
    } else {
      if CheckRows(hash, arena, replay, rows, 0, None) == Some([]) {
        var states := CleanRowsAreAChain(hash, arena, replay, rows, 0, None);
        ChainIsRealRun(hash, arena, replay, rows, states);
      }
      if states :| RealRun(hash, arena, rows, replay, states) {
        RealRunIsChain(hash, arena, replay, rows, states);
        AChainIsClean(hash, arena, replay, rows, 0, None, states);
      }
    }
  }

  /** A verified report without errors comes from a clean prelude and clean rows. */
  lemma VerifiedMeansClean(hash: StateHasher, registry: Registry, a: Artifact)
    returns (arena: Arena)
    requires Validate(hash, registry, a) == Report(Verified, [])
    ensures PreludePasses(registry, a, arena)
    ensures IsRecorded(a.manifest) || Transitions(a.auditor.value) != []
  {
    hide CheckRows, HasStates, ArenaId;
    arena := registry(ArenaId(a.manifest, a.score).value).value;
  }

  /**
   Soundness and its converse, for every artifact: it is verified without an error exactly
   when its files agree with one another and its rows are one chain of real steps, each shown
   by its snapshots.
   */
  lemma AcceptedExactlyWhenARealRun(hash: StateHasher, registry: Registry, a: Artifact)
    requires a.auditor.Some? ==> CollisionFree(hash, Steps(a.auditor.value))
    ensures Validate(hash, registry, a) == Report(Verified, [])
            <==> exists arena, states :: Proves(hash, registry, a, arena, states)
  {
    hide SoundPrelude, Validate, RealRun, CheckRows, CollisionFree, PreludePasses;
    if Validate(hash, registry, a) == Report(Verified, []) {
      var arena := VerifiedMeansClean(hash, registry, a);
      PreludePassesExactlyWhenSound(registry, a, arena);
      SoundHasLength(registry, a, arena);
      CleanPreludeLeavesOnlyRows(hash, registry, a, arena);
      CleanRowsMeanARealRun(hash, arena, Steps(a.auditor.value), a.replay.value);
      var states :| RealRun(hash, arena, Steps(a.auditor.value), a.replay.value, states);
      assert Proves(hash, registry, a, arena, states);
    }
    if arena, states :| Proves(hash, registry, a, arena, states) {
      PreludePassesExactlyWhenSound(registry, a, arena);
      SoundHasLength(registry, a, arena);
      CleanRowsMeanARealRun(hash, arena, Steps(a.auditor.value), a.replay.value);
      CleanPreludeLeavesOnlyRows(hash, registry, a, arena);
    }
  }

  lemma SoundHasLength(registry: Registry, a: Artifact, arena: Arena)
    requires SoundPrelude(registry, a, arena)
    ensures a.auditor.Some? && a.replay.Some? && |a.replay.value| == |Steps(a.auditor.value)| + 1
    ensures Transitions(a.auditor.value) == Steps(a.auditor.value)
    ensures ScoreAgrees(a.manifest, a.score, a.replay.value[|a.replay.value| - 1])
  {
    TransitionsAreSteps(a.auditor.value);
  }

  /** The scores a result file may claim for a game that ended in this state. */
  predicate ScoresThe(m: Manifest, score: ScoreFile, last: State) {
    && score.ScoreFile?
    && (score.outcome != JNull ==> last.terminal == JBool(true) && score.outcome == last.outcome)
    && (score.outcome == JNull ==> !Truthy(last.terminal) || last.outcome == JNull)
    && (last.terminal != JBool(true) ==>
          score.matchValid != JBool(true) && m.matchValid != JBool(true) && m.perCase != JBool(true)
          && m.proofRow != JBool(true) && m.aggregate != JBool(true))
  }

  /** In an accepted artifact with moves, the score file speaks of the state the moves lead to. */
  lemma AcceptedScoreIsTheLastState(hash: StateHasher, registry: Registry, a: Artifact)
    requires a.auditor.Some? ==> CollisionFree(hash, Steps(a.auditor.value))
    requires Validate(hash, registry, a) == Report(Verified, [])
    requires a.auditor.Some? && Steps(a.auditor.value) != []
    ensures exists arena, states ::
              Proves(hash, registry, a, arena, states)
              && ScoresThe(a.manifest, a.score, states[|states| - 1])
  {
    hide SoundPrelude, Validate, CollisionFree, Describes;
    AcceptedExactlyWhenARealRun(hash, registry, a);
    var arena, states :| Proves(hash, registry, a, arena, states);
    SoundHasLength(registry, a, arena);
    assert Shows(hash, a.replay.value[|states| - 1], states[|states| - 1]);
  }

  /** Nothing to replay and nothing promised: the only way to the third verdict. */
  lemma NotRecordedExactlyWhenNothingIsPromised(hash: StateHasher, registry: Registry, a: Artifact)
    ensures Validate(hash, registry, a) == Report(NotRecorded, [])
            <==> !IsRecorded(a.manifest) && a.auditor.Some? && a.replay.Some?
                 && (forall i | 0 <= i < |a.auditor.value| :: Hashable(a.auditor.value[i]))
                 && var rows := Steps(a.auditor.value);
                    rows == [] || exists i | 0 <= i < |rows| :: !CarriesStates(rows[i])
    ensures Validate(hash, registry, a).Report? && Validate(hash, registry, a).status == NotRecorded
            ==> Validate(hash, registry, a).errors == []
  {
    hide CheckRows, PreludeErrors, ArenaId, CarriesStates, HasStates;
    if a.auditor.Some? {
      TransitionsAreSteps(a.auditor.value);
      RowsCarryStates(Steps(a.auditor.value));
      RowsAreHashable(a.auditor.value);
    }
  }

  lemma ChainLength(hash: StateHasher, arena: Arena, replay: seq<ReplayRow>, rows: seq<TraceRow>,
                    states: seq<State>)
    requires ChainFrom(hash, arena, replay, rows, 0, None, states)
    ensures |states| == |rows| + 1
  {
  }

  lemma ChainShowsState(hash: StateHasher, arena: Arena, replay: seq<ReplayRow>,
                        rows: seq<TraceRow>, states: seq<State>, i: nat)
    requires rows != [] && |replay| == |rows| + 1
    requires ChainFrom(hash, arena, replay, rows, 0, None, states)
    requires i < |states|
    ensures Shows(hash, replay[i], states[i])
  {
    hide ChainFrom, RowPasses, Shows;
    ChainLength(hash, arena, replay, rows, states);
    var at := if i < |rows| then i else i - 1;
    ChainAt(hash, arena, replay, rows, 0, None, states, at);
    PassingRowShows(hash, arena, replay, at, rows[at], states[at], states[at + 1]);
  }

  lemma PassingRowShows(hash: StateHasher, arena: Arena, replay: seq<ReplayRow>, index: nat,
                        row: TraceRow, before: State, after: State)
    requires RowPasses(hash, arena, replay, index, row, before, after)
    ensures index + 1 < |replay| && Shows(hash, replay[index], before) && Shows(hash, replay[index + 1], after)
  {
    hide Describes, Shows;
  }

  lemma ChainShowsEveryState(hash: StateHasher, arena: Arena, replay: seq<ReplayRow>,
                             rows: seq<TraceRow>, states: seq<State>)
    requires rows != [] && |replay| == |rows| + 1
    requires ChainFrom(hash, arena, replay, rows, 0, None, states)
    ensures Snapshots(hash, replay, states)
  {
    forall i | 0 <= i < |states| ensures Shows(hash, replay[i], states[i]) {
      ChainShowsState(hash, arena, replay, rows, states, i);
    }
  }

  lemma PassingRowDescribes(hash: StateHasher, arena: Arena, replay: seq<ReplayRow>, index: nat,
                            row: TraceRow, before: State, after: State)
    requires RowPasses(hash, arena, replay, index, row, before, after)
    ensures Describes(hash, arena, row, before, after)
  {
    hide Describes, Shows;
  }

  lemma ChainDescribes(hash: StateHasher, arena: Arena, replay: seq<ReplayRow>, rows: seq<TraceRow>,
                       states: seq<State>, i: nat)
    requires i < |rows| && |states| == |rows| + 1
    requires ChainFrom(hash, arena, replay, rows, 0, None, states)
    ensures Describes(hash, arena, rows[i], states[i], states[i + 1])
  {
    hide ChainFrom, Describes, RowPasses;
    ChainAt(hash, arena, replay, rows, 0, None, states, i);
    PassingRowDescribes(hash, arena, replay, i, rows[i], states[i], states[i + 1]);
  }

  lemma ChainIsRealRun(hash: StateHasher, arena: Arena, replay: seq<ReplayRow>,
                       rows: seq<TraceRow>, states: seq<State>)
    requires rows != [] && |replay| == |rows| + 1
    requires ChainFrom(hash, arena, replay, rows, 0, None, states)
    ensures RealRun(hash, arena, rows, replay, states)
  {
    hide ChainFrom, Describes, Snapshots;
    ChainLength(hash, arena, replay, rows, states);
    ChainShowsEveryState(hash, arena, replay, rows, states);
    forall i | 0 <= i < |rows| ensures Describes(hash, arena, rows[i], states[i], states[i + 1]) {
      ChainDescribes(hash, arena, replay, rows, states, i);
    }
  }

  lemma RealRunIsChain(hash: StateHasher, arena: Arena, replay: seq<ReplayRow>,
                       rows: seq<TraceRow>, states: seq<State>)
    requires rows != []
    requires RealRun(hash, arena, rows, replay, states)
    ensures ChainFrom(hash, arena, replay, rows, 0, None, states)
  {
    forall i | 0 <= i < |rows|
      ensures RowPasses(hash, arena, replay, i, rows[i], states[i], states[i + 1])
    {
    }
    ChainFromSteps(hash, arena, replay, rows, 0, None, states);
    assert states[0..] == states;
  }
}

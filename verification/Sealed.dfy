/** When a sealed move becomes visible, to agents and in the public record. */
module Sealed {
  import opened Options
  import opened Json
  import opened Arenas
  import opened Events
  import opened Receipts
  import opened Match
  import opened Turns
  import opened Runs

  /** One completed turn of a run. */
  ghost predicate NextTurn(env: Env, arena: Arena, c: Config, agent: Agent, m: Match, next: Match)
  {
    && GoodState(arena, m.state) && !Over(c, m.state)
    && TakeTurn(env, arena, c, LegalList(arena, m.state), m,
                agent(MakeRequest(env, c, LegalList(arena, m.state), m))) == Continued(next)
  }

  /** The matches a run goes through, from its opening on. */
  ghost predicate Trajectory(env: Env, arena: Arena, c: Config, agent: Agent, seed: int,
                             ms: seq<Match>)
  {
    && ms != [] && ms[0] == Opening(env, arena, arena.initial(seed))
    && forall i | 0 < i < |ms| :: NextTurn(env, arena, c, agent, ms[i - 1], ms[i])
  }

  /** What the public evidence shows of a history entry right after its move. */
  function ShownAction(h: HistoryEntry): Json {
    if h.revealTurn <= h.turn + 1 then h.action else JNull
  }

  /** Entry i belongs to turn first + i and may be revealed one or two turns after it. */
  predicate Dated(history: seq<HistoryEntry>, first: int) {
    forall i | 0 <= i < |history| ::
      && history[i].turn == first + i && history[i].action != JNull
      && (history[i].revealTurn == first + i + 1 || history[i].revealTurn == first + i + 2)
  }

  predicate RowsShow(e: TraceEvent, r: ReplayRow, h: HistoryEntry) {
    Read(CanonRow(View(e, Public)).action) == ShownAction(h) && r.action == ShownAction(h)
  }

  /** One history entry, trace row and replay row per turn, starting at turn `first`. */
  ghost predicate Aligned(m: Match, first: int) {
    && m.state.turn == JInt(first + |m.history|)
    && |m.trace| == |m.history| && |m.replay| == |m.history| + 1
    && Dated(m.history, first)
    && AllRowsShow(m.trace, m.replay, m.history)
  }

  predicate AllRowsShow(trace: seq<TraceEvent>, replay: seq<ReplayRow>, history: seq<HistoryEntry>) {
    && |trace| == |history| && |replay| == |history| + 1
    && forall i | 0 <= i < |history| :: RowsShow(trace[i], replay[i + 1], history[i])
  }

  lemma AllRowsShowExtends(trace: seq<TraceEvent>, replay: seq<ReplayRow>,
                           history: seq<HistoryEntry>, e: TraceEvent, r: ReplayRow, h: HistoryEntry)
    requires AllRowsShow(trace, replay, history) && RowsShow(e, r, h)
    ensures AllRowsShow(trace + [e], replay + [r], history + [h])
  {
    hide RowsShow;
    forall i | 0 <= i < |history| + 1
      ensures RowsShow((trace + [e])[i], (replay + [r])[i + 1], (history + [h])[i])
    {
      if i < |history| {
        assert RowsShow(trace[i], replay[i + 1], history[i]);
      }
    }
  }

  lemma NewRowsShow(env: Env, arena: Arena, m: Match, next: State, action: Json,
                    provenance: Provenance, id: Option<string>, attempt: Option<string>,
                    h: HistoryEntry)
    requires m.state.turn.JInt? && next.turn == JInt(m.state.turn.i + 1)
    requires Canon(action) == action
    requires h.turn == m.state.turn.i && h.action == action
    requires h.revealTurn == RevealTurn(arena, next)
    ensures RowsShow(MakeTrace(env.hash, arena, m.state, next, action, "action", Some(provenance),
                               id, attempt),
                     MakeReplay(env.hash, arena, next, action, m.state.activePlayer,
                                Some(provenance), id, attempt), h)
  {
  }

  lemma MoveStaysAligned(env: Env, arena: Arena, c: Config, m: Match, first: int, prepared: Match,
                         action: Json, provenance: Provenance, next: State)
    requires WellTyped(arena, m.state) && Aligned(m, first) && SameRecord(prepared, m)
    requires next.turn == JInt(m.state.turn.i + 1)
    requires action != JNull && Canon(action) == action
    ensures Aligned(Record(env, arena, c, prepared, m.state.activePlayer.s, action, provenance,
                           next), first)
  {
    hide RowsShow, AllRowsShow, MakeTrace, MakeReplay, View, Canon, AppliedEventId, MarkApplied;
    var after := Record(env, arena, c, prepared, m.state.activePlayer.s, action, provenance, next);
    var id := LogicalId(c, m.state.activePlayer.s, m.state.turn.i);
    var attempt := AppliedEventId(after.receipts, id);
    var e := MakeTrace(env.hash, arena, m.state, next, action, "action", Some(provenance),
                       Some(id), attempt);
    var r := MakeReplay(env.hash, arena, next, action, m.state.activePlayer, Some(provenance),
                        Some(id), attempt);
    var h := HistoryEntry(m.state.turn.i, m.state.activePlayer.s, action, RevealTurn(arena, next),
                          env.hash(next), provenance);
    NewRowsShow(env, arena, m, next, action, provenance, Some(id), attempt, h);
    AllRowsShowExtends(m.trace, m.replay, m.history, e, r, h);
  }

  lemma TurnStaysAligned(env: Env, arena: Arena, c: Config, agent: Agent, m: Match, next: Match,
                         first: int)
    requires Contract(arena) && Aligned(m, first) && NextTurn(env, arena, c, agent, m, next)
    ensures GoodState(arena, next.state) && Aligned(next, first)
    ensures |next.history| == |m.history| + 1 && m.history <= next.history
  {
    var legal := LegalList(arena, m.state);
    var reply := agent(MakeRequest(env, c, legal, m));
    TurnShape(env, arena, c, legal, m, reply);
    TurnMovesTheState(env, arena, c, m, reply);
    var choice, after :| Moved(env, arena, c, legal, m, reply, next, choice, after);
    MovedStaysAligned(env, arena, c, m, first, reply, next, choice, after);
  }

  lemma MovedStaysAligned(env: Env, arena: Arena, c: Config, m: Match, first: int, reply: Reply,
                          next: Match, choice: Choice, after: State)
    requires Contract(arena) && Aligned(m, first) && GoodState(arena, m.state)
    requires Moved(env, arena, c, LegalList(arena, m.state), m, reply, next, choice, after)
    ensures Aligned(next, first)
    ensures |next.history| == |m.history| + 1 && m.history <= next.history
  {
    LegalIsMembership(LegalList(arena, m.state), choice.action);
    GoodLegalList(arena, m.state);
    CanonKeepsExactlyTimingFree(choice.action);
    MoveStaysAligned(env, arena, c, m, first, choice.m, choice.action, choice.provenance, after);
  }

  lemma {:induction false} TrajectoryIsAligned(env: Env, arena: Arena, c: Config, agent: Agent,
                                               seed: int, ms: seq<Match>, i: nat)
    requires Contract(arena) && Trajectory(env, arena, c, agent, seed, ms) && i < |ms|
    ensures Aligned(ms[i], arena.initial(seed).turn.i) && |ms[i].history| == i
    ensures GoodState(arena, ms[i].state)
    ensures i > 0 ==> ms[i - 1].history <= ms[i].history
  {
    hide NextTurn, Aligned, TimingFree, Unconfused;
    if i > 0 {
      TrajectoryIsAligned(env, arena, c, agent, seed, ms, i - 1);
      TurnStaysAligned(env, arena, c, agent, ms[i - 1], ms[i], arena.initial(seed).turn.i);
    } else {
      OpeningIsAligned(env, arena, seed);
    }
  }

  lemma OpeningIsAligned(env: Env, arena: Arena, seed: int)
    requires Contract(arena)
    ensures Aligned(Opening(env, arena, arena.initial(seed)), arena.initial(seed).turn.i)
    ensures Opening(env, arena, arena.initial(seed)).history == []
    ensures GoodState(arena, Opening(env, arena, arena.initial(seed)).state)
  {
    assert GoodState(arena, arena.initial(seed));
  }

  lemma {:induction false} HistoriesGrow(env: Env, arena: Arena, c: Config, agent: Agent,
                                         seed: int, ms: seq<Match>, i: nat, j: nat)
    requires Contract(arena) && Trajectory(env, arena, c, agent, seed, ms) && i <= j < |ms|
    ensures ms[i].history <= ms[j].history
    decreases j
  {
    hide NextTurn, Aligned, GoodState, Contract;
    if i < j {
      HistoriesGrow(env, arena, c, agent, seed, ms, i, j - 1);
      TrajectoryIsAligned(env, arena, c, agent, seed, ms, j);
    }
  }

  lemma {:induction false} AllRevealedAreVisible(history: seq<HistoryEntry>, turn: int)
    requires forall i | 0 <= i < |history| :: history[i].revealTurn <= turn
    ensures Visible(history, turn) == history
  {
    if history != [] {
      AllRevealedAreVisible(history[..|history| - 1], turn);
    }
  }

  /** A request shows every past move, or every one but a sealed last move. */
  lemma VisibleIsAllButASealedLast(history: seq<HistoryEntry>, first: int)
    requires Dated(history, first)
    ensures var n := |history|;
            Visible(history, first + n)
            == if n > 0 && history[n - 1].revealTurn > first + n then history[..n - 1] else history
  {
    var n := |history|;
    if n > 0 {
      var before := history[..n - 1];
      assert Visible(history, first + n)
             == Visible(before, first + n) + (if history[n - 1].revealTurn <= first + n then [history[n - 1]] else []);
      hide Visible;
      AllRevealedAreVisible(before, first + n);
      assert history == before + [history[n - 1]];
    }
  }

  /** The public trace and replay rows of the latest move agree with what the next request shows. */
  lemma PublicRowsFollowTheNextRequest(m: Match, first: int)
    requires Aligned(m, first) && m.history != []
    ensures var n := |m.history|;
            var shown := if |Visible(m.history, first + n)| == n then m.history[n - 1].action
                         else JNull;
            && m.history[n - 1].action != JNull
            && Read(CanonRow(View(m.trace[n - 1], Public)).action) == shown
            && m.replay[n].action == shown
  {
    VisibleIsAllButASealedLast(m.history, first);
    var n := |m.history|;
    assert RowsShow(m.trace[n - 1], m.replay[n - 1 + 1], m.history[n - 1]);
  }

  /** The history in the request that this point of the run leads to. */
  function Shown(env: Env, arena: Arena, c: Config, m: Match): seq<HistoryEntry>
    requires WellTyped(arena, m.state)
  {
    MakeRequest(env, c, LegalList(arena, m.state), m).history
  }

  predicate ShownInPublic(m: Match, action: Json) {
    m.trace != [] && m.replay != []
    && Read(CanonRow(View(m.trace[|m.trace| - 1], Public)).action) == action
    && m.replay[|m.replay| - 1].action == action
  }

  /** The two points of a run that the visibility claims compare. */
  lemma TwoPointsOfARun(env: Env, arena: Arena, c: Config, agent: Agent, seed: int,
                        ms: seq<Match>, i: nat, j: nat)
    requires Contract(arena) && Trajectory(env, arena, c, agent, seed, ms) && i <= j < |ms|
    ensures arena.initial(seed).turn.JInt?
    ensures Aligned(ms[i], arena.initial(seed).turn.i) && |ms[i].history| == i
    ensures Aligned(ms[j], arena.initial(seed).turn.i) && ms[i].history <= ms[j].history
    ensures WellTyped(arena, ms[i].state) && WellTyped(arena, ms[j].state)
  {
    hide NextTurn, Aligned, TimingFree;
    assert GoodState(arena, arena.initial(seed));
    TrajectoryIsAligned(env, arena, c, agent, seed, ms, i);
    TrajectoryIsAligned(env, arena, c, agent, seed, ms, j);
    HistoriesGrow(env, arena, c, agent, seed, ms, i, j);
  }

  /** The visibility claims at one point of a run, and against a later one. */
  ghost predicate SealedRight(env: Env, arena: Arena, c: Config, m: Match, later: Match)
    requires WellTyped(arena, m.state) && WellTyped(arena, later.state)
  {
    var i, shown := |m.history|, Shown(env, arena, c, m);
    && (shown == m.history || (i > 0 && shown == m.history[..i - 1]))
    && shown <= Shown(env, arena, c, later)
    && (i > 0 ==> m.history[i - 1].action != JNull
                  && ShownInPublic(m, if |shown| == i then m.history[i - 1].action else JNull))
  }

  /**
   At every turn of every run: agents see all past moves or all but the last; what
   one request shows no later request hides; and the public trace and replay rows
   of the latest move show its action exactly when the request that follows does.
   */
  lemma SealedMoveVisibility(env: Env, arena: Arena, c: Config, agent: Agent, seed: int,
                             ms: seq<Match>, i: nat, j: nat)
    requires Contract(arena) && Trajectory(env, arena, c, agent, seed, ms) && i <= j < |ms|
    ensures WellTyped(arena, ms[i].state) && WellTyped(arena, ms[j].state)
    ensures |ms[i].history| == i && SealedRight(env, arena, c, ms[i], ms[j])
  {
    hide NextTurn, Aligned, SealedRight, Trajectory, Contract, WellTyped;
    TwoPointsOfARun(env, arena, c, agent, seed, ms, i, j);
    AlignedIsSealedRight(env, arena, c, ms[i], ms[j], arena.initial(seed).turn.i);
  }

  lemma AlignedIsSealedRight(env: Env, arena: Arena, c: Config, m: Match, later: Match, first: int)
    requires WellTyped(arena, m.state) && WellTyped(arena, later.state)
    requires Aligned(m, first) && Aligned(later, first) && m.history <= later.history
    ensures SealedRight(env, arena, c, m, later)
  {
    hide RowsShow, View, Visible, CanonRow, AllRowsShow, Read;
    VisibleIsAllButASealedLast(m.history, first);
    SeenGrows(m.history, later.history, first);
    if m.history != [] {
      PublicRowsFollowTheNextRequest(m, first);
    }
  }

  lemma SeenGrows(earlier: seq<HistoryEntry>, later: seq<HistoryEntry>, first: int)
    requires Dated(earlier, first) && Dated(later, first) && earlier <= later
    ensures Visible(earlier, first + |earlier|) <= Visible(later, first + |later|)
  {
    VisibleIsAllButASealedLast(earlier, first);
    VisibleIsAllButASealedLast(later, first);
  }

  /** What an agent is asked: its own turn and seat, the actions listed for it, and the state by its digest. */
  lemma RequestIsOfTheTurn(env: Env, arena: Arena, c: Config, s: State, m: Match)
    requires Contract(arena) && GoodState(arena, s) && m.state == s
    ensures var q := MakeRequest(env, c, LegalList(arena, s), m);
            && JInt(q.turn) == s.turn && JStr(q.player) == s.activePlayer && q.stateHash == env.hash(s)
            && q.logicalActionId == LogicalId(c, q.player, q.turn)
            && q.legal == if Name(q.player) in s.legalActions.fields
                          then s.legalActions.fields[Name(q.player)].items else []
  {
    hide Contract, TimingFree, Unconfused, Visible, LogicalId, LegalList;
    ListedForThePlayer(arena, s);
  }

  lemma ListedForThePlayer(arena: Arena, s: State)
    requires Contract(arena) && WellTyped(arena, s)
    ensures LegalList(arena, s) == if Name(s.activePlayer.s) in s.legalActions.fields
                                   then s.legalActions.fields[Name(s.activePlayer.s)].items else []
  {
    if Name(s.activePlayer.s) in s.legalActions.fields {
      var list := s.legalActions.fields[Name(s.activePlayer.s)];
      assert list == JList(list.items) && arena.listOf(JList(list.items)) == Some(list.items);
    }
  }
}

/**
 When a move is withheld, written out on the state it led to: while any seat still holds a
 commitment, the move is kept from the next request and from the public rows.
 */
module SealedMoves {
  import opened Options
  import opened Json
  import opened Arenas
  import opened Events
  import opened Receipts
  import opened Match
  import opened Turns
  import opened Runs
  import opened Sealed

  /** This seat's private object holds a value under the arena's commitment key. */
  predicate Holds(s: State, key: Key, seat: Key) {
    s.privateState.JObj? && seat in s.privateState.fields && s.privateState.fields[seat].JObj? &&
    var private := s.privateState.fields[seat].fields;
    key in private && private[key] != JNull
  }

  /** At least one seat is committed. */
  predicate Committed(arena: Arena, s: State) {
    && arena.pendingKey.Some? && s.privateState.JObj?
    && exists seat | seat in s.privateState.fields :: Holds(s, arena.pendingKey.value, seat)
  }

  lemma PendingIsCommitted(arena: Arena, s: State)
    ensures Pending(arena, s) <==> Committed(arena, s)
  {
    if Pending(arena, s) {
      var seat :| seat in s.privateState.fields && s.privateState.fields[seat].JObj?
                  && Get(s.privateState.fields[seat].fields, arena.pendingKey.value) != JNull;
      assert Holds(s, arena.pendingKey.value, seat);
    }
    if Committed(arena, s) {
      var seat :| seat in s.privateState.fields && Holds(s, arena.pendingKey.value, seat);
    }
  }

  /** What each reader sees of the latest move. */
  predicate LatestShows(m: Match, public: Json, full: Json) {
    && m.trace != [] && m.replay != []
    && var e, r := m.trace[|m.trace| - 1], m.replay[|m.replay| - 1];
       && View(e, Public).action == Some(public) && View(e, AgentVisible).action == Some(public)
       && r.action == public
       && View(e, PrivateJudge).action == Some(full) && View(e, Auditor).action == Some(full)
  }

  /** The entry and the rows of the latest move were made from the state it led to. */
  predicate LatestIsOf(env: Env, arena: Arena, m: Match) {
    && m.history != [] && m.state.turn.JInt?
    && var h := m.history[|m.history| - 1];
       && h.revealTurn == RevealTurn(arena, m.state)
       && LatestShows(m, PublicAction(arena, m.state, h.action), h.action)
  }

  lemma RecordedIsLatest(env: Env, arena: Arena, c: Config, m: Match, player: string, action: Json,
                         provenance: Provenance, next: State)
    requires WellTyped(arena, m.state) && next.turn.JInt?
    ensures LatestIsOf(env, arena, Record(env, arena, c, m, player, action, provenance, next))
  {
    hide PublicAction, RevealTurn, AppliedEventId, MarkApplied, WellTyped;
  }

  lemma TurnIsLatest(env: Env, arena: Arena, c: Config, agent: Agent, m: Match, next: Match)
    requires Contract(arena) && NextTurn(env, arena, c, agent, m, next)
    ensures LatestIsOf(env, arena, next)
  {
    hide LatestIsOf, Record, TakeTurn, TimingFree, Unconfused, Charged, Flags, CallAgent;
    var legal := LegalList(arena, m.state);
    var reply := agent(MakeRequest(env, c, legal, m));
    TurnShape(env, arena, c, legal, m, reply);
    TurnMovesTheState(env, arena, c, m, reply);
    var choice, after :| Moved(env, arena, c, legal, m, reply, next, choice, after);
    RecordedIsLatest(env, arena, c, choice.m, m.state.activePlayer.s, choice.action,
                     choice.provenance, after);
  }

  /**
   After every move of every run: while a seat is committed, the next request leaves out exactly
   that move and the public rows carry null; otherwise the request and the rows show it. Judges
   and auditors always see it.
   */
  lemma WithheldExactlyWhileCommitted(env: Env, arena: Arena, c: Config, agent: Agent, seed: int,
                                      ms: seq<Match>, i: nat)
    requires Contract(arena) && Trajectory(env, arena, c, agent, seed, ms) && 0 < i < |ms|
    ensures WellTyped(arena, ms[i].state) && |ms[i].history| == i
    ensures var m, shown := ms[i], Shown(env, arena, c, ms[i]);
            var action := m.history[i - 1].action;
            && action != JNull
            && (Committed(arena, m.state) ==>
                  shown == m.history[..i - 1] && LatestShows(m, JNull, action))
            && (!Committed(arena, m.state) ==>
                  shown == m.history && LatestShows(m, action, action))
  {
    hide NextTurn, Aligned, Contract, WellTyped, Pending, LatestShows, Committed;
    TwoPointsAre(env, arena, c, agent, seed, ms, i);
    TurnIsLatest(env, arena, c, agent, ms[i - 1], ms[i]);
    AlignedShows(env, arena, c, ms[i], arena.initial(seed).turn.i);
  }

  lemma TwoPointsAre(env: Env, arena: Arena, c: Config, agent: Agent, seed: int, ms: seq<Match>,
                     i: nat)
    requires Contract(arena) && Trajectory(env, arena, c, agent, seed, ms) && 0 < i < |ms|
    ensures arena.initial(seed).turn.JInt?
    ensures Aligned(ms[i], arena.initial(seed).turn.i) && |ms[i].history| == i
    ensures WellTyped(arena, ms[i].state)
  {
    hide NextTurn, Aligned, TimingFree;
    assert GoodState(arena, arena.initial(seed));
    TrajectoryIsAligned(env, arena, c, agent, seed, ms, i);
  }

  lemma AlignedShows(env: Env, arena: Arena, c: Config, m: Match, first: int)
    requires WellTyped(arena, m.state) && Aligned(m, first) && LatestIsOf(env, arena, m)
    ensures var n, shown := |m.history|, Shown(env, arena, c, m);
            var action := m.history[n - 1].action;
            && action != JNull
            && (Committed(arena, m.state) ==>
                  shown == m.history[..n - 1] && LatestShows(m, JNull, action))
            && (!Committed(arena, m.state) ==>
                  shown == m.history && LatestShows(m, action, action))
  {
    hide AllRowsShow, LatestShows, Visible, Pending, Committed;
    PendingIsCommitted(arena, m.state);
    VisibleIsAllButASealedLast(m.history, first);
  }
}

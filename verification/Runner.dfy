/**
 The runner itself: one loop over turns that updates its local variables branch
 by branch. The locals are kept together in one record, `m`; each method is
 proved to change it as the functions of `Match` say.
 */
module Runner {
  import opened Options
  import opened Json
  import opened Arenas
  import opened Events
  import opened Receipts
  import M = Match
  import opened Runs

  /** A failure that ends the match, with its forfeit transition when the policy asks for one. */
  method RejectMatch(env: M.Env, arena: Arena, before: M.Match, player: string, tag: M.Tag,
                     markers: seq<M.Tag>, action: Json, policy: M.Policy)
    returns (m: M.Match)
    requires WellTyped(arena, before.state)
    ensures m == M.Reject(env, arena, before, player, tag, markers, action, policy)
  {
    hide M.ForfeitState, MakeTrace, MakeReplay;
    m := before;
    var reason := env.describe(player, tag, markers);
    m := m.(reason := Some(reason), valid := false);
    if policy == M.Forfeit {
      var next := M.ForfeitState(arena, m.state, player, reason);
      m := m.(trace := m.trace + [MakeTrace(env.hash, arena, m.state, next, action, "forfeit",
                                            None, None, None)],
              replay := m.replay + [MakeReplay(env.hash, arena, next, action, m.state.activePlayer,
                                               None, None, None)]);
      m := m.(state := next);
    }
  }

  /** A fallback action stands in: counted, and the match no longer scores. */
  method CountFallback(env: M.Env, before: M.Match, player: string, markers: seq<M.Tag>)
    returns (m: M.Match)
    ensures m == M.UseFallback(env, before, player, markers)
  {
    m := before.(fallbackActions := before.fallbackActions + multiset{player});
    m := m.(valid := false);
    if m.reason == None {
      m := m.(reason := Some(env.describe(player, M.FallbackActionUsed, markers)));
    }
    if M.FallbackActionUsed !in m.codes {
      m := m.(codes := m.codes + [M.FallbackActionUsed]);
    }
  }

  /** The agent's action, or the failure action when it gave none. */
  method OwnOrFailureAction(env: M.Env, c: M.Config, legal: seq<Json>, before: M.Match,
                            player: string, called: M.Called)
    returns (m: M.Match, action: Json, markers: seq<M.Tag>, provenance: Provenance)
    ensures M.FirstChoice(env, c, legal, before, player, called)
            == M.Play(m, action, markers, provenance)
  {
    m, action, markers := before, called.action, called.markers;
    provenance := if player in c.providerSeats then ProviderAction else LocalAction;
    if action == JNull {
      action := FailureAction(legal);
      if action != JNull {
        markers := markers + [M.FallbackUsed];
        m := CountFallback(env, m, player, markers);
        provenance := FallbackAction;
      }
    }
  }

  /** The illegal-action policy on the chosen action. */
  method LegalAction(env: M.Env, arena: Arena, c: M.Config, legal: seq<Json>, player: string,
                     before: M.Match, chosen: Json, noted: seq<M.Tag>, own: Provenance)
    returns (ended: bool, m: M.Match, action: Json, markers: seq<M.Tag>, provenance: Provenance)
    requires WellTyped(arena, before.state)
    ensures M.Legalise(env, arena, c, legal, player, M.Play(before, chosen, noted, own))
            == if ended then M.Ended(m) else M.Play(m, action, markers, provenance)
  {
    ended, m, action, markers, provenance := false, before, chosen, noted, own;
    if action != JNull && IsLegal(legal, action) {
      return;
    }
    markers := markers + [M.IllegalAction, M.NotLegal];
    m := m.(illegalActions := m.illegalActions + multiset{player});
    if M.NotLegal !in m.codes {
      m := m.(codes := m.codes + [M.NotLegal]);
    }
    if c.onIllegalAction != M.Fallback {
      m := RejectMatch(env, arena, m, player, M.IllegalAction, markers, action, c.onIllegalAction);
      ended := true;
      return;
    }
    var substitute := FailureAction(legal);
    if substitute == JNull || !IsLegal(legal, substitute) {
      m := m.(reason := Some(env.describe(player, M.IllegalActionNoFallback, markers)));
      m := m.(valid := false);
      ended := true;
      return;
    }
    action := substitute;
    markers := markers + [M.FallbackUsed];
    m := CountFallback(env, m, player, markers);
    provenance := FallbackAction;
  }

  /** Apply the action and write its trace row, replay row and history entry. */
  method ApplyAndRecord(env: M.Env, arena: Arena, c: M.Config, before: M.Match, player: string,
                        action: Json, markers: seq<M.Tag>, provenance: Provenance)
    returns (failed: bool, m: M.Match)
    requires WellTyped(arena, before.state)
    ensures M.Commit(env, arena, c, player, M.Play(before, action, markers, provenance))
            == if failed then M.Broke(m) else M.Continued(m)
  {
    failed, m := false, before;
    var applied := arena.apply(m.state, m.state.activePlayer, action);
    if applied == None {
      m := m.(valid := false);
      m := m.(reason := Some(env.describe(player, M.ApplyError, markers + [M.ApplyError])));
      m := m.(codes := m.codes + [M.ApplyError]);
      return true, m;
    }
    var next := applied.value;
    var id := M.LogicalId(c, player, m.state.turn.i);
    if provenance == ProviderAction {
      m := m.(receipts := MarkApplied(m.receipts, id));
    }
    var attempt := AppliedEventId(m.receipts, id);
    if provenance == ProviderAction && attempt.Some? {
      m := m.(providerActions := m.providerActions + multiset{player});
    }
    m := m.(trace := m.trace + [MakeTrace(env.hash, arena, m.state, next, action, "action",
                                          Some(provenance), Some(id), attempt)]);
    m := m.(replay := m.replay + [MakeReplay(env.hash, arena, next, action, m.state.activePlayer,
                                             Some(provenance), Some(id), attempt)]);
    m := m.(history := m.history + [M.HistoryEntry(m.state.turn.i, player, action,
                                                   M.RevealTurn(arena, next), env.hash(next),
                                                   provenance)]);
    m := m.(state := next);
  }

  /** The action phase of a turn: choose, check, apply. */
  method Act(env: M.Env, arena: Arena, c: M.Config, legal: seq<Json>, before: M.Match,
             player: string, called: M.Called)
    returns (broke: bool, m: M.Match)
    requires WellTyped(arena, before.state)
    ensures M.Decide(env, arena, c, legal, before, player, called)
            == if broke then M.Broke(m) else M.Continued(m)
  {
    hide M.FirstChoice, M.Legalise, M.Commit;
    var action, markers, provenance;
    m, action, markers, provenance := OwnOrFailureAction(env, c, legal, before, player, called);
    ChoiceKeepsState(env, arena, c, legal, before, player, called);
    var ended;
    ended, m, action, markers, provenance :=
      LegalAction(env, arena, c, legal, player, m, action, markers, provenance);
    if ended {
      return true, m;
    }
    broke, m := ApplyAndRecord(env, arena, c, m, player, action, markers, provenance);
  }

  lemma ChoiceKeepsState(env: M.Env, arena: Arena, c: M.Config, legal: seq<Json>, m: M.Match,
                         player: string, called: M.Called)
    requires WellTyped(arena, m.state)
    ensures var first := M.FirstChoice(env, c, legal, m, player, called);
            && first.Play? && first.m.state == m.state
            && var second := M.Legalise(env, arena, c, legal, player, first);
               second.Play? ==> second.m.state == m.state
  {
  }

  /** The loop body. */
  method PlayTurn(env: M.Env, arena: Arena, c: M.Config, legal: seq<Json>, before: M.Match,
                  reply: M.Reply)
    returns (raised: bool, broke: bool, m: M.Match)
    requires WellTyped(arena, before.state)
    ensures M.TakeTurn(env, arena, c, legal, before, reply)
            == if raised then M.Raised else if broke then M.Broke(m) else M.Continued(m)
  {
    hide M.Decide, M.Reject;
    raised, broke, m := false, false, before;
    var player := m.state.activePlayer.s;
    m := m.(logicalActions := m.logicalActions + multiset{player});
    var called := M.CallAgent(reply);
    var rows, seen := EnrichAttemptReceipts(M.Context(env, c, before), reply.receipts, m.eventIds);
    if rows == None {
      return true, false, m;
    }
    m := m.(eventIds := seen);
    m := m.(receipts := m.receipts + rows.value);
    if M.HasAgentError(called.markers) {
      var kind := M.FailureClassOf(called);
      m := m.(agentErrors := m.agentErrors + multiset{player});
      if M.AgentError !in m.codes {
        m := m.(codes := m.codes + [M.AgentError]);
      }
      if kind !in m.codes {
        m := m.(codes := m.codes + [kind]);
      }
      var policy := if M.IsInterruption(kind) then M.InvalidMatch else c.onAgentError;
      if policy != M.Fallback {
        m := RejectMatch(env, arena, m, player, kind, called.markers, called.action, policy);
        return false, true, m;
      }
    }
    broke, m := Act(env, arena, c, legal, m, player, called);
  }

  /** One whole run: the loop, the truncation check and the final stamping of the receipts. */
  method RunMatch(env: M.Env, arena: Arena, c: M.Config, agent: M.Agent, seed: int)
    returns (record: Option<M.Match>)
    requires Contract(arena)
    ensures record == Run(env, arena, c, agent, seed)
  {
    hide M.TakeTurn, GoodState, Finalise;
    var m := M.Opening(env, arena, arena.initial(seed));
    ghost var opening := m;
    var broke := false;
    InitialIsGood(arena, seed);
    while !broke && !Over(c, m.state)
      invariant !broke ==> GoodState(arena, m.state) && WellTyped(arena, m.state)
      invariant broke ==> PlayFrom(env, arena, c, agent, opening) == Stopped(m)
      invariant !broke ==> PlayFrom(env, arena, c, agent, opening)
                           == PlayFrom(env, arena, c, agent, m)
      decreases !broke, if !broke && m.state.turn.i < c.maxTurns then c.maxTurns - m.state.turn.i
                        else 0
    {
      var legal := LegalList(arena, m.state);
      var reply := agent(M.MakeRequest(env, c, legal, m));
      TurnMovesTheState(env, arena, c, m, reply);
      var raised;
      raised, broke, m := PlayTurn(env, arena, c, legal, m, reply);
      if raised {
        return None;
      }
      if !broke {
        GoodIsTyped(arena, m.state);
      }
    }
    record := Finalise(env, c, m);
  }

  lemma InitialIsGood(arena: Arena, seed: int)
    requires Contract(arena)
    ensures GoodState(arena, arena.initial(seed)) && WellTyped(arena, arena.initial(seed))
  {
  }

  lemma GoodIsTyped(arena: Arena, s: State)
    requires GoodState(arena, s)
    ensures WellTyped(arena, s)
  {
  }
}

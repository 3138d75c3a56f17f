/** The attempt loop meets the runner: ledgers left by provider-backed agents never abort a match. */
module AgentLedgers {
  import opened Options
  import opened Json
  import opened Arenas
  import opened Receipts
  import opened LogicalIds
  import opened Turns
  import opened Runs
  import A = Attempts
  import M = Match

  /** Every reply carries no receipts, or what one run of the attempt loop had written when it was read. */
  ghost predicate LeavesLedgers(agent: M.Agent) {
    forall q: M.Request :: LeavesLedger(agent(q).receipts)
  }

  ghost predicate LeavesLedger(receipts: seq<Receipt>) {
    receipts == [] ||
    exists e: A.Env, limits: A.Config :: A.HonestKinds(e) && receipts <= A.Acting(e, limits).rows
  }

  lemma LedgersAreIndexed(receipts: seq<Receipt>)
    requires LeavesLedger(receipts)
    ensures A.Indexed(receipts)
  {
    if receipts != [] {
      var e: A.Env, limits: A.Config :| A.HonestKinds(e) && receipts <= A.Acting(e, limits).rows;
      A.LedgerOfOneAction(e, limits);
    }
  }

  /** Attempt event ids hash the logical action and the index: different attempts, different ids. */
  ghost predicate EventIdsDiffer(env: M.Env) {
    forall id: string, n: int, other: string, k: int ::
      env.eventId(id, n) == env.eventId(other, k) ==> id == other && n == k
  }

  /** An event id issued by an attempt of a turn before `turn`. */
  ghost predicate IsOld(env: M.Env, c: M.Config, turn: int, event: string) {
    exists p: string, t: nat, n: int :: t < turn && event == env.eventId(M.LogicalId(c, p, t), n)
  }

  ghost predicate AllOld(env: M.Env, c: M.Config, turn: int, events: set<string>) {
    forall e :: e in events ==> IsOld(env, c, turn, e)
  }

  lemma NewAttemptsAreNotOld(env: M.Env, c: M.Config, p: string, t: nat, n: int)
    requires EventIdsDiffer(env)
    ensures !IsOld(env, c, t, env.eventId(M.LogicalId(c, p, t), n))
  {
    if IsOld(env, c, t, env.eventId(M.LogicalId(c, p, t), n)) {
      var q: string, u: nat, k: int :| u < t && env.eventId(M.LogicalId(c, p, t), n) == env.eventId(M.LogicalId(c, q, u), k);
      LogicalIdsDiffer(c, p, t, q, u);
      assert false;
    }
  }

  /** An indexed ledger of the turn to play is one the runner takes. */
  lemma LedgerIsTaken(env: M.Env, c: M.Config, m: M.Match, receipts: seq<Receipt>)
    requires m.state.turn.JInt? && m.state.turn.i >= 0 && m.state.activePlayer.JStr?
    requires EventIdsDiffer(env) && A.Indexed(receipts) && AllOld(env, c, m.state.turn.i, m.eventIds)
    ensures GapFree(M.Context(env, c, m), receipts, m.eventIds)
  {
    var ctx := M.Context(env, c, m);
    var p, t := m.state.activePlayer.s, m.state.turn.i;
    forall k | 0 <= k < |receipts| ensures EventAt(ctx, k) !in m.eventIds {
      NewAttemptsAreNotOld(env, c, p, t, k + 1);
    }
    forall k | 0 <= k < |receipts| ensures RawIndex(receipts[k], k + 1) == JInt(k + 1) { }
    forall j, k | 0 <= j < k < |receipts| ensures EventAt(ctx, j) != EventAt(ctx, k) { }
  }

  lemma EventsGrowOld(env: M.Env, c: M.Config, m: M.Match, n: nat)
    requires m.state.turn.JInt? && m.state.turn.i >= 0 && m.state.activePlayer.JStr?
    requires AllOld(env, c, m.state.turn.i, m.eventIds)
    ensures AllOld(env, c, m.state.turn.i + 1, m.eventIds + EventIds(M.Context(env, c, m), n))
  {
    var ctx := M.Context(env, c, m);
    var p, t := m.state.activePlayer.s, m.state.turn.i;
    forall e | e in m.eventIds + EventIds(ctx, n) ensures IsOld(env, c, t + 1, e) {
      if e in m.eventIds {
        var q: string, u: nat, k: int :| u < t && e == env.eventId(M.LogicalId(c, q, u), k);
        assert u < t + 1;
      } else {
        var k :| 0 <= k < n && e == EventAt(ctx, k);
        assert t < t + 1 && e == env.eventId(M.LogicalId(c, p, t), k + 1);
      }
    }
  }

  lemma NextEventsAreOld(env: M.Env, arena: Arena, c: M.Config, m: M.Match, reply: M.Reply)
    requires Contract(arena) && GoodState(arena, m.state) && AllOld(env, c, m.state.turn.i, m.eventIds)
    requires M.TakeTurn(env, arena, c, LegalList(arena, m.state), m, reply).Continued?
    ensures var next := M.TakeTurn(env, arena, c, LegalList(arena, m.state), m, reply).m;
            next.state.turn == JInt(m.state.turn.i + 1) && AllOld(env, c, m.state.turn.i + 1, next.eventIds)
  {
    hide M.TakeTurn, AllOld, GapFree, Contract;
    var legal := LegalList(arena, m.state);
    TurnShape(env, arena, c, legal, m, reply);
    TurnMovesTheState(env, arena, c, m, reply);
    var next := M.TakeTurn(env, arena, c, legal, m, reply).m;
    var choice, after :| Moved(env, arena, c, legal, m, reply, next, choice, after);
    EventsGrowOld(env, c, m, |reply.receipts|);
  }

  /** A turn whose events are all old does not raise. */
  lemma TurnIsTaken(env: M.Env, arena: Arena, c: M.Config, m: M.Match, reply: M.Reply)
    requires Contract(arena) && GoodState(arena, m.state) && LeavesLedger(reply.receipts)
    requires EventIdsDiffer(env) && AllOld(env, c, m.state.turn.i, m.eventIds)
    ensures var step := M.TakeTurn(env, arena, c, LegalList(arena, m.state), m, reply);
            !step.Raised? &&
            (step.Continued? ==>
               GoodState(arena, step.m.state) && step.m.state.turn == JInt(m.state.turn.i + 1) &&
               AllOld(env, c, step.m.state.turn.i, step.m.eventIds))
  {
    hide M.TakeTurn, AllOld, LeavesLedger, EventIdsDiffer, GapFree, Contract, TimingFree, LegalList;
    LedgersAreIndexed(reply.receipts);
    LedgerIsTaken(env, c, m, reply.receipts);
    TurnShape(env, arena, c, LegalList(arena, m.state), m, reply);
    TurnMovesTheState(env, arena, c, m, reply);
    if M.TakeTurn(env, arena, c, LegalList(arena, m.state), m, reply).Continued? {
      NextEventsAreOld(env, arena, c, m, reply);
    }
  }

  /** From any point of a run whose events are all old, the loop never raises. */
  lemma {:induction false} PlayNeverAborts(env: M.Env, arena: Arena, c: M.Config, agent: M.Agent, m: M.Match)
    requires Contract(arena) && GoodState(arena, m.state)
    requires EventIdsDiffer(env) && LeavesLedgers(agent) && AllOld(env, c, m.state.turn.i, m.eventIds)
    ensures PlayFrom(env, arena, c, agent, m).Stopped?
    decreases if m.state.turn.i < c.maxTurns then c.maxTurns - m.state.turn.i else 0
  {
    hide M.TakeTurn, AllOld, LeavesLedger, EventIdsDiffer, Contract, LegalList, M.MakeRequest, TimingFree;
    if !Over(c, m.state) {
      var reply := agent(M.MakeRequest(env, c, LegalList(arena, m.state), m));
      TurnIsTaken(env, arena, c, m, reply);
      var step := M.TakeTurn(env, arena, c, LegalList(arena, m.state), m, reply);
      if step.Continued? { PlayNeverAborts(env, arena, c, agent, step.m); }
    }
  }

  /**
   * A match between agents whose ledgers come from the attempt loop is never
   * aborted by its receipts: it fails to finish only if a receipt breaks its own contract at the end.
   */
  lemma ProviderLedgersNeverAbortARun(env: M.Env, arena: Arena, c: M.Config, agent: M.Agent, seed: int)
    requires Contract(arena) && EventIdsDiffer(env) && LeavesLedgers(agent)
    ensures var played := PlayFrom(env, arena, c, agent, M.Opening(env, arena, arena.initial(seed)));
            played.Stopped? &&
            (Run(env, arena, c, agent, seed).None? <==>
               SomeInvalid(env, Finished(c, played.m)))
  {
    hide PlayFrom, Contract, Finalise, Finished, SomeInvalid, GoodState, LeavesLedgers, EventIdsDiffer, AllOld;
    OpeningIsGood(env, arena, c, seed);
    PlayNeverAborts(env, arena, c, agent, M.Opening(env, arena, arena.initial(seed)));
    FinalCheck(env, c, PlayFrom(env, arena, c, agent, M.Opening(env, arena, arena.initial(seed))).m);
  }

  predicate SomeInvalid(env: M.Env, rows: seq<ReceiptRow>) {
    exists i | 0 <= i < |rows| :: env.receiptInvalid(rows[i])
  }

  lemma FinalCheck(env: M.Env, c: M.Config, m: M.Match)
    ensures Finalise(env, c, m).None? <==> SomeInvalid(env, Finished(c, m))
  {
    hide Truncate, Stamp, CompleteEvidence;
  }

  lemma OpeningIsGood(env: M.Env, arena: Arena, c: M.Config, seed: int)
    requires Contract(arena)
    ensures var m := M.Opening(env, arena, arena.initial(seed));
            GoodState(arena, m.state) && AllOld(env, c, m.state.turn.i, m.eventIds)
  {
    hide GoodState;
    assert GoodState(arena, arena.initial(seed));
    OpeningKeepsTheState(env, arena, seed);
  }

  lemma OpeningKeepsTheState(env: M.Env, arena: Arena, seed: int)
    requires GoodState(arena, arena.initial(seed))
    ensures M.Opening(env, arena, arena.initial(seed)).state == arena.initial(seed)
    ensures M.Opening(env, arena, arena.initial(seed)).eventIds == {}
    ensures arena.initial(seed).turn.JInt?
  {
  }

  /** The receipts as they would be written: stamped with the final verdict on the match. */
  function Finished(c: M.Config, m: M.Match): seq<ReceiptRow> {
    Stamp(Truncate(c, m).receipts, CompleteEvidence(c, Truncate(c, m)))
  }
}

/** Which provider-backed agents always reconcile: those that never return an action without an ok receipt. */
module AgentsReconcile {
  import opened Options
  import opened Json
  import opened Arenas
  import opened Events
  import opened Receipts
  import opened Match
  import opened Turns
  import opened Runs
  import opened Reconcile
  import opened ReconcileRun
  import opened RunReconciles
  import A = Attempts

  /** An action comes with an ok receipt. */
  predicate AnswersWithOk(reply: Reply) {
    CallAgent(reply).action != JNull ==> SomeOk(reply.receipts)
  }

  predicate SomeOk(receipts: seq<Receipt>) {
    exists k | 0 <= k < |receipts| :: receipts[k].outcome == OK
  }

  ghost predicate SeatAnswersWithOk(agent: Agent, player: string) {
    forall q: Request :: q.player == player ==> AnswersWithOk(agent(q))
  }

  lemma OkIsEnriched(env: Env, c: Config, m: Match, receipts: seq<Receipt>)
    requires m.state.turn.JInt? && m.state.turn.i >= 0 && m.state.activePlayer.JStr?
    requires SomeOk(receipts)
    ensures HasOk(Enriched(Context(env, c, m), receipts), LogicalId(c, m.state.activePlayer.s, m.state.turn.i))
  {
    var rows := Enriched(Context(env, c, m), receipts);
    var k :| 0 <= k < |receipts| && receipts[k].outcome == OK;
    assert OkFor(rows[k], LogicalId(c, m.state.activePlayer.s, m.state.turn.i));
  }

  /** Oks among the receipts before a turn or among those it adds are still there after it. */
  lemma OksGrow(before: seq<ReceiptRow>, added: seq<ReceiptRow>, mark: string, provider: bool, id: string)
    requires HasOk(before, id) || HasOk(added, id)
    ensures HasOk(TurnReceipts(before, added, mark, provider), id)
  {
    var all := before + added;
    if HasOk(before, id) {
      var k :| 0 <= k < |before| && OkFor(before[k], id);
      assert OkFor(all[k], id);
    } else {
      var k :| 0 <= k < |added| && OkFor(added[k], id);
      assert OkFor(all[|before| + k], id);
    }
    if provider {
      var at := MarkAppliedTouchesTheLastOkAttempt(all, mark);
      SameOks(all, MarkApplied(all, mark), id);
    }
  }

  ghost predicate OkSoFar(c: Config, m: Match, player: string) {
    m.valid ==> EveryActionHasOk(c, m, player)
  }

  lemma MovedKeepsOks(env: Env, arena: Arena, c: Config, legal: seq<Json>, m: Match, reply: Reply, after: Match,
                      choice: Choice, next: State, player: string)
    requires Moved(env, arena, c, legal, m, reply, after, choice, next) && Flags(m)
    requires player in c.providerSeats && OkSoFar(c, m, player)
    requires m.state.activePlayer.s == player ==> AnswersWithOk(reply)
    ensures OkSoFar(c, after, player)
  {
    if after.valid {
      hide HasOk, AnswersWithOk, Flags, LogicalId, MarkApplied, AppliedEventId;
      var mover := m.state.activePlayer.s;
      var added := Enriched(Context(env, c, m), reply.receipts);
      var id := LogicalId(c, mover, m.state.turn.i);
      var provider := choice.provenance == ProviderAction;
      assert after.receipts == TurnReceipts(m.receipts, added, id, provider);
      forall i: nat | i < |after.history| && after.history[i].player == player
        ensures OkReceiptFor(c, after.receipts, after.history[i])
      {
        if i < |m.history| {
          assert OkReceiptFor(c, m.receipts, m.history[i]);
          OksGrow(m.receipts, added, id, provider, LogicalId(c, player, m.history[i].turn));
        } else {
          OwnMoveHasOk(env, c, m, reply);
          OksGrow(m.receipts, added, id, provider, id);
        }
      }
    }
  }

  lemma OwnMoveHasOk(env: Env, c: Config, m: Match, reply: Reply)
    requires m.state.turn.JInt? && m.state.turn.i >= 0 && m.state.activePlayer.JStr?
    requires AnswersWithOk(reply) && CallAgent(reply).action != JNull
    ensures HasOk(Enriched(Context(env, c, m), reply.receipts), LogicalId(c, m.state.activePlayer.s, m.state.turn.i))
  {
    OkIsEnriched(env, c, m, reply.receipts);
  }

  lemma TurnKeepsOks(env: Env, arena: Arena, c: Config, m: Match, reply: Reply, player: string)
    requires Contract(arena) && GoodState(arena, m.state) && Flags(m)
    requires player in c.providerSeats && OkSoFar(c, m, player)
    requires m.state.activePlayer.s == player ==> AnswersWithOk(reply)
    ensures var step := TakeTurn(env, arena, c, LegalList(arena, m.state), m, reply);
            && (step.Broke? ==> !step.m.valid)
            && (step.Continued? ==> GoodState(arena, step.m.state) && Flags(step.m) && OkSoFar(c, step.m, player))
  {
    hide TakeTurn, OkSoFar, AnswersWithOk, GapFree, TimingFree, Contract;
    var legal := LegalList(arena, m.state);
    TurnShape(env, arena, c, legal, m, reply);
    TurnMovesTheState(env, arena, c, m, reply);
    var step := TakeTurn(env, arena, c, legal, m, reply);
    if step.Continued? {
      var choice, next :| Moved(env, arena, c, legal, m, reply, step.m, choice, next);
      MovedKeepsOks(env, arena, c, legal, m, reply, step.m, choice, next, player);
    }
  }

  lemma {:induction false} PlayKeepsOks(env: Env, arena: Arena, c: Config, agent: Agent, m: Match, player: string)
    requires Contract(arena) && GoodState(arena, m.state) && Flags(m)
    requires player in c.providerSeats && OkSoFar(c, m, player) && SeatAnswersWithOk(agent, player)
    ensures var out := PlayFrom(env, arena, c, agent, m);
            out.Stopped? ==> OkSoFar(c, out.m, player)
    decreases if m.state.turn.i < c.maxTurns then c.maxTurns - m.state.turn.i else 0
  {
    hide OkSoFar, TakeTurn, Flags, AnswersWithOk, Contract, TimingFree, LegalList;
    if !Over(c, m.state) {
      var reply := agent(MakeRequest(env, c, LegalList(arena, m.state), m));
      TurnMovesTheState(env, arena, c, m, reply);
      TurnKeepsOks(env, arena, c, m, reply, player);
      var step := TakeTurn(env, arena, c, LegalList(arena, m.state), m, reply);
      if step.Continued? {
        PlayKeepsOks(env, arena, c, agent, step.m, player);
      } else if step.Broke? {
        InvalidIsFine(c, step.m, player);
      }
    }
  }

  lemma InvalidIsFine(c: Config, m: Match, player: string)
    requires !m.valid
    ensures OkSoFar(c, m, player)
  {
  }

  /**
   An agent that never returns an action without an ok receipt reconciles: every finished, scoring-valid
   run with a case id and verified identity has an empty verdict for its seat.
   */
  lemma OkAnswersAlwaysReconcile(env: Env, arena: Arena, c: Config, agent: Agent, seed: int, player: string)
    requires Contract(arena) && EventIdsNamed(env) && CheckerIgnoresTimings(env)
    requires Run(env, arena, c, agent, seed).Some?
    requires var m := Run(env, arena, c, agent, seed).value;
             m.valid && HasCase(c) && IdentityVerified(c, m.receipts)
    requires player in c.providerSeats && SeatAnswersWithOk(agent, player)
    ensures Verdict(env, c, Run(env, arena, c, agent, seed).value, player) == Some([])
  {
    hide Finalise, Verdict, IdentityVerified, PlayFrom, EveryActionHasOk, SeatAnswersWithOk;
    var start := arena.initial(seed);
    OpeningIsFine(env, arena, c, start, player);
    PlayKeepsOks(env, arena, c, agent, Opening(env, arena, start), player);
    var m := PlayFrom(env, arena, c, agent, Opening(env, arena, start)).m;
    FinalisedReceipts(env, c, m);
    StampKeepsOks(c, m, Finalise(env, c, m).value, player);
    ValidRunReconcilesExactlyWhenEveryActionHasAnOkReceipt(env, arena, c, agent, seed, player);
  }

  lemma OpeningIsFine(env: Env, arena: Arena, c: Config, s: State, player: string)
    ensures Opening(env, arena, s).state == s
    ensures Flags(Opening(env, arena, s)) && OkSoFar(c, Opening(env, arena, s), player)
  {
  }

  /**
   An action in the reply is one the attempt loop returned, with its whole ledger; the loop's reader raises
   protocol errors only. Replies without an action, late ones among them, may carry anything.
   */
  ghost predicate FromAttemptLoop(reply: Reply) {
    CallAgent(reply).action != JNull ==> exists e: A.Env, limits: A.Config :: LoopReply(e, limits, reply)
  }

  ghost predicate LoopReply(e: A.Env, limits: A.Config, reply: Reply) {
    A.HonestKinds(e) && (forall k :: !e.read(k).Crashed?) &&
    A.Acting(e, limits).ending.Acted? && reply.receipts == A.Acting(e, limits).rows
  }

  lemma LoopAnswersWithOk(reply: Reply)
    requires FromAttemptLoop(reply)
    ensures AnswersWithOk(reply)
  {
    hide CallAgent;
    if CallAgent(reply).action != JNull {
      var e: A.Env, limits: A.Config :| LoopReply(e, limits, reply);
      A.OkExactlyWhenActed(e, limits);
      assert reply.receipts[|reply.receipts| - 1].outcome == OK;
    }
  }

  /** Agents built on the attempt loop, whose readers raise protocol errors only, always reconcile. */
  lemma AttemptLoopAlwaysReconciles(env: Env, arena: Arena, c: Config, agent: Agent, seed: int, player: string)
    requires Contract(arena) && EventIdsNamed(env) && CheckerIgnoresTimings(env)
    requires Run(env, arena, c, agent, seed).Some?
    requires var m := Run(env, arena, c, agent, seed).value;
             m.valid && HasCase(c) && IdentityVerified(c, m.receipts)
    requires player in c.providerSeats && forall q: Request :: q.player == player ==> FromAttemptLoop(agent(q))
    ensures Verdict(env, c, Run(env, arena, c, agent, seed).value, player) == Some([])
  {
    hide Finalise, Verdict, IdentityVerified, PlayFrom, FromAttemptLoop, AnswersWithOk, Run;
    forall q: Request | q.player == player ensures AnswersWithOk(agent(q)) {
      LoopAnswersWithOk(agent(q));
    }
    OkAnswersAlwaysReconcile(env, arena, c, agent, seed, player);
  }
}

/** What one pass of the loop can do to the record and to the scoring flags. */
module Turns {
  import opened Options
  import opened Json
  import opened Arenas
  import opened Events
  import opened Receipts
  import opened Match

  /** The recorded run is untouched: same state, rows and history. */
  predicate SameRecord(a: Match, b: Match) {
    a.state == b.state && a.trace == b.trace && a.replay == b.replay && a.history == b.history
  }

  /** The attempt ledger and the action counters are untouched. */
  predicate SameLedger(a: Match, b: Match) {
    a.receipts == b.receipts && a.eventIds == b.eventIds && a.logicalActions == b.logicalActions
    && a.providerActions == b.providerActions
  }

  /** The record grew by one forfeit of the seat to move. */
  ghost predicate ForfeitedTo(env: Env, arena: Arena, before: Match, after: Match, action: Json,
                              reason: string)
  {
    && WellTyped(arena, before.state)
    && var next := ForfeitState(arena, before.state, before.state.activePlayer.s, reason);
       && after.state == next
       && after.trace == before.trace + [MakeTrace(env.hash, arena, before.state, next, action,
                                                   "forfeit", None, None, None)]
       && after.replay == before.replay + [MakeReplay(env.hash, arena, next, action,
                                                      before.state.activePlayer,
                                                      None, None, None)]
       && after.history == before.history
  }

  ghost predicate EndsFrom(env: Env, arena: Arena, before: Match, after: Match) {
    SameRecord(after, before)
    || exists action, reason :: ForfeitedTo(env, arena, before, after, action, reason)
  }

  /** The provenance of an agent's own action. */
  function OwnProvenance(c: Config, player: string): Provenance {
    if player in c.providerSeats then ProviderAction else LocalAction
  }

  /** No failure has been noted, or all three scoring flags note one. */
  predicate Flags(m: Match) {
    && (m.valid <==> m.reason == None)
    && (m.valid <==> m.codes == [])
    && (m.valid ==> m.agentErrors == m.illegalActions == m.fallbackActions == multiset{})
  }

  predicate Tainted(m: Match) {
    !m.valid && m.reason.Some? && m.codes != []
  }

  lemma RejectEnds(env: Env, arena: Arena, m: Match, player: string, tag: Tag, markers: seq<Tag>,
                   action: Json, policy: Policy)
    requires WellTyped(arena, m.state) && player == m.state.activePlayer.s
    ensures var after := Reject(env, arena, m, player, tag, markers, action, policy);
            && EndsFrom(env, arena, m, after)
            && !after.valid && after.reason.Some? && after.codes == m.codes
            && SameLedger(after, m)
  {
    var after := Reject(env, arena, m, player, tag, markers, action, policy);
    if policy == Forfeit {
      assert ForfeitedTo(env, arena, m, after, action, env.describe(player, tag, markers));
    }
  }

  /** Without an action of its own the agent either gets the failure action or none. */
  lemma FirstChoiceShape(env: Env, c: Config, legal: seq<Json>, m: Match, player: string,
                         called: Called)
    ensures var choice := FirstChoice(env, c, legal, m, player, called);
            && choice.Play? && SameRecord(choice.m, m)
            && (choice.provenance == ProviderAction ==> player in c.providerSeats)
            && (called.action != JNull ==> choice.m == m && choice.action == called.action
                                           && choice.provenance == OwnProvenance(c, player))
            && (called.action == JNull && choice.action != JNull ==>
                  Tainted(choice.m) && choice.provenance == FallbackAction)
            && SameLedger(choice.m, m)
  {
  }

  lemma LegaliseShape(env: Env, arena: Arena, c: Config, legal: seq<Json>, player: string,
                      choice: Choice)
    requires choice.Play? && WellTyped(arena, choice.m.state)
    requires player == choice.m.state.activePlayer.s
    ensures var out := Legalise(env, arena, c, legal, player, choice);
            && (out.Ended? ==> EndsFrom(env, arena, choice.m, out.m))
            && (out.Ended? ==> Tainted(out.m) && SameLedger(out.m, choice.m))
            && (out.Play? ==> SameRecord(out.m, choice.m) && out.action != JNull
                              && IsLegal(legal, out.action) && SameLedger(out.m, choice.m))
            && (out.Play? ==> out == choice
                              || (Tainted(out.m) && out.provenance == FallbackAction))
  {
    if !(choice.action != JNull && IsLegal(legal, choice.action)) {
      var markers := choice.markers + [IllegalAction, NotLegal];
      var m := choice.m.(illegalActions := choice.m.illegalActions + multiset{player},
                         codes := AddCode(choice.m.codes, NotLegal));
      if c.onIllegalAction != Fallback {
        RejectEnds(env, arena, m, player, IllegalAction, markers, choice.action, c.onIllegalAction);
        var out := Reject(env, arena, m, player, IllegalAction, markers, choice.action,
                          c.onIllegalAction);
        EndsFromSameRecord(env, arena, choice.m, m, out);
      }
    }
  }

  lemma EndsFromSameRecord(env: Env, arena: Arena, a: Match, b: Match, after: Match)
    requires SameRecord(b, a) && EndsFrom(env, arena, b, after)
    ensures EndsFrom(env, arena, a, after)
  {
    if !SameRecord(after, a) {
      var action, reason :| ForfeitedTo(env, arena, b, after, action, reason);
      assert ForfeitedTo(env, arena, a, after, action, reason);
    }
  }

  /** A ledger row set and one more logical action were added to the match; nothing else moved. */
  predicate Charged(env: Env, c: Config, m: Match, reply: Reply, after: Match)
    requires m.state.turn.JInt? && m.state.turn.i >= 0 && m.state.activePlayer.JStr?
  {
    var ctx := Context(env, c, m);
    && GapFree(ctx, reply.receipts, m.eventIds)
    && after.receipts == m.receipts + Enriched(ctx, reply.receipts)
    && after.eventIds == m.eventIds + EventIds(ctx, |reply.receipts|)
    && after.logicalActions == m.logicalActions + multiset{m.state.activePlayer.s}
    && after.providerActions == m.providerActions
  }

  /** The turn was completed: a legal action applied and one row added everywhere. */
  ghost predicate Moved(env: Env, arena: Arena, c: Config, legal: seq<Json>, m: Match,
                        reply: Reply, after: Match, choice: Choice, next: State)
  {
    && WellTyped(arena, m.state)
    && choice.Play? && SameRecord(choice.m, m) && Charged(env, c, m, reply, choice.m)
    && choice.action != JNull && IsLegal(legal, choice.action)
    && arena.apply(m.state, m.state.activePlayer, choice.action) == Some(next)
    && after == Record(env, arena, c, choice.m, m.state.activePlayer.s, choice.action,
                       choice.provenance, next)
    && (Flags(m) ==> Flags(choice.m))
    && (choice.m.valid && Flags(m) ==>
          m.valid && choice.provenance == OwnProvenance(c, m.state.activePlayer.s))
    && (choice.provenance != FallbackAction ==> choice.action == CallAgent(reply).action)
  }

  lemma DecideShape(env: Env, arena: Arena, c: Config, legal: seq<Json>, m0: Match, reply: Reply,
                    m: Match, called: Called)
    requires WellTyped(arena, m0.state)
    requires SameRecord(m, m0) && Charged(env, c, m0, reply, m) && called == CallAgent(reply)
    requires Flags(m0) ==> (if called.action == JNull then m.codes != [] && m.valid == m0.valid
                            else Flags(m) && m.valid == m0.valid)
    ensures var step := Decide(env, arena, c, legal, m, m0.state.activePlayer.s, called);
            && !step.Raised?
            && (step.Broke? ==> EndsFrom(env, arena, m0, step.m) && Tainted(step.m)
                                && Charged(env, c, m0, reply, step.m))
            && (step.Continued? ==> exists choice, next ::
                  Moved(env, arena, c, legal, m0, reply, step.m, choice, next))
  {
    var player := m0.state.activePlayer.s;
    FirstChoiceShape(env, c, legal, m, player, called);
    var first := FirstChoice(env, c, legal, m, player, called);
    LegaliseShape(env, arena, c, legal, player, first);
    var out := Legalise(env, arena, c, legal, player, first);
    if out.Ended? {
      EndsFromSameRecord(env, arena, m0, first.m, out.m);
    } else {
      var applied := arena.apply(out.m.state, out.m.state.activePlayer, out.action);
      if applied.Some? {
        var after := Decide(env, arena, c, legal, m, player, called).m;
        assert Moved(env, arena, c, legal, m0, reply, after, out, applied.value);
      }
    }
  }

  /**
   One pass of the loop. A `break` leaves the record alone or adds one forfeit and
   always notes a failure in all three flags; otherwise exactly one legal move is
   recorded.
   */
  lemma TurnShape(env: Env, arena: Arena, c: Config, legal: seq<Json>, m: Match, reply: Reply)
    requires WellTyped(arena, m.state)
    ensures var step := TakeTurn(env, arena, c, legal, m, reply);
            && (step.Raised? <==> !GapFree(Context(env, c, m), reply.receipts, m.eventIds))
            && (step.Broke? ==> EndsFrom(env, arena, m, step.m) && Tainted(step.m)
                                && Charged(env, c, m, reply, step.m))
            && (step.Continued? ==> exists choice, next ::
                  Moved(env, arena, c, legal, m, reply, step.m, choice, next))
  {
    AgentErrorMeansNoAction(reply);
    var called := CallAgent(reply);
    var ctx := Context(env, c, m);
    var player := m.state.activePlayer.s;
    if GapFree(ctx, reply.receipts, m.eventIds) {
      var counted := m.(logicalActions := m.logicalActions + multiset{player},
                        receipts := m.receipts + Enriched(ctx, reply.receipts),
                        eventIds := m.eventIds + EventIds(ctx, |reply.receipts|));
      if HasAgentError(called.markers) {
        var kind := FailureClassOf(called);
        var failed := counted.(agentErrors := m.agentErrors + multiset{player},
                               codes := AddCode(AddCode(m.codes, AgentError), kind));
        var policy := if IsInterruption(kind) then InvalidMatch else c.onAgentError;
        if policy != Fallback {
          RejectEnds(env, arena, failed, player, kind, called.markers, called.action, policy);
          EndsFromSameRecord(env, arena, m, failed,
            Reject(env, arena, failed, player, kind, called.markers, called.action, policy));
        } else {
          DecideShape(env, arena, c, legal, m, reply, failed, called);
        }
      } else {
        DecideShape(env, arena, c, legal, m, reply, counted, called);
      }
    }
  }
}

/**
 The record of a scoring-valid run reconciles exactly when every one of the
 evaluated seat's turns ended in an applied provider attempt.
 */
module RunReconciles {
  import opened Options
  import opened Json
  import opened Arenas
  import opened Events
  import opened Receipts
  import opened Match
  import opened Turns
  import opened Runs
  import opened Reconcile
  import opened LogicalIds
  import opened ReconcileRun

  // ----- the invariant over whole runs -----

  ghost predicate ValidLedger(c: Config, m: Match, first: nat) {
    m.valid ==> exists log :: Ledgered(c, m, first, log)
  }

  lemma OpeningLedger(env: Env, arena: Arena, c: Config, s: State)
    requires s.turn.JInt? && s.turn.i >= 0
    ensures ValidLedger(c, Opening(env, arena, s), s.turn.i)
  {
    assert Ledgered(c, Opening(env, arena, s), s.turn.i, []);
  }

  lemma TurnKeepsTheLedger(env: Env, arena: Arena, c: Config, m: Match, reply: Reply, first: nat)
    requires Contract(arena) && GoodState(arena, m.state) && EventIdsNamed(env)
    requires Flags(m) && ValidLedger(c, m, first)
    ensures var step := TakeTurn(env, arena, c, LegalList(arena, m.state), m, reply);
            && (step.Broke? ==> !step.m.valid)
            && (step.Continued? ==> GoodState(arena, step.m.state) && Flags(step.m)
                                    && ValidLedger(c, step.m, first))
  {
    hide Ledgered, GoodState, GapFree, Decide;
    var legal := LegalList(arena, m.state);
    GoodStateIsWellTyped(arena, m.state);
    TurnShape(env, arena, c, legal, m, reply);
    TurnMovesTheState(env, arena, c, m, reply);
    var step := TakeTurn(env, arena, c, legal, m, reply);
    if step.Continued? {
      var choice, next :| Moved(env, arena, c, legal, m, reply, step.m, choice, next);
      if step.m.valid {
        var log :| Ledgered(c, m, first, log);
        var v := MovedStaysLedgered(env, arena, c, legal, m, reply, step.m, choice, next, first,
                                    log);
      }
    }
  }

  lemma GoodStateIsWellTyped(arena: Arena, s: State)
    requires GoodState(arena, s)
    ensures WellTyped(arena, s)
  {
  }

  lemma {:induction false} PlayKeepsTheLedger(env: Env, arena: Arena, c: Config, agent: Agent,
                                              m: Match, first: nat)
    requires Contract(arena) && GoodState(arena, m.state) && EventIdsNamed(env)
    requires Flags(m) && ValidLedger(c, m, first)
    ensures var out := PlayFrom(env, arena, c, agent, m);
            out.Stopped? ==> ValidLedger(c, out.m, first)
    decreases if m.state.turn.i < c.maxTurns then c.maxTurns - m.state.turn.i else 0
  {
    hide ValidLedger, TakeTurn, Flags;
    if !Over(c, m.state) {
      var reply := agent(MakeRequest(env, c, LegalList(arena, m.state), m));
      TurnMovesTheState(env, arena, c, m, reply);
      TurnKeepsTheLedger(env, arena, c, m, reply, first);
      var step := TakeTurn(env, arena, c, LegalList(arena, m.state), m, reply);
      if step.Continued? {
        PlayKeepsTheLedger(env, arena, c, agent, step.m, first);
      } else if step.Broke? {
        InvalidNeedsNoLedger(c, step.m, first);
      }
    }
  }

  lemma InvalidNeedsNoLedger(c: Config, m: Match, first: nat)
    requires !m.valid
    ensures ValidLedger(c, m, first)
  {
  }

  // ----- reading the written files back -----

  function CanonReceipt(r: ReceiptRow): ReceiptRow {
    ReceiptRow(
      Canon(r.eventId), Canon(r.logicalActionId), Canon(r.seatId), Canon(r.activePlayer),
      Canon(r.caseId), Canon(r.attemptIndex), Canon(r.attemptKind), Canon(r.parentAttemptId),
      Canon(r.outcome), Canon(r.status), Canon(r.actionApplied), Canon(r.caseValid),
      Canon(r.provider), Canon(r.model), Canon(r.lockedModelId), Canon(r.identitySource))
  }

  function WrittenReceipts(rows: seq<ReceiptRow>): seq<ReceiptRow> {
    seq(|rows|, k requires 0 <= k < |rows| => CanonReceipt(rows[k]))
  }

  function TraceJoin(m: Match): seq<JoinRow> {
    seq(|m.trace|, i requires 0 <= i < |m.trace| => OfTrace(CanonRow(View(m.trace[i], Public))))
  }

  function ReplayJoin(m: Match): seq<JoinRow> {
    seq(|m.replay|, i requires 0 <= i < |m.replay| => OfReplay(m.replay[i]))
  }

  /** Dropping timing keys makes no valid receipt invalid. */
  ghost predicate CheckerIgnoresTimings(env: Env) {
    forall r :: env.receiptInvalid(CanonReceipt(r)) ==> env.receiptInvalid(r)
  }

  // ----- filtering by seat -----

  /** `at` lists, in order, exactly the positions of the seat's provider moves. */
  ghost predicate StandAt(rows: seq<JoinRow>, player: string, at: seq<nat>) {
    && |at| == |ProviderMoves(rows, player)|
    && (forall j | 0 <= j < |at| :: MoveStandsAt(rows, player, at[j], j))
    && (forall i, j | 0 <= i < j < |at| :: at[i] < at[j])
    && (forall i | 0 <= i < |rows| && IsProviderMove(rows[i], player) :: i in at)
  }

  predicate MoveStandsAt(rows: seq<JoinRow>, player: string, i: nat, j: nat)
    requires j < |ProviderMoves(rows, player)|
  {
    i < |rows| && rows[i] == ProviderMoves(rows, player)[j] && IsProviderMove(rows[i], player)
  }

  lemma {:induction false} WhereMovesStand(rows: seq<JoinRow>, player: string)
    returns (at: seq<nat>)
    ensures StandAt(rows, player, at)
  {
    hide IsProviderMove;
    if rows == [] {
      at := [];
    } else {
      var last := |rows| - 1;
      var front := WhereMovesStand(rows[..last], player);
      at := if IsProviderMove(rows[last], player) then front + [last] else front;
      StandAtGrows(rows, player, front);
    }
  }

  lemma StandAtGrows(rows: seq<JoinRow>, player: string, front: seq<nat>)
    requires rows != [] && StandAt(rows[..|rows| - 1], player, front)
    ensures var last := |rows| - 1;
            StandAt(rows, player,
                    if IsProviderMove(rows[last], player) then front + [last] else front)
  {
    hide IsProviderMove, StandAt;
    if IsProviderMove(rows[|rows| - 1], player) {
      StandAtGains(rows, player, front);
    } else {
      StandAtSkips(rows, player, front);
    }
  }

  lemma StandAtSkips(rows: seq<JoinRow>, player: string, front: seq<nat>)
    requires rows != [] && StandAt(rows[..|rows| - 1], player, front)
    requires !IsProviderMove(rows[|rows| - 1], player)
    ensures StandAt(rows, player, front)
  {
    hide IsProviderMove;
    var before := rows[..|rows| - 1];
    forall j | 0 <= j < |front| ensures MoveStandsAt(rows, player, front[j], j) {
      assert MoveStandsAt(before, player, front[j], j);
    }
    forall i | 0 <= i < |rows| && IsProviderMove(rows[i], player) ensures i in front {
      assert before[i] == rows[i];
    }
  }

  lemma StandAtGains(rows: seq<JoinRow>, player: string, front: seq<nat>)
    requires rows != [] && StandAt(rows[..|rows| - 1], player, front)
    requires IsProviderMove(rows[|rows| - 1], player)
    ensures StandAt(rows, player, front + [|rows| - 1])
  {
    hide IsProviderMove;
    var last := |rows| - 1;
    var before, at := rows[..last], front + [last];
    forall j | 0 <= j < |at| ensures MoveStandsAt(rows, player, at[j], j) {
      if j < |front| {
        assert MoveStandsAt(before, player, front[j], j);
      }
    }
    forall i, j | 0 <= i < j < |at| ensures at[i] < at[j] {
      assert MoveStandsAt(before, player, front[i], i);
    }
    forall i | 0 <= i < |rows| && IsProviderMove(rows[i], player) ensures i in at {
      if i < last {
        assert before[i] == rows[i];
      }
    }
  }

  lemma {:induction false} SkippingAnOtherRow(r: JoinRow, rows: seq<JoinRow>, player: string)
    requires !IsProviderMove(r, player)
    ensures ProviderMoves([r] + rows, player) == ProviderMoves(rows, player)
  {
    var all := [r] + rows;
    if rows == [] {
      assert all[..0] == [];
    } else {
      SkippingAnOtherRow(r, rows[..|rows| - 1], player);
      assert all[..|all| - 1] == [r] + rows[..|rows| - 1];
    }
  }

  /** The rows of a ledgered match, without the rest of the match. */
  predicate RowsOf(c: Config, rows: seq<JoinRow>, first: nat, log: seq<Move>) {
    |rows| == |log| && forall i | 0 <= i < |log| :: rows[i] == RowOf(c, first + i, log[i])
  }

  lemma RowIsMove(c: Config, turn: nat, v: Move, player: string)
    ensures IsProviderMove(RowOf(c, turn, v), player) <==> v.player == player && v.provider
  {
    assert "provider_action"[0] != "local_action"[0];
  }

  lemma {:induction false} MovesAreCounted(c: Config, rows: seq<JoinRow>, first: nat,
                                           log: seq<Move>, player: string)
    requires RowsOf(c, rows, first, log)
    requires forall i | 0 <= i < |log| && log[i].player == player :: log[i].provider
    ensures |ProviderMoves(rows, player)| == CountMoves(log, player)
    ensures CountApplied(log, player) <= CountMoves(log, player)
    ensures CountApplied(log, player) == CountMoves(log, player)
            <==> forall i | 0 <= i < |log| && log[i].player == player :: log[i].attempt.Some?
  {
    hide RowOf, IsProviderMove;
    if log != [] {
      var last := |log| - 1;
      MovesAreCounted(c, rows[..last], first, log[..last], player);
      assert log == log[..last] + [log[last]];
      RowIsMove(c, first + last, log[last], player);
    }
  }

  // ----- the written receipts -----

  /** What survives stamping and writing, for the receipts of a complete, valid case. */
  predicate Faithful(r: ReceiptRow, w: ReceiptRow) {
    && w.eventId == r.eventId && w.logicalActionId == r.logicalActionId && w.seatId == r.seatId
    && w.activePlayer == r.activePlayer && w.caseId == r.caseId && w.status == r.status
    && (w.outcome == OK <==> r.outcome == OK)
    && (w.actionApplied == JBool(true) <==> r.actionApplied == JBool(true))
    && w.caseValid == JBool(r.actionApplied == JBool(true))
  }

  ghost predicate AllFaithful(receipts: seq<ReceiptRow>, written: seq<ReceiptRow>) {
    |written| == |receipts| && forall k | 0 <= k < |receipts| :: Faithful(receipts[k], written[k])
  }

  lemma StampedIsFaithful(c: Config, receipts: seq<ReceiptRow>, first: nat, now: nat)
    requires Dated(c, receipts, first, now)
    ensures AllFaithful(receipts, WrittenReceipts(Stamp(receipts, true)))
  {
    var stamped := Stamp(receipts, true);
    forall k | 0 <= k < |receipts| ensures Faithful(receipts[k], WrittenReceipts(stamped)[k]) {
      assert OfSomeTurn(c, receipts[k], first, now);
      var t: nat :| first <= t < now && OfTurn(c, receipts[k], t);
    }
  }

  lemma WrittenLedgerIsClean(env: Env, c: Config, receipts: seq<ReceiptRow>, first: nat, now: nat)
    requires Dated(c, receipts, first, now) && EventsDiffer(receipts)
    requires CheckerIgnoresTimings(env) && c.caseId.Some?
    requires var stamped := Stamp(receipts, true);
             forall k | 0 <= k < |stamped| :: !env.receiptInvalid(stamped[k])
    ensures CleanLedger(WrittenReceipts(Stamp(receipts, true)), env.receiptInvalid, c.caseId)
  {
    StampedIsFaithful(c, receipts, first, now);
    var written := WrittenReceipts(Stamp(receipts, true));
    forall k | 0 <= k < |written|
      ensures NamedEvent(written[k]) && written[k].caseId == JStr(c.caseId.value)
              && !env.receiptInvalid(written[k])
    {
      assert Faithful(receipts[k], written[k]);
      assert OfSomeTurn(c, receipts[k], first, now);
      var t: nat :| first <= t < now && OfTurn(c, receipts[k], t);
    }
    forall i, j | 0 <= i < j < |written| ensures written[i].eventId != written[j].eventId {
      assert Faithful(receipts[i], written[i]) && Faithful(receipts[j], written[j]);
    }
  }

  /** A supported move is backed by the written receipt, which is valid for scoring the case. */
  lemma SupportBacks(c: Config, r: ReceiptRow, w: ReceiptRow, first: nat, now: nat, turn: nat,
                     v: Move)
    requires OfSomeTurn(c, r, first, now) && Supports(c, r, turn, v) && Faithful(r, w)
    ensures w.eventId == RowOf(c, turn, v).eventId && IsJoinable(RowOf(c, turn, v))
    ensures Backs(w, RowOf(c, turn, v).logicalId, v.player) && w.caseValid == JBool(true)
  {
    var t: nat :| first <= t < now && OfTurn(c, r, t);
  }

  /** The k-th receipt is what the row at position i points to. */
  ghost predicate PointsTo(c: Config, receipts: seq<ReceiptRow>, first: nat, log: seq<Move>,
                           i: nat, k: nat)
  {
    i < |log| && k < |receipts| && Supports(c, receipts[k], first + i, log[i])
  }

  lemma {:induction false} PointAll(c: Config, receipts: seq<ReceiptRow>, first: nat,
                                    log: seq<Move>, at: seq<nat>)
    returns (link: seq<nat>)
    requires Corresponds(c, receipts, first, log)
    requires forall j | 0 <= j < |at| :: at[j] < |log| && log[at[j]].attempt.Some?
    ensures |link| == |at|
    ensures forall j | 0 <= j < |at| :: PointsTo(c, receipts, first, log, at[j], link[j])
  {
    hide Supports;
    if at == [] {
      link := [];
    } else {
      var last := |at| - 1;
      var front := PointAll(c, receipts, first, log, at[..last]);
      assert Supported(c, receipts, first + at[last], log[at[last]]);
      var k :| 0 <= k < |receipts| && Supports(c, receipts[k], first + at[last], log[at[last]]);
      link := front + [k];
      forall j | 0 <= j < |at| ensures PointsTo(c, receipts, first, log, at[j], link[j]) {
        if j < last {
          assert PointsTo(c, receipts, first, log, at[..last][j], front[j]);
        }
      }
    }
  }

  /** Two moves never point to one receipt: their logical actions differ by turn. */
  lemma PointersDiffer(c: Config, receipts: seq<ReceiptRow>, first: nat, log: seq<Move>,
                       i: nat, j: nat, k: nat)
    requires PointsTo(c, receipts, first, log, i, k) && PointsTo(c, receipts, first, log, j, k)
    ensures i == j
  {
    LogicalIdsDiffer(c, log[i].player, first + i, log[j].player, first + j);
  }

  lemma LedgerPairs(c: Config, rows: seq<JoinRow>, receipts: seq<ReceiptRow>,
                    written: seq<ReceiptRow>, first: nat, log: seq<Move>, player: string)
    returns (link: seq<nat>)
    requires RowsOf(c, rows, first, log) && c.caseId.Some?
    requires Dated(c, receipts, first, first + |log|) && Corresponds(c, receipts, first, log)
    requires EventsDiffer(receipts) && AllFaithful(receipts, written)
    requires forall i | 0 <= i < |log| && log[i].player == player ::
               log[i].provider && log[i].attempt.Some?
    ensures PairsOneToOne(link, ProviderMoves(rows, player), written, player, c.caseId)
  {
    hide Supports, Backs, Corresponds, RowOf, IsProviderMove, ProviderMoves, Faithful, OfTurn,
         IsAppliedOk, OfSomeTurn, IsJoinable, EventsDiffer;
    var traces := ProviderMoves(rows, player);
    var at := WhereMovesStand(rows, player);
    forall j | 0 <= j < |at|
      ensures at[j] < |log| && log[at[j]].player == player && traces[j] == RowOf(c, first + at[j], log[at[j]])
    {
      assert MoveStandsAt(rows, player, at[j], j);
      RowIsMove(c, first + at[j], log[at[j]], player);
    }
    link := PointAll(c, receipts, first, log, at);
    forall j | 0 <= j < |traces|
      ensures link[j] < |written| && IsJoinable(traces[j])
              && written[link[j]].eventId == traces[j].eventId
              && Backs(written[link[j]], traces[j].logicalId, player)
              && written[link[j]].caseValid == JBool(true)
    {
      assert PointsTo(c, receipts, first, log, at[j], link[j]);
      SupportBacks(c, receipts[link[j]], written[link[j]], first, first + |log|, first + at[j],
                   log[at[j]]);
    }
    forall i, j | 0 <= i < j < |traces| ensures link[i] != link[j] {
      if link[i] == link[j] {
        assert PointsTo(c, receipts, first, log, at[i], link[i]);
        assert PointsTo(c, receipts, first, log, at[j], link[j]);
        PointersDiffer(c, receipts, first, log, at[i], at[j], link[i]);
      }
    }
    forall k | 0 <= k < |written| && IsAppliedOk(written[k], player) ensures k in link {
      AppliedIsLinked(c, rows, receipts, written, first, log, player, at, link, k);
    }
  }

  lemma AppliedIsLinked(c: Config, rows: seq<JoinRow>, receipts: seq<ReceiptRow>,
                        written: seq<ReceiptRow>, first: nat, log: seq<Move>, player: string,
                        at: seq<nat>, link: seq<nat>, k: nat)
    requires RowsOf(c, rows, first, log) && StandAt(rows, player, at)
    requires Dated(c, receipts, first, first + |log|) && Corresponds(c, receipts, first, log)
    requires EventsDiffer(receipts) && AllFaithful(receipts, written)
    requires |link| == |at|
    requires forall j | 0 <= j < |at| :: PointsTo(c, receipts, first, log, at[j], link[j])
    requires k < |written| && IsAppliedOk(written[k], player)
    ensures k in link
  {
    hide PointsTo, RowOf, IsProviderMove, Dated, Corresponds, AllFaithful, IsAppliedOk,
         EventsDiffer, MoveStandsAt;
    var i := ExplainedMove(c, receipts, written, first, log, player, k);
    RowIsMove(c, first + i, log[i], player);
    assert IsProviderMove(rows[i], player);
    var j :| 0 <= j < |at| && at[j] == i;
    SameReceipt(c, receipts, first, log, i, k, link[j]);
  }

  lemma ExplainedMove(c: Config, receipts: seq<ReceiptRow>, written: seq<ReceiptRow>, first: nat,
                      log: seq<Move>, player: string, k: nat)
    returns (i: nat)
    requires Dated(c, receipts, first, first + |log|) && Corresponds(c, receipts, first, log)
    requires AllFaithful(receipts, written)
    requires k < |written| && IsAppliedOk(written[k], player)
    ensures i < |log| && log[i].player == player && log[i].provider
    ensures PointsTo(c, receipts, first, log, i, k)
  {
    assert Faithful(receipts[k], written[k]);
    assert OfSomeTurn(c, receipts[k], first, first + |log|);
    var t: nat :| first <= t < first + |log| && OfTurn(c, receipts[k], t);
    assert Explained(c, receipts[k], first, log);
    i :| 0 <= i < |log| && Supports(c, receipts[k], first + i, log[i]);
  }

  lemma SameReceipt(c: Config, receipts: seq<ReceiptRow>, first: nat, log: seq<Move>, i: nat,
                    k: nat, l: nat)
    requires EventsDiffer(receipts)
    requires PointsTo(c, receipts, first, log, i, k) && PointsTo(c, receipts, first, log, i, l)
    ensures k == l
  {
    assert receipts[k].eventId == receipts[l].eventId;
  }

  // ----- the theorem -----

  /** The verdict of the official join on the files a finished match writes. */
  function Verdict(env: Env, c: Config, m: Match, player: string): Option<seq<ReconcileError>> {
    Errors(TraceJoin(m), ReplayJoin(m), WrittenReceipts(m.receipts), env.receiptInvalid, player,
           c.caseId, JInt(m.logicalActions[player]))
  }

  lemma ReplayHasTheSameMoves(c: Config, m: Match, first: nat, log: seq<Move>, player: string)
    requires Joined(c, m, first, log)
    ensures ProviderMoves(ReplayJoin(m), player) == ProviderMoves(TraceJoin(m), player)
    ensures RowsOf(c, TraceJoin(m), first, log)
  {
    hide View, CanonRow, RowOf;
    var start := OfReplay(m.replay[0]);
    assert ReplayJoin(m) == [start] + TraceJoin(m);
    SkippingAnOtherRow(start, TraceJoin(m), player);
  }

  /** The receipts a valid case ends with are its loop's receipts, stamped valid where applied. */
  lemma FinalisedReceipts(env: Env, c: Config, m: Match)
    requires Finalise(env, c, m).Some?
    ensures var done := Finalise(env, c, m).value;
            && (done.valid ==> m.valid)
            && done.trace == m.trace && done.replay == m.replay && done.history == m.history
            && done.logicalActions == m.logicalActions
            && done.providerActions == m.providerActions
            && |done.receipts| == |m.receipts|
            && (forall k | 0 <= k < |done.receipts| :: !env.receiptInvalid(done.receipts[k]))
            && (done.valid && HasCase(c) && IdentityVerified(c, done.receipts) ==>
                  done.receipts == Stamp(m.receipts, true))
  {
    var done := Finalise(env, c, m).value;
    IdentityIgnoresStamps(c, m.receipts, done.receipts);
  }

  lemma IdentityIgnoresStamps(c: Config, receipts: seq<ReceiptRow>, stamped: seq<ReceiptRow>)
    requires |stamped| == |receipts|
    requires forall k | 0 <= k < |receipts| :: stamped[k] == receipts[k].(caseValid := stamped[k].caseValid)
    ensures IdentityVerified(c, stamped) <==> IdentityVerified(c, receipts)
  {
    forall k | 0 <= k < |receipts|
      ensures stamped[k].outcome == receipts[k].outcome
              && stamped[k].activePlayer == receipts[k].activePlayer
              && stamped[k].lockedModelId == receipts[k].lockedModelId
              && TrustedIdentity(stamped[k]) == TrustedIdentity(receipts[k])
    {
    }
  }

  lemma LedgeredMatchReconciles(env: Env, c: Config, m: Match, done: Match, first: nat,
                                log: seq<Move>, player: string)
    requires Ledgered(c, m, first, log)
    requires CheckerIgnoresTimings(env) && c.caseId.Some? && player in c.providerSeats
    requires done.trace == m.trace && done.replay == m.replay && done.history == m.history
             && done.logicalActions == m.logicalActions
             && done.providerActions == m.providerActions
             && done.receipts == Stamp(m.receipts, true)
    requires forall k | 0 <= k < |done.receipts| :: !env.receiptInvalid(done.receipts[k])
    ensures Verdict(env, c, done, player) == Some([])
            <==> done.providerActions[player] == done.logicalActions[player]
  {
    hide Dated, Corresponds, PairsOneToOne, CleanLedger, AllFaithful, Errors, AllBacked, RowOf,
         ProviderMoves, IsProviderMove, AppliedEvents, ReferencedSet, EventsDiffer, Backs;
    var now := first + |log|;
    var rows := TraceJoin(done);
    var traces := ProviderMoves(rows, player);
    var written := WrittenReceipts(done.receipts);
    StampedIsFaithful(c, m.receipts, first, now);
    WrittenLedgerIsClean(env, c, m.receipts, first, now);
    ReplayHasTheSameMoves(c, done, first, log, player);
    MovesAreCounted(c, rows, first, log, player);
    var expected := JInt(done.logicalActions[player]);
    NoErrorsExactlyWhenOneToOne(rows, ReplayJoin(done), written, env.receiptInvalid, player,
                                c.caseId, expected);
    if done.providerActions[player] == done.logicalActions[player] {
      var link := LedgerPairs(c, rows, m.receipts, written, first, log, player);
    }
    if link :| PairsOneToOne(link, traces, written, player, c.caseId) {
      PairedRowsHaveAttempts(c, rows, written, first, log, player, link);
    }
  }

  lemma PairedRowsHaveAttempts(c: Config, rows: seq<JoinRow>, written: seq<ReceiptRow>,
                               first: nat, log: seq<Move>, player: string, link: seq<nat>)
    requires RowsOf(c, rows, first, log)
    requires forall i | 0 <= i < |log| && log[i].player == player :: log[i].provider
    requires PairsOneToOne(link, ProviderMoves(rows, player), written, player, c.caseId)
    ensures forall i | 0 <= i < |log| && log[i].player == player :: log[i].attempt.Some?
  {
    hide Backs, IsProviderMove;
    var at := WhereMovesStand(rows, player);
    forall i | 0 <= i < |log| && log[i].player == player ensures log[i].attempt.Some? {
      RowIsMove(c, first + i, log[i], player);
      assert IsProviderMove(rows[i], player);
      var j :| 0 <= j < |at| && at[j] == i;
      assert MoveStandsAt(rows, player, at[j], j);
      assert IsJoinable(ProviderMoves(rows, player)[j]);
    }
  }

  // ----- the condition on receipts -----

  /** The turn's logical action has an ok receipt. */
  ghost predicate OkReceiptFor(c: Config, receipts: seq<ReceiptRow>, h: HistoryEntry) {
    h.turn >= 0 && HasOk(receipts, LogicalId(c, h.player, h.turn))
  }

  /** Every logical action of the seat has an ok receipt under its own id. */
  ghost predicate EveryActionHasOk(c: Config, m: Match, player: string) {
    forall i: nat | i < |m.history| && m.history[i].player == player :: OkReceiptFor(c, m.receipts, m.history[i])
  }

  /** The two counters of a provider seat agree exactly when all its logical actions have ok receipts. */
  lemma CountersSayOk(c: Config, m: Match, first: nat, log: seq<Move>, player: string)
    requires Ledgered(c, m, first, log) && player in c.providerSeats
    ensures m.providerActions[player] == m.logicalActions[player] <==> EveryActionHasOk(c, m, player)
  {
    hide View, CanonRow, RowOf, HasOk, Dated, Corresponds, EventsDiffer, LogicalId, IsProviderMove, ProviderMoves;
    MovesAreCounted(c, TraceJoin(m), first, log, player);
    forall i: nat | i < |log| && log[i].player == player
      ensures log[i].attempt.Some? <==> OkReceiptFor(c, m.receipts, m.history[i])
    {
      assert CompleteAt(c, m.receipts, first + i, log[i]);
      assert m.history[i].turn == first + i && m.history[i].player == log[i].player;
    }
  }

  lemma StampKeepsOks(c: Config, m: Match, done: Match, player: string)
    requires done.history == m.history && done.receipts == Stamp(m.receipts, true)
    ensures EveryActionHasOk(c, done, player) <==> EveryActionHasOk(c, m, player)
  {
    forall h: HistoryEntry ensures OkReceiptFor(c, done.receipts, h) <==> OkReceiptFor(c, m.receipts, h) {
      if h.turn >= 0 { StampKeepsOk(m.receipts, LogicalId(c, h.player, h.turn)); }
    }
  }

  lemma StampKeepsOk(receipts: seq<ReceiptRow>, id: string)
    ensures HasOk(Stamp(receipts, true), id) <==> HasOk(receipts, id)
  {
    forall k | 0 <= k < |receipts| ensures OkFor(Stamp(receipts, true)[k], id) <==> OkFor(receipts[k], id) { }
  }

  /**
   Official reconciliation of a run's own record. For a finished, scoring-valid run
   with a case id and a verified model identity, the three-way join of the written
   files for a provider-backed seat reports nothing if and only if each of the
   seat's logical actions has an ok receipt under its own id; and that is when the
   two counters the run reports for the seat agree.
   */
  lemma ValidRunReconcilesExactlyWhenEveryActionHasAnOkReceipt(env: Env, arena: Arena, c: Config,
      agent: Agent, seed: int, player: string)
    requires Contract(arena) && EventIdsNamed(env) && CheckerIgnoresTimings(env)
    requires Run(env, arena, c, agent, seed).Some?
    requires var m := Run(env, arena, c, agent, seed).value;
             m.valid && HasCase(c) && IdentityVerified(c, m.receipts)
    requires player in c.providerSeats
    ensures var m := Run(env, arena, c, agent, seed).value;
            && (Verdict(env, c, m, player) == Some([]) <==> EveryActionHasOk(c, m, player))
            && (Verdict(env, c, m, player) == Some([])
                <==> m.providerActions[player] == m.logicalActions[player])
  {
    hide Ledgered, Finalise, Verdict, IdentityVerified, PlayFrom, EveryActionHasOk;
    var start := arena.initial(seed);
    var opening := Opening(env, arena, start);
    OpeningLedger(env, arena, c, start);
    PlayKeepsTheLedger(env, arena, c, agent, opening, start.turn.i);
    var m := PlayFrom(env, arena, c, agent, opening).m;
    FinalisedReceipts(env, c, m);
    var log :| Ledgered(c, m, start.turn.i, log);
    var done := Finalise(env, c, m).value;
    LedgeredMatchReconciles(env, c, m, done, start.turn.i, log, player);
    CountersSayOk(c, m, start.turn.i, log, player);
    StampKeepsOks(c, m, done, player);
  }
}

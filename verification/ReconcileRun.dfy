/** When the record of a finished, scoring-valid run reconciles. */
module ReconcileRun {
  import opened Options
  import opened Json
  import opened Arenas
  import opened Events
  import opened Receipts
  import opened Match
  import opened Turns
  import opened Runs
  import opened Reconcile
  import opened LogicalIds

  /** What one turn contributed: who moved, from a provider or not, and the attempt applied. */
  datatype Move = Move(player: string, provider: bool, attempt: Option<string>)

  function RowOf(c: Config, turn: nat, v: Move): JoinRow {
    JoinRow(JStr(v.player), JStr(ProvenanceText(if v.provider then ProviderAction else LocalAction)),
            JStr(LogicalId(c, v.player, turn)), OptionalText(v.attempt))
  }

  function CountMoves(log: seq<Move>, p: string): nat {
    if log == [] then 0
    else CountMoves(log[..|log| - 1], p) + if log[|log| - 1].player == p then 1 else 0
  }

  function CountApplied(log: seq<Move>, p: string): nat {
    if log == [] then 0
    else
      var last := log[|log| - 1];
      CountApplied(log[..|log| - 1], p)
      + if last.player == p && last.provider && last.attempt.Some? then 1 else 0
  }

  /** The receipt of some turn in [first, now), as enrichment and marking leave it. */
  ghost predicate OfTurn(c: Config, r: ReceiptRow, turn: nat) {
    && r.activePlayer.JStr? && r.activePlayer.s != "" && r.seatId == r.activePlayer
    && r.logicalActionId == JStr(LogicalId(c, r.activePlayer.s, turn))
    && r.caseId == OptionalText(c.caseId)
    && r.status == JStr(if r.outcome == OK then "completed" else "failed")
    && r.eventId.JStr? && r.eventId.s != ""
  }

  ghost predicate Dated(c: Config, receipts: seq<ReceiptRow>, first: nat, now: nat) {
    forall k | 0 <= k < |receipts| :: OfSomeTurn(c, receipts[k], first, now)
  }

  ghost predicate OfSomeTurn(c: Config, r: ReceiptRow, first: nat, now: nat) {
    exists t: nat | first <= t < now :: OfTurn(c, r, t)
  }

  /** Row i's attempt is an applied ok receipt of exactly that logical action. */
  predicate Supports(c: Config, r: ReceiptRow, turn: nat, v: Move) {
    v.attempt.Some? && v.provider && r.eventId == JStr(v.attempt.value)
    && r.outcome == OK && r.actionApplied == JBool(true)
    && r.activePlayer == JStr(v.player) && r.logicalActionId == JStr(LogicalId(c, v.player, turn))
  }

  /** Some receipt is the applied attempt behind this move. */
  ghost predicate Supported(c: Config, receipts: seq<ReceiptRow>, turn: nat, v: Move) {
    exists k | 0 <= k < |receipts| :: Supports(c, receipts[k], turn, v)
  }

  /** Some move of the log is what this receipt's attempt was applied for. */
  ghost predicate Explained(c: Config, r: ReceiptRow, first: nat, log: seq<Move>) {
    exists i | 0 <= i < |log| :: Supports(c, r, first + i, log[i])
  }

  /** Attempts of the log and applied receipts correspond. */
  ghost predicate Corresponds(c: Config, receipts: seq<ReceiptRow>, first: nat, log: seq<Move>) {
    && (forall i | 0 <= i < |log| && log[i].attempt.Some? ::
          Supported(c, receipts, first + i, log[i]))
    && (forall k | 0 <= k < |receipts| && receipts[k].actionApplied == JBool(true) ::
          Explained(c, receipts[k], first, log))
  }

  /** The logical action has an ok receipt. */
  ghost predicate HasOk(receipts: seq<ReceiptRow>, id: string) {
    exists k | 0 <= k < |receipts| :: OkFor(receipts[k], id)
  }

  /** A provider's move has an attempt exactly when its logical action has an ok receipt. */
  ghost predicate CompleteAt(c: Config, receipts: seq<ReceiptRow>, turn: nat, v: Move) {
    v.provider ==> (v.attempt.Some? <==> HasOk(receipts, LogicalId(c, v.player, turn)))
  }

  ghost predicate Complete(c: Config, receipts: seq<ReceiptRow>, first: nat, log: seq<Move>) {
    forall i: nat | i < |log| :: CompleteAt(c, receipts, first + i, log[i])
  }

  predicate KnownEvents(receipts: seq<ReceiptRow>, ids: set<string>) {
    forall k | 0 <= k < |receipts| :: receipts[k].eventId.JStr? && receipts[k].eventId.s in ids
  }

  // ----- one turn's receipts -----

  lemma EnrichedRowsOfTurn(env: Env, c: Config, m: Match, turn: nat, receipts: seq<Receipt>)
    requires m.state.activePlayer.JStr? && m.state.activePlayer.s != "" && m.state.turn == JInt(turn)
    requires forall id, n :: env.eventId(id, n) != ""
    requires GapFree(Context(env, c, m), receipts, m.eventIds)
    ensures var rows := Enriched(Context(env, c, m), receipts);
            && (forall k | 0 <= k < |rows| ::
                  OfTurn(c, rows[k], turn) && rows[k].actionApplied == JBool(false)
                  && rows[k].activePlayer == m.state.activePlayer)
            && EventsDiffer(rows)
            && KnownEvents(rows, EventIds(Context(env, c, m), |receipts|))
            && (forall k | 0 <= k < |rows| :: rows[k].eventId.s !in m.eventIds)
  {
    var ctx := Context(env, c, m);
    var rows := Enriched(ctx, receipts);
    forall k | 0 <= k < |rows|
      ensures rows[k].eventId == JStr(EventAt(ctx, k))
      ensures OfTurn(c, rows[k], turn)
    {
    }
  }

  lemma EventsDifferJoin(a: seq<ReceiptRow>, b: seq<ReceiptRow>, ids: set<string>)
    requires EventsDiffer(a) && EventsDiffer(b) && KnownEvents(a, ids)
    requires forall k | 0 <= k < |b| :: b[k].eventId.JStr? && b[k].eventId.s !in ids
    ensures EventsDiffer(a + b)
  {
    var ab := a + b;
    forall i, j | 0 <= i < j < |ab| ensures ab[i].eventId != ab[j].eventId {
      if i < |a| <= j {
        assert ab[i] == a[i] && ab[j] == b[j - |a|];
      } else if |a| <= i {
        assert ab[i] == b[i - |a|] && ab[j] == b[j - |a|];
      }
    }
  }

  lemma {:induction false} NoneApplied(rows: seq<ReceiptRow>, id: string)
    requires forall k | 0 <= k < |rows| :: !AppliedFor(rows[k], id)
    ensures AppliedEventId(rows, id) == None
  {
    if rows != [] {
      NoneApplied(rows[..|rows| - 1], id);
    }
  }

  /** The receipts a turn leaves, and the attempt it reports. */
  function TurnReceipts(before: seq<ReceiptRow>, added: seq<ReceiptRow>, id: string, provider: bool)
    : seq<ReceiptRow>
  {
    if provider then MarkApplied(before + added, id) else before + added
  }

  /**
   A provider turn marks exactly one of its own receipts, when one of them is ok,
   and reports that receipt's event id; any other turn marks and reports none.
   */
  lemma TurnMarksItsOwn(c: Config, before: seq<ReceiptRow>, added: seq<ReceiptRow>, player: string,
                        first: nat, turn: nat, provider: bool)
    returns (at: nat)
    requires Dated(c, before, first, turn)
    requires forall k | 0 <= k < |added| ::
               OfTurn(c, added[k], turn) && added[k].actionApplied == JBool(false)
               && added[k].activePlayer == JStr(player)
    ensures var id := LogicalId(c, player, turn);
            var all := before + added;
            var after := TurnReceipts(before, added, id, provider);
            && |before| <= at <= |all|
            && (at < |all| ==> provider && all[at].outcome == OK
                               && after == all[at := all[at].(actionApplied := JBool(true))]
                               && all[at].eventId.JStr?
                               && AppliedEventId(after, id) == Some(all[at].eventId.s))
            && (at == |all| ==> after == all && AppliedEventId(after, id) == None)
            && (provider ==> (at < |all| <==> HasOk(all, id)))
  {
    var id := LogicalId(c, player, turn);
    var all := before + added;
    forall k | 0 <= k < |before| ensures !OkFor(all[k], id) {
      assert all[k] == before[k];
      assert OfSomeTurn(c, before[k], first, turn);
      var t: nat :| first <= t < turn && OfTurn(c, before[k], t);
      if OkFor(all[k], id) {
        LogicalIdsDiffer(c, before[k].activePlayer.s, t, player, turn);
      }
    }
    at := |all|;
    if provider {
      at := MarkAppliedTouchesTheLastOkAttempt(all, id);
    }
    var after := TurnReceipts(before, added, id, provider);
    if at < |all| {
      assert AppliedFor(after[at], id);
      AppliedEventIdIsTheMarkedOne(after, id, at);
    } else {
      forall k | 0 <= k < |after| ensures !AppliedFor(after[k], id) {
        if k >= |before| {
          assert after[k] == added[k - |before|];
        }
      }
      NoneApplied(after, id);
    }
  }

  // ----- the invariant of a valid run -----

  ghost predicate Joined(c: Config, m: Match, first: nat, log: seq<Move>) {
    && |log| == |m.trace| && |m.replay| == |log| + 1
    && m.replay[0].seat == JNull
    && (forall i | 0 <= i < |log| ::
          OfTrace(CanonRow(View(m.trace[i], Public))) == RowOf(c, first + i, log[i]))
    && (forall i | 0 <= i < |log| :: OfReplay(m.replay[i + 1]) == RowOf(c, first + i, log[i]))
    && |m.history| == |log|
    && (forall i | 0 <= i < |log| :: m.history[i].turn == first + i && m.history[i].player == log[i].player)
  }

  ghost predicate Counted(c: Config, m: Match, log: seq<Move>) {
    && (forall i | 0 <= i < |log| ::
          log[i].player != "" && (log[i].provider <==> log[i].player in c.providerSeats))
    && (forall p :: m.logicalActions[p] == CountMoves(log, p))
    && (forall p :: m.providerActions[p] == CountApplied(log, p))
  }

  ghost predicate Accounted(c: Config, m: Match, first: nat, log: seq<Move>) {
    && Dated(c, m.receipts, first, first + |log|) && EventsDiffer(m.receipts)
    && KnownEvents(m.receipts, m.eventIds) && Corresponds(c, m.receipts, first, log)
    && Complete(c, m.receipts, first, log)
  }

  ghost predicate Ledgered(c: Config, m: Match, first: nat, log: seq<Move>) {
    && m.state.turn == JInt(first + |log|)
    && Joined(c, m, first, log) && Counted(c, m, log) && Accounted(c, m, first, log)
  }

  lemma MoveRows(env: Env, arena: Arena, c: Config, before: State, next: State, action: Json,
                 player: string, turn: nat, provider: bool, attempt: Option<string>)
    requires before.turn == JInt(turn) && before.activePlayer == JStr(player)
    ensures var provenance := if provider then ProviderAction else LocalAction;
            var id := LogicalId(c, player, turn);
            var v := Move(player, provider, attempt);
            && OfTrace(CanonRow(View(MakeTrace(env.hash, arena, before, next, action, "action",
                                               Some(provenance), Some(id), attempt), Public)))
               == RowOf(c, turn, v)
            && OfReplay(MakeReplay(env.hash, arena, next, action, before.activePlayer,
                                   Some(provenance), Some(id), attempt)) == RowOf(c, turn, v)
  {
  }

  /** Adding a turn's receipts, with at most one of them marked, keeps the correspondence. */
  lemma AccountsGrow(c: Config, before: seq<ReceiptRow>, added: seq<ReceiptRow>, ids: set<string>,
                     newIds: set<string>, first: nat, log: seq<Move>, player: string,
                     provider: bool)
    returns (attempt: Option<string>)
    requires var turn := first + |log|;
             && Dated(c, before, first, turn) && EventsDiffer(before) && KnownEvents(before, ids)
             && Corresponds(c, before, first, log) && Complete(c, before, first, log)
             && EventsDiffer(added) && KnownEvents(added, newIds)
             && (forall k | 0 <= k < |added| ::
                   OfTurn(c, added[k], turn) && added[k].actionApplied == JBool(false)
                   && added[k].activePlayer == JStr(player) && added[k].eventId.s !in ids)
    ensures var id := LogicalId(c, player, first + |log|);
            var after := TurnReceipts(before, added, id, provider);
            var log' := log + [Move(player, provider, attempt)];
            && attempt == AppliedEventId(after, id)
            && Dated(c, after, first, first + |log'|) && EventsDiffer(after)
            && KnownEvents(after, ids + newIds) && Corresponds(c, after, first, log')
            && Complete(c, after, first, log')
  {
    hide Dated, Corresponds, Supports, OfTurn, EventsDiffer, TurnReceipts, LogicalId, Complete, HasOk;
    var turn := first + |log|;
    var id := LogicalId(c, player, turn);
    var at := TurnMarksItsOwn(c, before, added, player, first, turn, provider);
    var after := TurnReceipts(before, added, id, provider);
    attempt := AppliedEventId(after, id);
    var v := Move(player, provider, attempt);
    EventsDifferJoin(before, added, ids);
    MarkingShape(before, added, after, at, ids, newIds);
    DatedGrows(c, before, added, after, first, turn);
    SameOks(before + added, after, id);
    if at < |after| {
      MarkedSupports(c, added[at - |before|], after[at], turn, v);
    }
    ForwardGrows(c, before, after, first, log, v, at);
    BackwardGrows(c, before, added, after, first, log, v, at);
    JoinGrowth(c, after, first, log + [v]);
    CompleteGrows(c, before, added, after, first, log, v);
  }

  lemma SameOks(a: seq<ReceiptRow>, b: seq<ReceiptRow>, id: string)
    requires |a| == |b| && forall k | 0 <= k < |a| :: SameButMark(a[k], b[k])
    ensures HasOk(a, id) <==> HasOk(b, id)
  {
    forall k | 0 <= k < |a| ensures OkFor(a[k], id) <==> OkFor(b[k], id) {
      assert SameButMark(a[k], b[k]);
    }
  }

  /** Receipts of a later turn never answer an earlier logical action. */
  lemma OksStay(c: Config, before: seq<ReceiptRow>, added: seq<ReceiptRow>, player: string, t: nat, turn: nat)
    requires t < turn && forall k | 0 <= k < |added| :: OfTurn(c, added[k], turn)
    ensures HasOk(before + added, LogicalId(c, player, t)) <==> HasOk(before, LogicalId(c, player, t))
  {
    var id := LogicalId(c, player, t);
    forall k | 0 <= k < |added| ensures !OkFor(added[k], id) {
      if OkFor(added[k], id) {
        LogicalIdsDiffer(c, added[k].activePlayer.s, turn, player, t);
      }
    }
    hide OkFor;
    if HasOk(before, id) {
      var k :| 0 <= k < |before| && OkFor(before[k], id);
      assert OkFor((before + added)[k], id);
    }
    if HasOk(before + added, id) {
      var k :| 0 <= k < |before + added| && OkFor((before + added)[k], id);
      assert k < |before| ==> OkFor(before[k], id);
      assert k >= |before| ==> OkFor(added[k - |before|], id);
    }
  }

  lemma CompleteGrows(c: Config, before: seq<ReceiptRow>, added: seq<ReceiptRow>, after: seq<ReceiptRow>,
                      first: nat, log: seq<Move>, v: Move)
    requires Complete(c, before, first, log)
    requires forall k | 0 <= k < |added| :: OfTurn(c, added[k], first + |log|)
    requires |after| == |before + added| && forall k | 0 <= k < |after| :: SameButMark((before + added)[k], after[k])
    requires CompleteAt(c, after, first + |log|, v)
    ensures Complete(c, after, first, log + [v])
  {
    hide OfTurn, LogicalId, SameButMark, HasOk;
    var log' := log + [v];
    forall i: nat | i < |log'| ensures CompleteAt(c, after, first + i, log'[i]) {
      if i < |log| {
        assert CompleteAt(c, before, first + i, log[i]);
        OksStay(c, before, added, log[i].player, first + i, first + |log|);
        SameOks(before + added, after, LogicalId(c, log[i].player, first + i));
      }
    }
  }

  lemma JoinGrowth(c: Config, after: seq<ReceiptRow>, first: nat, log: seq<Move>)
    requires forall i | 0 <= i < |log| && log[i].attempt.Some? ::
               Supported(c, after, first + i, log[i])
    requires forall k | 0 <= k < |after| && after[k].actionApplied == JBool(true) ::
               Explained(c, after[k], first, log)
    ensures Corresponds(c, after, first, log)
  {
  }

  lemma MarkedSupports(c: Config, was: ReceiptRow, r: ReceiptRow, turn: nat, v: Move)
    requires OfTurn(c, was, turn) && was.activePlayer == JStr(v.player)
    requires SameButMark(was, r) && r.actionApplied == JBool(true) && r.outcome == OK
    requires v.provider && r.eventId.JStr? && v.attempt == Some(r.eventId.s)
    ensures Supports(c, r, turn, v)
  {
  }

  /** Marking at most one of the added rows leaves everything but that mark in place. */
  lemma MarkingShape(before: seq<ReceiptRow>, added: seq<ReceiptRow>, after: seq<ReceiptRow>,
                     at: nat, ids: set<string>, newIds: set<string>)
    requires |before| <= at <= |before + added|
    requires var all := before + added;
             after == if at < |all| then all[at := all[at].(actionApplied := JBool(true))] else all
    requires EventsDiffer(before + added)
    requires KnownEvents(before, ids) && KnownEvents(added, newIds)
    ensures |after| == |before + added| && after[..|before|] == before
    ensures forall k | 0 <= k < |after| :: SameButMark((before + added)[k], after[k])
    ensures forall k | |before| <= k < |after| && k != at :: after[k] == added[k - |before|]
    ensures at < |after| ==> SameButMark(added[at - |before|], after[at])
                             && after[at].actionApplied == JBool(true)
    ensures EventsDiffer(after) && KnownEvents(after, ids + newIds)
  {
    var all := before + added;
    assert forall k | 0 <= k < |all| :: after[k].eventId == all[k].eventId;
  }

  /** The marked receipt changes in nothing but its mark. */
  predicate SameButMark(a: ReceiptRow, b: ReceiptRow) {
    a.(actionApplied := b.actionApplied) == b
  }

  lemma DatedGrows(c: Config, before: seq<ReceiptRow>, added: seq<ReceiptRow>,
                   after: seq<ReceiptRow>, first: nat, turn: nat)
    requires Dated(c, before, first, turn) && first <= turn
    requires forall k | 0 <= k < |added| :: OfTurn(c, added[k], turn)
    requires |after| == |before + added|
    requires forall k | 0 <= k < |after| :: SameButMark((before + added)[k], after[k])
    ensures Dated(c, after, first, turn + 1)
  {
    forall k | 0 <= k < |after| ensures OfSomeTurn(c, after[k], first, turn + 1) {
      assert SameButMark((before + added)[k], after[k]);
      if k < |before| {
        assert OfSomeTurn(c, before[k], first, turn);
        var t: nat :| first <= t < turn && OfTurn(c, before[k], t);
        assert OfTurn(c, after[k], t);
      } else {
        assert OfTurn(c, added[k - |before|], turn);
        assert OfTurn(c, after[k], turn);
      }
    }
  }

  lemma ForwardGrows(c: Config, before: seq<ReceiptRow>, after: seq<ReceiptRow>, first: nat,
                     log: seq<Move>, v: Move, at: nat)
    requires Corresponds(c, before, first, log)
    requires |before| <= |after| && after[..|before|] == before
    requires v.attempt.Some? ==> at < |after| && Supports(c, after[at], first + |log|, v)
    ensures var log' := log + [v];
            forall i | 0 <= i < |log'| && log'[i].attempt.Some? ::
              Supported(c, after, first + i, log'[i])
  {
    hide Supports;
    var log' := log + [v];
    forall i | 0 <= i < |log'| && log'[i].attempt.Some?
      ensures Supported(c, after, first + i, log'[i])
    {
      if i < |log| {
        assert log'[i] == log[i];
        assert Supported(c, before, first + i, log[i]);
        var k :| 0 <= k < |before| && Supports(c, before[k], first + i, log[i]);
        assert after[k] == after[..|before|][k];
      }
    }
  }

  lemma BackwardGrows(c: Config, before: seq<ReceiptRow>, added: seq<ReceiptRow>,
                      after: seq<ReceiptRow>, first: nat, log: seq<Move>, v: Move, at: nat)
    requires Corresponds(c, before, first, log)
    requires |after| == |before + added| && after[..|before|] == before
    requires forall k | 0 <= k < |added| :: added[k].actionApplied == JBool(false)
    requires forall k | |before| <= k < |after| && k != at :: after[k] == added[k - |before|]
    requires |before| <= at < |after| ==> Supports(c, after[at], first + |log|, v)
    ensures forall k | 0 <= k < |after| && after[k].actionApplied == JBool(true) ::
              Explained(c, after[k], first, log + [v])
  {
    hide Supports;
    var log' := log + [v];
    forall k | 0 <= k < |after| && after[k].actionApplied == JBool(true)
      ensures Explained(c, after[k], first, log')
    {
      if k < |before| {
        assert after[k] == after[..|before|][k];
        assert Explained(c, before[k], first, log);
        var i :| 0 <= i < |log| && Supports(c, before[k], first + i, log[i]);
        assert log'[i] == log[i];
      } else {
        assert k == at;
        assert log'[|log|] == v;
        assert Supports(c, after[k], first + |log|, log'[|log|]);
      }
    }
  }

  /** Event ids are never empty. */
  ghost predicate EventIdsNamed(env: Env) {
    forall id, n :: env.eventId(id, n) != ""
  }

  lemma CountsGrow(c: Config, m: Match, after: Match, log: seq<Move>, v: Move)
    requires Counted(c, m, log)
    requires v.player != "" && (v.provider <==> v.player in c.providerSeats)
    requires after.logicalActions == m.logicalActions + multiset{v.player}
    requires after.providerActions
             == if v.provider && v.attempt.Some? then m.providerActions + multiset{v.player}
                else m.providerActions
    ensures Counted(c, after, log + [v])
  {
    var log' := log + [v];
    assert log'[..|log|] == log;
  }

  lemma JoinedGrows(c: Config, m: Match, after: Match, first: nat, log: seq<Move>, v: Move,
                    e: TraceEvent, r: ReplayRow, h: HistoryEntry)
    requires Joined(c, m, first, log)
    requires after.history == m.history + [h] && h.turn == first + |log| && h.player == v.player
    requires after.trace == m.trace + [e] && after.replay == m.replay + [r]
    requires OfTrace(CanonRow(View(e, Public))) == RowOf(c, first + |log|, v)
    requires OfReplay(r) == RowOf(c, first + |log|, v)
    ensures Joined(c, after, first, log + [v])
  {
    hide View, CanonRow, RowOf;
  }

  /** A completed valid turn extends the ledger by exactly its own move. */
  lemma MovedStaysLedgered(env: Env, arena: Arena, c: Config, legal: seq<Json>, m: Match,
                           reply: Reply, after: Match, choice: Choice, next: State, first: nat,
                           log: seq<Move>)
    returns (v: Move)
    requires EventIdsNamed(env)
    requires Moved(env, arena, c, legal, m, reply, after, choice, next)
    requires next.turn == JInt(m.state.turn.i + 1)
    requires Ledgered(c, m, first, log)
    requires choice.provenance == OwnProvenance(c, m.state.activePlayer.s)
    ensures Ledgered(c, after, first, log + [v])
  {
    hide Joined, Counted, Dated, Corresponds, EventsDiffer, MakeTrace, MakeReplay, LogicalId,
         MarkApplied, AppliedEventId;
    var player := m.state.activePlayer.s;
    var turn := first + |log|;
    var provider := player in c.providerSeats;
    var ctx := Context(env, c, m);
    var added := Enriched(ctx, reply.receipts);
    EnrichedRowsOfTurn(env, c, m, turn, reply.receipts);
    var attempt := AccountsGrow(c, m.receipts, added, m.eventIds,
                                EventIds(ctx, |reply.receipts|), first, log, player, provider);
    v := Move(player, provider, attempt);
    var id := LogicalId(c, player, turn);
    var e := MakeTrace(env.hash, arena, m.state, next, choice.action, "action",
                       Some(choice.provenance), Some(id), attempt);
    var r := MakeReplay(env.hash, arena, next, choice.action, m.state.activePlayer,
                        Some(choice.provenance), Some(id), attempt);
    assert after.receipts == TurnReceipts(m.receipts, added, id, provider);
    MoveRows(env, arena, c, m.state, next, choice.action, player, turn, provider, attempt);
    JoinedGrows(c, m, after, first, log, v, e, r, after.history[|m.history|]);
    CountsGrow(c, m, after, log, v);
  }
}

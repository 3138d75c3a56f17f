/**
 Provider attempt receipts: what the runner adds to an agent's ledger, which
 ledgers it refuses, and how it marks the attempt whose action was applied.
 */
module Receipts {
  import opened Options
  import opened Json

  /** A receipt as an agent reports it. `None` is an absent key. */
  datatype Receipt = Receipt(
    attemptIndex: Option<Json>, attempt: Option<Json>, attemptKind: Json, outcome: Json,
    parentAttemptId: Json, provider: Json, model: Json, lockedModelId: Json,
    identitySource: Json)

  /** A receipt row as it is written, and as a reconciler reads it with `.get`. */
  datatype ReceiptRow = ReceiptRow(
    eventId: Json, logicalActionId: Json, seatId: Json, activePlayer: Json, caseId: Json,
    attemptIndex: Json, attemptKind: Json, parentAttemptId: Json, outcome: Json, status: Json,
    actionApplied: Json, caseValid: Json, provider: Json, model: Json, lockedModelId: Json,
    identitySource: Json)

  const OK: Json := JStr("ok")

  /** The identity of the turn a ledger belongs to. `eventId` hashes the attempt index in. */
  datatype TurnContext = TurnContext(
    logicalActionId: string, player: string, caseId: Json, caseAttempt: nat,
    eventId: int -> string)

  /** `receipt.get("attempt_index", receipt.get("attempt", fallback))`. */
  function RawIndex(r: Receipt, fallback: nat): Json {
    if r.attemptIndex.Some? then r.attemptIndex.value
    else if r.attempt.Some? then r.attempt.value
    else JInt(fallback)
  }

  predicate PositiveInt(j: Json) {
    j.JInt? && j.i >= 1
  }

  function AttemptKind(r: Receipt, caseAttempt: nat, index: int): Json {
    var kind := if Truthy(r.attemptKind) then r.attemptKind else JStr("primary");
    if caseAttempt > 1 && index == 1 && kind == JStr("primary") then JStr("case_retry") else kind
  }

  function EnrichedRow(c: TurnContext, r: Receipt, index: int, parent: Json): ReceiptRow {
    ReceiptRow(
      JStr(c.eventId(index)), JStr(c.logicalActionId), JStr(c.player), JStr(c.player), c.caseId,
      JInt(index), AttemptKind(r, c.caseAttempt, index),
      if Truthy(r.parentAttemptId) then r.parentAttemptId else parent,
      r.outcome, JStr(if r.outcome == OK then "completed" else "failed"),
      JBool(false), JBool(false), r.provider, r.model, r.lockedModelId, r.identitySource)
  }

  /** The parent link of the k-th attempt: the event before it, if any. */
  function ParentOf(c: TurnContext, k: nat): Json {
    if k == 0 then JNull else JStr(c.eventId(k))
  }

  /** The event id of the attempt at position k, whose index is k + 1. */
  function EventAt(c: TurnContext, k: nat): string {
    c.eventId(k + 1)
  }

  /** A ledger the runner takes: indexes 1, 2, ... in order, and event ids never seen before. */
  predicate GapFree(c: TurnContext, receipts: seq<Receipt>, seen: set<string>) {
    && (forall k | 0 <= k < |receipts| :: RawIndex(receipts[k], k + 1) == JInt(k + 1))
    && (forall k | 0 <= k < |receipts| :: EventAt(c, k) !in seen)
    && (forall j, k | 0 <= j < k < |receipts| :: EventAt(c, j) != EventAt(c, k))
  }

  function Enriched(c: TurnContext, receipts: seq<Receipt>): (rows: seq<ReceiptRow>)
    ensures |rows| == |receipts|
  {
    seq(|receipts|, k requires 0 <= k < |receipts| =>
      EnrichedRow(c, receipts[k], k + 1, ParentOf(c, k)))
  }

  function EventIds(c: TurnContext, n: nat): set<string> {
    set k | 0 <= k < n :: EventAt(c, k)
  }

  /**
   `_enrich_attempt_receipts`. It raises while reading an index that is not a
   positive integer or meeting an event id twice, and at the end for a gap;
   it accepts exactly the gap-free ledgers.
   */
  method EnrichAttemptReceipts(c: TurnContext, receipts: seq<Receipt>, seen: set<string>)
    returns (rows: Option<seq<ReceiptRow>>, seen': set<string>)
    ensures rows.Some? <==> GapFree(c, receipts, seen)
    ensures rows.Some? ==> rows.value == Enriched(c, receipts)
    ensures rows.Some? ==> seen' == seen + EventIds(c, |receipts|)
  {
    var raised, indexes, enriched;
    raised, indexes, enriched, seen' := ReadLedger(c, receipts, seen);
    if GapFree(c, receipts, seen) {
      GapFreeIsReadInOrder(c, receipts, seen, |receipts|);
      assert receipts[..|receipts|] == receipts;
    }
    if raised {
      return None, seen';
    }
    if !Consecutive(indexes) {
      return None, seen';
    }
    ReadInOrderIsGapFree(c, receipts, seen, |receipts|);
    assert receipts[..|receipts|] == receipts;
    return Some(enriched), seen';
  }

  /** What the loop has done after n receipts, unless it raised before. */
  datatype Ledger = Ledger(indexes: seq<int>, rows: seq<ReceiptRow>, seen: set<string>, parent: Json)

  function ReadTo(c: TurnContext, receipts: seq<Receipt>, seen: set<string>, n: nat): Option<Ledger>
    requires n <= |receipts|
  {
    if n == 0 then Some(Ledger([], [], seen, JNull))
    else
      var before := ReadTo(c, receipts, seen, n - 1);
      var raw := RawIndex(receipts[n - 1], n);
      if before == None || !PositiveInt(raw) || c.eventId(raw.i) in before.value.seen then None
      else
        var l := before.value;
        Some(Ledger(l.indexes + [raw.i],
                    l.rows + [EnrichedRow(c, receipts[n - 1], raw.i, l.parent)],
                    l.seen + {c.eventId(raw.i)}, JStr(c.eventId(raw.i))))
  }

  lemma {:induction false} RaisedStaysRaised(c: TurnContext, receipts: seq<Receipt>,
                                             seen: set<string>, m: nat, n: nat)
    requires m <= n <= |receipts| && ReadTo(c, receipts, seen, m) == None
    ensures ReadTo(c, receipts, seen, n) == None
  {
    if m < n {
      RaisedStaysRaised(c, receipts, seen, m, n - 1);
    }
  }

  method ReadLedger(c: TurnContext, receipts: seq<Receipt>, seen: set<string>)
    returns (raised: bool, indexes: seq<int>, enriched: seq<ReceiptRow>, seen': set<string>)
    ensures var l := ReadTo(c, receipts, seen, |receipts|);
            if raised then l == None
            else l.Some? && l.value.indexes == indexes && l.value.rows == enriched
                 && l.value.seen == seen'
  {
    raised, indexes, enriched, seen' := false, [], [], seen;
    var parent := JNull;
    for i := 0 to |receipts|
      invariant ReadTo(c, receipts, seen, i) == Some(Ledger(indexes, enriched, seen', parent))
    {
      var raw := RawIndex(receipts[i], i + 1);
      if !PositiveInt(raw) {
        RaisedStaysRaised(c, receipts, seen, i + 1, |receipts|);
        return true, [], [], seen';
      }
      var id := c.eventId(raw.i);
      if id in seen' {
        RaisedStaysRaised(c, receipts, seen, i + 1, |receipts|);
        return true, [], [], seen';
      }
      seen' := seen' + {id};
      enriched := enriched + [EnrichedRow(c, receipts[i], raw.i, parent)];
      indexes := indexes + [raw.i];
      parent := JStr(id);
    }
  }

  /** `indexes == list(range(1, len(indexes) + 1))`. */
  predicate Consecutive(indexes: seq<int>) {
    forall k | 0 <= k < |indexes| :: indexes[k] == k + 1
  }

  /** While the indexes read so far are 1, .., n the loop has built exactly the expected rows. */
  predicate InOrder(c: TurnContext, receipts: seq<Receipt>, seen: set<string>, n: nat, l: Ledger)
    requires n <= |receipts|
  {
    && l.indexes == seq(n, k => k + 1)
    && l.rows == Enriched(c, receipts[..n])
    && l.seen == seen + EventIds(c, n)
    && l.parent == ParentOf(c, n)
  }

  lemma {:induction false} GapFreeIsReadInOrder(c: TurnContext, receipts: seq<Receipt>,
                                                seen: set<string>, n: nat)
    requires n <= |receipts| && GapFree(c, receipts, seen)
    ensures ReadTo(c, receipts, seen, n).Some?
            && InOrder(c, receipts, seen, n, ReadTo(c, receipts, seen, n).value)
  {
    hide EnrichedRow, Enriched, EventIds, ParentOf;
    if n > 0 {
      GapFreeIsReadInOrder(c, receipts, seen, n - 1);
      assert RawIndex(receipts[n - 1], n) == JInt(n);
      assert c.eventId(n) == EventAt(c, n - 1);
      OneMoreAttempt(c, receipts, n);
      NewEventIsFresh(c, receipts, seen, n);
      assert seq(n, k => k + 1) == seq(n - 1, k => k + 1) + [n];
    } else {
      NoAttempts(c, receipts);
    }
  }

  lemma NoAttempts(c: TurnContext, receipts: seq<Receipt>)
    ensures Enriched(c, receipts[..0]) == [] && EventIds(c, 0) == {} && ParentOf(c, 0) == JNull
  {
  }

  lemma OneMoreAttempt(c: TurnContext, receipts: seq<Receipt>, n: nat)
    requires 0 < n <= |receipts|
    ensures Enriched(c, receipts[..n])
            == Enriched(c, receipts[..n - 1]) + [EnrichedRow(c, receipts[n - 1], n, ParentOf(c, n - 1))]
    ensures EventIds(c, n) == EventIds(c, n - 1) + {EventAt(c, n - 1)}
    ensures ParentOf(c, n) == JStr(c.eventId(n))
  {
    hide EnrichedRow;
  }

  lemma NewEventIsFresh(c: TurnContext, receipts: seq<Receipt>, seen: set<string>, n: nat)
    requires 0 < n <= |receipts| && GapFree(c, receipts, seen)
    ensures EventAt(c, n - 1) !in seen + EventIds(c, n - 1)
  {
  }

  /** The final check `indexes == [1, .., n]` is what separates a gap-free ledger. */
  lemma {:induction false} ReadInOrderIsGapFree(c: TurnContext, receipts: seq<Receipt>,
                                                seen: set<string>, n: nat)
    requires n <= |receipts|
    requires ReadTo(c, receipts, seen, n).Some?
    requires Consecutive(ReadTo(c, receipts, seen, n).value.indexes)
    ensures |ReadTo(c, receipts, seen, n).value.indexes| == n
    ensures ReadTo(c, receipts, seen, n).value.seen == seen + EventIds(c, n)
    ensures GapFree(c, receipts[..n], seen)
  {
    if n > 0 {
      var l, before := ReadTo(c, receipts, seen, n).value, ReadTo(c, receipts, seen, n - 1).value;
      assert before.indexes == l.indexes[..|l.indexes| - 1];
      ReadInOrderIsGapFree(c, receipts, seen, n - 1);
      assert l.indexes[n - 1] == n;
      assert c.eventId(n) == EventAt(c, n - 1);
      assert EventIds(c, n) == EventIds(c, n - 1) + {EventAt(c, n - 1)};
      assert receipts[..n][..n - 1] == receipts[..n - 1];
      GapFreeExtends(c, receipts[..n], seen);
    }
  }

  lemma GapFreeExtends(c: TurnContext, receipts: seq<Receipt>, seen: set<string>)
    requires receipts != []
    requires GapFree(c, receipts[..|receipts| - 1], seen)
    requires RawIndex(receipts[|receipts| - 1], |receipts|) == JInt(|receipts|)
    requires EventAt(c, |receipts| - 1) !in seen + EventIds(c, |receipts| - 1)
    ensures GapFree(c, receipts, seen)
  {
    var n := |receipts| - 1;
    forall k | 0 <= k < |receipts| ensures RawIndex(receipts[k], k + 1) == JInt(k + 1) {
      if k < n {
        assert receipts[k] == receipts[..n][k];
      }
    }
  }

  predicate OkFor(row: ReceiptRow, logicalActionId: string) {
    row.logicalActionId == JStr(logicalActionId) && row.outcome == OK
  }

  predicate AppliedFor(row: ReceiptRow, logicalActionId: string) {
    OkFor(row, logicalActionId) && row.actionApplied == JBool(true) && row.eventId.JStr?
  }

  /** `_mark_successful_attempt_applied`, on the list it changes in place. */
  function MarkApplied(rows: seq<ReceiptRow>, id: string): (marked: seq<ReceiptRow>)
    ensures |marked| == |rows|
  {
    if rows == [] then []
    else
      var last := |rows| - 1;
      if OkFor(rows[last], id) then rows[..last] + [rows[last].(actionApplied := JBool(true))]
      else MarkApplied(rows[..last], id) + [rows[last]]
  }

  /** `_successful_attempt_event_id`. */
  function AppliedEventId(rows: seq<ReceiptRow>, id: string): Option<string> {
    if rows == [] then None
    else
      var last := |rows| - 1;
      if AppliedFor(rows[last], id) then Some(rows[last].eventId.s)
      else AppliedEventId(rows[..last], id)
  }

  /** Marking changes one row at most: the last ok attempt of that logical action. */
  lemma {:induction false} MarkAppliedTouchesTheLastOkAttempt(rows: seq<ReceiptRow>, id: string)
    returns (at: nat)
    ensures at <= |rows|
    ensures at < |rows| ==> OkFor(rows[at], id)
                            && MarkApplied(rows, id) == rows[at := rows[at].(actionApplied := JBool(true))]
    ensures at == |rows| ==> MarkApplied(rows, id) == rows
    ensures forall k | at < k < |rows| :: !OkFor(rows[k], id)
    ensures at == |rows| ==> forall k | 0 <= k < |rows| :: !OkFor(rows[k], id)
  {
    if rows == [] {
      return 0;
    }
    var last := |rows| - 1;
    if OkFor(rows[last], id) {
      at := last;
    } else {
      at := MarkAppliedTouchesTheLastOkAttempt(rows[..last], id);
      assert rows == rows[..last] + [rows[last]];
      if at == last {
        at := |rows|;
      }
    }
  }

  /** The event id reported after marking is the marked row's own. */
  lemma {:induction false} AppliedEventIdIsTheMarkedOne(rows: seq<ReceiptRow>, id: string, at: nat)
    requires at < |rows| && AppliedFor(rows[at], id)
    requires forall k | at < k < |rows| :: !OkFor(rows[k], id)
    ensures AppliedEventId(rows, id) == Some(rows[at].eventId.s)
  {
    var last := |rows| - 1;
    if at < last {
      AppliedEventIdIsTheMarkedOne(rows[..last], id, at);
    }
  }

  /** The marking loop of the source, on a list of mutable rows. */
  method MarkSuccessfulAttemptApplied(rows: array<ReceiptRow>, id: string)
    modifies rows
    ensures rows[..] == MarkApplied(old(rows[..]), id)
  {
    var i := rows.Length;
    assert rows[..i] == rows[..];
    while i > 0
      invariant 0 <= i <= rows.Length
      invariant rows[..] == old(rows[..])
      invariant MarkApplied(rows[..], id) == MarkApplied(rows[..i], id) + rows[i..]
    {
      i := i - 1;
      assert rows[..i + 1][..i] == rows[..i];
      if OkFor(rows[i], id) {
        ghost var was := rows[..];
        rows[i] := rows[i].(actionApplied := JBool(true));
        assert rows[..] == was[..i] + [rows[i]] + was[i + 1..];
        return;
      }
      assert [rows[i]] + rows[i + 1..] == rows[i..];
    }
    assert rows[0..] == rows[..];
  }

  /** The kind an attempt is given: its own, or primary; the first primary attempt of a retried case is its retry. */
  predicate IsKind(kind: Json, own: Json, caseAttempt: nat, index: nat) {
    if !Truthy(own) || own == JStr("primary")
    then kind == JStr(if caseAttempt >= 2 && index == 1 then "case_retry" else "primary")
    else kind == own
  }

  /** Row k of a ledger that is taken, field by field. */
  lemma RowOfAnAttempt(c: TurnContext, receipts: seq<Receipt>, k: nat)
    requires k < |receipts|
    ensures var row, r := Enriched(c, receipts)[k], receipts[k];
            && row.attemptIndex == JInt(k + 1) && row.eventId == JStr(c.eventId(k + 1))
            && row.logicalActionId == JStr(c.logicalActionId)
            && row.seatId == JStr(c.player) && row.activePlayer == JStr(c.player) && row.caseId == c.caseId
            && IsKind(row.attemptKind, r.attemptKind, c.caseAttempt, k + 1)
            && (Truthy(r.parentAttemptId) ==> row.parentAttemptId == r.parentAttemptId)
            && (!Truthy(r.parentAttemptId) && k == 0 ==> row.parentAttemptId == JNull)
            && (!Truthy(r.parentAttemptId) && k > 0 ==>
                  row.parentAttemptId == Enriched(c, receipts)[k - 1].eventId)
            && row.outcome == r.outcome
            && (row.status == JStr("completed") <==> r.outcome == JStr("ok"))
            && (row.status == JStr("failed") <==> r.outcome != JStr("ok"))
            && row.actionApplied == JBool(false) && row.caseValid == JBool(false)
            && row.provider == r.provider && row.model == r.model && row.lockedModelId == r.lockedModelId
            && row.identitySource == r.identitySource
  {
    assert "completed"[0] == 'c' && "failed"[0] == 'f';
  }
}

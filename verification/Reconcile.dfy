/**
 The official reconciliation: a three-way join of the public trace, the public
 replay and the provider receipts of one artifact, for one evaluated seat. All
 three are arbitrary JSON rows.
 */
module Reconcile {
  import opened Options
  import opened Json
  import opened Events
  import opened Receipts

  /** The four keys of a trace or replay row that the join reads. */
  datatype JoinRow = JoinRow(seat: Json, provenance: Json, logicalId: Json, eventId: Json)

  function OfTrace(r: TraceRow): JoinRow {
    JoinRow(Read(r.seat), Read(r.provenance), Read(r.logicalActionId), Read(r.attemptEventId))
  }

  function OfReplay(r: ReplayRow): JoinRow {
    JoinRow(r.seat, r.provenance, r.logicalActionId, r.attemptEventId)
  }

  datatype ReconcileError =
    | ProvenanceIncomplete
    | AttemptsUnreconciled
    | CaseIneligible
    | CaseIdMismatch

  predicate IsProviderMove(r: JoinRow, player: string) {
    r.seat == JStr(player) && r.provenance == JStr("provider_action")
  }

  function ProviderMoves(rows: seq<JoinRow>, player: string): seq<JoinRow> {
    if rows == [] then []
    else
      var last := |rows| - 1;
      ProviderMoves(rows[..last], player)
      + if IsProviderMove(rows[last], player) then [rows[last]] else []
  }

  predicate NamedEvent(r: ReceiptRow) {
    r.eventId.JStr? && r.eventId.s != ""
  }

  /** `receipts_by_event`: the first receipt of each event id. */
  function ByEvent(receipts: seq<ReceiptRow>): map<string, ReceiptRow> {
    if receipts == [] then map[]
    else
      var last := |receipts| - 1;
      var before := ByEvent(receipts[..last]);
      var r := receipts[last];
      if !NamedEvent(r) || r.eventId.s in before then before else before[r.eventId.s := r]
  }

  /** Some receipt fails its contract. */
  predicate SomeInvalid(receipts: seq<ReceiptRow>, invalid: ReceiptRow -> bool) {
    receipts != []
    && (SomeInvalid(receipts[..|receipts| - 1], invalid) || invalid(receipts[|receipts| - 1]))
  }

  predicate IsUnindexed(r: ReceiptRow, before: map<string, ReceiptRow>) {
    !NamedEvent(r) || r.eventId.s in before
  }

  /** Some receipt has no usable event id, or one used before. */
  predicate SomeUnindexed(receipts: seq<ReceiptRow>) {
    receipts != []
    && var last := |receipts| - 1;
       SomeUnindexed(receipts[..last]) || IsUnindexed(receipts[last], ByEvent(receipts[..last]))
  }

  /** Some indexed receipt names another case. */
  predicate SomeOtherCase(receipts: seq<ReceiptRow>, caseId: Option<string>) {
    receipts != [] && caseId.Some?
    && var last := |receipts| - 1;
       SomeOtherCase(receipts[..last], caseId)
       || (!IsUnindexed(receipts[last], ByEvent(receipts[..last]))
           && receipts[last].caseId != JStr(caseId.value))
  }

  function SeatOf(r: ReceiptRow): Json {
    if Truthy(r.seatId) then r.seatId else r.activePlayer
  }

  predicate IsJoinable(r: JoinRow) {
    r.eventId.JStr? && r.logicalId.JStr?
  }

  /** The receipt is the completed, applied attempt of that logical action by that seat. */
  predicate Backs(receipt: ReceiptRow, logicalId: Json, player: string) {
    receipt.logicalActionId == logicalId && SeatOf(receipt) == JStr(player)
    && receipt.outcome == OK && receipt.status == JStr("completed")
    && receipt.actionApplied == JBool(true)
  }

  predicate Backed(r: JoinRow, byEvent: map<string, ReceiptRow>, player: string) {
    IsJoinable(r) && r.eventId.s in byEvent && Backs(byEvent[r.eventId.s], r.logicalId, player)
  }

  predicate CaseInvalid(r: JoinRow, byEvent: map<string, ReceiptRow>, caseId: Option<string>) {
    caseId.Some? && IsJoinable(r) && r.eventId.s in byEvent
    && byEvent[r.eventId.s].caseValid != JBool(true)
  }

  function Joinable(rows: seq<JoinRow>): seq<JoinRow> {
    if rows == [] then []
    else
      var last := |rows| - 1;
      Joinable(rows[..last]) + if IsJoinable(rows[last]) then [rows[last]] else []
  }

  /** The event ids that provider trace rows refer to, in order. */
  function Referenced(rows: seq<JoinRow>): seq<Json> {
    var joined := Joinable(rows);
    seq(|joined|, i requires 0 <= i < |joined| => joined[i].eventId)
  }

  predicate Distinct<T(==)>(xs: seq<T>) {
    forall i, j | 0 <= i < j < |xs| :: xs[i] != xs[j]
  }

  function JoinKeys(rows: seq<JoinRow>): multiset<(Json, Json)> {
    multiset(seq(|rows|, i requires 0 <= i < |rows| => (rows[i].logicalId, rows[i].eventId)))
  }

  /** The event ids of the seat's applied, successful attempts. */
  function AppliedEvents(byEvent: map<string, ReceiptRow>, player: string): set<string> {
    set e | e in byEvent && SeatOf(byEvent[e]) == JStr(player) && byEvent[e].outcome == OK
            && byEvent[e].actionApplied == JBool(true)
  }

  function ReferencedSet(rows: seq<JoinRow>): set<string> {
    set i | 0 <= i < |Referenced(rows)| && Referenced(rows)[i].JStr? :: Referenced(rows)[i].s
  }

  predicate CountsAgree(traces: seq<JoinRow>, replays: seq<JoinRow>, expected: Json) {
    expected.JInt? && |traces| == expected.i && |replays| == expected.i
  }

  predicate ProvenanceFails(traces: seq<JoinRow>, replays: seq<JoinRow>,
                            receipts: seq<ReceiptRow>, invalid: ReceiptRow -> bool,
                            player: string, expected: Json)
  {
    || !CountsAgree(traces, replays, expected)
    || SomeInvalid(receipts, invalid)
    || (exists i | 0 <= i < |traces| :: !Backed(traces[i], ByEvent(receipts), player))
    || !Distinct(Referenced(traces))
    || JoinKeys(Joinable(traces)) != JoinKeys(replays)
    || AppliedEvents(ByEvent(receipts), player) != ReferencedSet(traces)
  }

  predicate LedgerFails(traces: seq<JoinRow>, receipts: seq<ReceiptRow>,
                        invalid: ReceiptRow -> bool, player: string, caseId: Option<string>)
  {
    || SomeInvalid(receipts, invalid)
    || SomeUnindexed(receipts)
    || SomeOtherCase(receipts, caseId)
    || !Distinct(Referenced(traces))
    || AppliedEvents(ByEvent(receipts), player) != ReferencedSet(traces)
  }

  predicate CaseFails(traces: seq<JoinRow>, receipts: seq<ReceiptRow>, caseId: Option<string>) {
    exists i | 0 <= i < |traces| :: CaseInvalid(traces[i], ByEvent(receipts), caseId)
  }

  function If(c: bool, e: ReconcileError): seq<ReconcileError> {
    if c then [e] else []
  }

  /** The errors reported, in order; a list or object as a replay join key makes the count raise. */
  function Errors(trace: seq<JoinRow>, replay: seq<JoinRow>, receipts: seq<ReceiptRow>,
                  invalid: ReceiptRow -> bool, player: string, caseId: Option<string>,
                  expected: Json): Option<seq<ReconcileError>>
  {
    var traces, replays := ProviderMoves(trace, player), ProviderMoves(replay, player);
    if SomeUnhashable(replays) then None
    else
      Some(If(ProvenanceFails(traces, replays, receipts, invalid, player, expected),
              ProvenanceIncomplete)
           + If(LedgerFails(traces, receipts, invalid, player, caseId), AttemptsUnreconciled)
           + If(CaseFails(traces, receipts, caseId), CaseIneligible)
           + If(SomeOtherCase(receipts, caseId), CaseIdMismatch))
  }

  predicate UnhashableJson(j: Json) {
    j.JList? || j.JObj?
  }

  predicate SomeUnhashable(rows: seq<JoinRow>) {
    exists i | 0 <= i < |rows| :: UnhashableJson(rows[i].logicalId) || UnhashableJson(rows[i].eventId)
  }

  // ----- the imperative join -----

  method CollectProviderMoves(rows: seq<JoinRow>, player: string) returns (moves: seq<JoinRow>)
    ensures moves == ProviderMoves(rows, player)
  {
    moves := [];
    for i := 0 to |rows|
      invariant moves == ProviderMoves(rows[..i], player)
    {
      assert rows[..i + 1][..i] == rows[..i];
      if IsProviderMove(rows[i], player) {
        moves := moves + [rows[i]];
      }
    }
    assert rows[..|rows|] == rows;
  }

  method IndexReceipts(receipts: seq<ReceiptRow>, invalid: ReceiptRow -> bool,
                       caseId: Option<string>)
    returns (byEvent: map<string, ReceiptRow>, someInvalid: bool, unindexed: bool, otherCase: bool)
    ensures byEvent == ByEvent(receipts)
    ensures someInvalid == SomeInvalid(receipts, invalid)
    ensures unindexed == SomeUnindexed(receipts)
    ensures otherCase == SomeOtherCase(receipts, caseId)
  {
    byEvent, someInvalid, unindexed, otherCase := map[], false, false, false;
    for i := 0 to |receipts|
      invariant byEvent == ByEvent(receipts[..i])
      invariant someInvalid == SomeInvalid(receipts[..i], invalid)
      invariant unindexed == SomeUnindexed(receipts[..i])
      invariant otherCase == SomeOtherCase(receipts[..i], caseId)
    {
      assert receipts[..i + 1][..i] == receipts[..i];
      var r := receipts[i];
      if invalid(r) {
        someInvalid := true;
      }
      if !NamedEvent(r) || r.eventId.s in byEvent {
        unindexed := true;
      } else {
        byEvent := byEvent[r.eventId.s := r];
        if caseId.Some? && r.caseId != JStr(caseId.value) {
          otherCase := true;
        }
      }
    }
    assert receipts[..|receipts|] == receipts;
  }

  method JoinTraces(traces: seq<JoinRow>, byEvent: map<string, ReceiptRow>, player: string,
                    caseId: Option<string>)
    returns (joined: seq<JoinRow>, unbacked: bool, caseInvalid: bool)
    ensures joined == Joinable(traces)
    ensures unbacked == exists i | 0 <= i < |traces| :: !Backed(traces[i], byEvent, player)
    ensures caseInvalid == exists i | 0 <= i < |traces| :: CaseInvalid(traces[i], byEvent, caseId)
  {
    joined, unbacked, caseInvalid := [], false, false;
    for i := 0 to |traces|
      invariant joined == Joinable(traces[..i])
      invariant unbacked == exists k | 0 <= k < i :: !Backed(traces[k], byEvent, player)
      invariant caseInvalid == exists k | 0 <= k < i :: CaseInvalid(traces[k], byEvent, caseId)
    {
      assert traces[..i + 1][..i] == traces[..i];
      var t := traces[i];
      if !IsJoinable(t) {
        unbacked := true;
      } else {
        joined := joined + [t];
        if t.eventId.s !in byEvent {
          unbacked := true;
        } else {
          if !Backs(byEvent[t.eventId.s], t.logicalId, player) {
            unbacked := true;
          }
          if caseId.Some? && byEvent[t.eventId.s].caseValid != JBool(true) {
            caseInvalid := true;
          }
        }
      }
    }
    assert traces[..|traces|] == traces;
  }

  /** `_official_action_reconciliation_errors`, once the three files have been read. */
  method ReconcileOfficialActions(trace: seq<JoinRow>, replay: seq<JoinRow>,
                                  receipts: seq<ReceiptRow>, invalid: ReceiptRow -> bool,
                                  player: string, caseId: Option<string>, expected: Json)
    returns (errors: Option<seq<ReconcileError>>)
    ensures errors == Errors(trace, replay, receipts, invalid, player, caseId, expected)
  {
    hide ProviderMoves, SomeUnhashable, ByEvent, SomeInvalid, SomeUnindexed, SomeOtherCase, Backed, CaseInvalid, Joinable,
         Referenced, Distinct, JoinKeys, AppliedEvents, ReferencedSet, CountsAgree;
    var traces := CollectProviderMoves(trace, player);
    var replays := CollectProviderMoves(replay, player);
    var provenance := !CountsAgree(traces, replays, expected);
    var byEvent, someInvalid, unindexed, otherCase := IndexReceipts(receipts, invalid, caseId);
    var ledger := someInvalid || unindexed || otherCase;
    provenance := provenance || someInvalid;
    var joined, unbacked, caseInvalid := JoinTraces(traces, byEvent, player, caseId);
    provenance := provenance || unbacked;
    if !Distinct(Referenced(traces)) {
      provenance, ledger := true, true;
    }
    if SomeUnhashable(replays) {
      return None;
    }
    if JoinKeys(joined) != JoinKeys(replays) {
      provenance := true;
    }
    if AppliedEvents(byEvent, player) != ReferencedSet(traces) {
      provenance, ledger := true, true;
    }
    errors := Some(If(provenance, ProvenanceIncomplete) + If(ledger, AttemptsUnreconciled)
                   + If(caseInvalid, CaseIneligible) + If(otherCase, CaseIdMismatch));
  }

  // ----- what no errors means -----

  /** Every receipt is valid, names the case, and has an event id of its own. */
  predicate CleanLedger(receipts: seq<ReceiptRow>, invalid: ReceiptRow -> bool,
                        caseId: Option<string>)
  {
    && (forall i | 0 <= i < |receipts| :: !invalid(receipts[i]))
    && AllNamed(receipts) && EventsDiffer(receipts)
    && (caseId.Some? ==>
          forall i | 0 <= i < |receipts| :: receipts[i].caseId == JStr(caseId.value))
  }

  predicate IsAppliedOk(r: ReceiptRow, player: string) {
    SeatOf(r) == JStr(player) && r.outcome == OK && r.actionApplied == JBool(true)
  }

  /**
   `link` pairs the seat's provider trace rows one to one with its applied ok
   receipts, agreeing on event id and logical action, and every one of those
   receipts is reached.
   */
  ghost predicate PairsOneToOne(link: seq<nat>, traces: seq<JoinRow>, receipts: seq<ReceiptRow>,
                                player: string, caseId: Option<string>)
  {
    && |link| == |traces|
    && (forall i | 0 <= i < |traces| ::
          && link[i] < |receipts|
          && IsJoinable(traces[i])
          && receipts[link[i]].eventId == traces[i].eventId
          && Backs(receipts[link[i]], traces[i].logicalId, player)
          && (caseId.Some? ==> receipts[link[i]].caseValid == JBool(true)))
    && (forall i, j | 0 <= i < j < |traces| :: link[i] != link[j])
    && (forall k | 0 <= k < |receipts| && IsAppliedOk(receipts[k], player) :: k in link)
  }

  predicate AllNamed(receipts: seq<ReceiptRow>) {
    forall i | 0 <= i < |receipts| :: NamedEvent(receipts[i])
  }

  predicate EventsDiffer(receipts: seq<ReceiptRow>) {
    forall i, j | 0 <= i < j < |receipts| :: receipts[i].eventId != receipts[j].eventId
  }

  lemma {:induction false} ByEventHolds(receipts: seq<ReceiptRow>, e: string)
    requires e in ByEvent(receipts)
    ensures exists i | 0 <= i < |receipts| ::
              receipts[i].eventId == JStr(e) && ByEvent(receipts)[e] == receipts[i]
  {
    var last := |receipts| - 1;
    var before := receipts[..last];
    if e in ByEvent(before) {
      ByEventHolds(before, e);
      var i :| 0 <= i < |before| && before[i].eventId == JStr(e) && ByEvent(before)[e] == before[i];
      assert receipts[i] == before[i];
    } else {
      assert receipts[last].eventId == JStr(e);
    }
  }

  lemma {:induction false} ByEventFinds(receipts: seq<ReceiptRow>, i: nat)
    requires AllNamed(receipts) && EventsDiffer(receipts) && i < |receipts|
    ensures NamedEvent(receipts[i]) && receipts[i].eventId.s in ByEvent(receipts)
    ensures ByEvent(receipts)[receipts[i].eventId.s] == receipts[i]
  {
    var last := |receipts| - 1;
    var before := receipts[..last];
    if i < last {
      ByEventFinds(before, i);
      assert receipts[i].eventId != receipts[last].eventId;
    } else if receipts[last].eventId.s in ByEvent(before) {
      ByEventHolds(before, receipts[last].eventId.s);
    }
  }

  /** The index is complete exactly for ledgers whose event ids are named and distinct. */
  lemma {:induction false} IndexedExactlyWhenDistinct(receipts: seq<ReceiptRow>)
    ensures !SomeUnindexed(receipts) <==> AllNamed(receipts) && EventsDiffer(receipts)
  {
    hide ByEvent, NamedEvent;
    if receipts != [] {
      var last := |receipts| - 1;
      var before := receipts[..last];
      IndexedExactlyWhenDistinct(before);
      assert receipts == before + [receipts[last]];
      if AllNamed(before) && EventsDiffer(before) && NamedEvent(receipts[last]) {
        NewEventDiffers(before, receipts[last]);
      }
    }
  }

  /** An event id is missing from the index exactly when no earlier receipt carries it. */
  lemma NewEventDiffers(before: seq<ReceiptRow>, r: ReceiptRow)
    requires AllNamed(before) && EventsDiffer(before) && NamedEvent(r)
    ensures r.eventId.s !in ByEvent(before) <==> EventsDiffer(before + [r])
  {
    hide ByEvent;
    var receipts := before + [r];
    if r.eventId.s in ByEvent(before) {
      ByEventHolds(before, r.eventId.s);
      var i :| 0 <= i < |before| && before[i].eventId == r.eventId;
      assert receipts[i].eventId == receipts[|before|].eventId;
    } else {
      forall i | 0 <= i < |before| ensures receipts[i].eventId != r.eventId {
        ByEventFinds(before, i);
      }
    }
  }

  lemma {:induction false} AllJoinable(rows: seq<JoinRow>)
    requires forall i | 0 <= i < |rows| :: IsJoinable(rows[i])
    ensures Joinable(rows) == rows
  {
    if rows != [] {
      AllJoinable(rows[..|rows| - 1]);
      assert rows == rows[..|rows| - 1] + [rows[|rows| - 1]];
    }
  }

  lemma {:induction false} NoneInvalid(receipts: seq<ReceiptRow>, invalid: ReceiptRow -> bool)
    ensures !SomeInvalid(receipts, invalid)
            <==> forall i | 0 <= i < |receipts| :: !invalid(receipts[i])
  {
    if receipts != [] {
      var last := |receipts| - 1;
      NoneInvalid(receipts[..last], invalid);
      assert receipts == receipts[..last] + [receipts[last]];
    }
  }

  lemma {:induction false} NoOtherCase(receipts: seq<ReceiptRow>, caseId: string)
    requires !SomeUnindexed(receipts)
    ensures !SomeOtherCase(receipts, Some(caseId))
            <==> forall i | 0 <= i < |receipts| :: receipts[i].caseId == JStr(caseId)
  {
    hide ByEvent;
    if receipts != [] {
      var last := |receipts| - 1;
      NoOtherCase(receipts[..last], caseId);
      assert receipts == receipts[..last] + [receipts[last]];
    }
  }

  /** The receipts pass their own checks exactly when the ledger is clean. */
  lemma LedgerIsClean(receipts: seq<ReceiptRow>, invalid: ReceiptRow -> bool,
                      caseId: Option<string>)
    ensures !SomeInvalid(receipts, invalid) && !SomeUnindexed(receipts)
            && !SomeOtherCase(receipts, caseId)
            <==> CleanLedger(receipts, invalid, caseId)
  {
    NoneInvalid(receipts, invalid);
    IndexedExactlyWhenDistinct(receipts);
    if caseId.Some? && !SomeUnindexed(receipts) {
      NoOtherCase(receipts, caseId.value);
    }
    if caseId == None {
      assert !SomeOtherCase(receipts, caseId);
    }
  }

  /** Every trace row is backed, and by a receipt valid for scoring the case. */
  predicate AllBacked(traces: seq<JoinRow>, byEvent: map<string, ReceiptRow>, player: string,
                      caseId: Option<string>)
  {
    forall i | 0 <= i < |traces| ::
      Backed(traces[i], byEvent, player) && !CaseInvalid(traces[i], byEvent, caseId)
  }

  lemma NoErrorsUnfolded(trace: seq<JoinRow>, replay: seq<JoinRow>, receipts: seq<ReceiptRow>,
                         invalid: ReceiptRow -> bool, player: string, caseId: Option<string>,
                         expected: Json)
    ensures
      var traces, replays := ProviderMoves(trace, player), ProviderMoves(replay, player);
      Errors(trace, replay, receipts, invalid, player, caseId, expected) == Some([])
      <==> && CountsAgree(traces, replays, expected)
           && CleanLedger(receipts, invalid, caseId)
           && AllBacked(traces, ByEvent(receipts), player, caseId)
           && Distinct(Referenced(traces))
           && JoinKeys(traces) == JoinKeys(replays)
           && AppliedEvents(ByEvent(receipts), player) == ReferencedSet(traces)
  {
    LedgerIsClean(receipts, invalid, caseId);
    var traces, replays := ProviderMoves(trace, player), ProviderMoves(replay, player);
    if AllBacked(traces, ByEvent(receipts), player, caseId) {
      AllJoinable(traces);
      if JoinKeys(traces) == JoinKeys(replays) {
        StringKeysAreHashable(traces, replays);
      }
    }
    if Errors(trace, replay, receipts, invalid, player, caseId, expected) == Some([]) {
      assert !ProvenanceFails(traces, replays, receipts, invalid, player, expected);
      assert !CaseFails(traces, receipts, caseId);
      assert AllBacked(traces, ByEvent(receipts), player, caseId);
    }
  }

  lemma StringKeysAreHashable(traces: seq<JoinRow>, replays: seq<JoinRow>)
    requires forall i | 0 <= i < |traces| :: IsJoinable(traces[i])
    requires JoinKeys(traces) == JoinKeys(replays)
    ensures !SomeUnhashable(replays)
  {
    var a := seq(|traces|, i requires 0 <= i < |traces| => (traces[i].logicalId, traces[i].eventId));
    var b := seq(|replays|, i requires 0 <= i < |replays| =>
                              (replays[i].logicalId, replays[i].eventId));
    forall i | 0 <= i < |replays|
      ensures replays[i].logicalId.JStr? && replays[i].eventId.JStr?
    {
      assert b[i] in multiset(b);
      assert b[i] in multiset(a);
      var k :| 0 <= k < |a| && a[k] == b[i];
      assert IsJoinable(traces[k]);
    }
  }

  lemma BackedRowsPair(traces: seq<JoinRow>, receipts: seq<ReceiptRow>, player: string,
                       caseId: Option<string>)
    returns (link: seq<nat>)
    requires AllNamed(receipts) && EventsDiffer(receipts)
    requires AllBacked(traces, ByEvent(receipts), player, caseId)
    requires Distinct(Referenced(traces))
    requires AppliedEvents(ByEvent(receipts), player) == ReferencedSet(traces)
    ensures PairsOneToOne(link, traces, receipts, player, caseId)
  {
    AllJoinable(traces);
    link := LinkRows(traces, receipts, player, caseId);
    forall i, j | 0 <= i < j < |traces| ensures link[i] != link[j] {
      assert Referenced(traces)[i] != Referenced(traces)[j];
    }
    forall k | 0 <= k < |receipts| && IsAppliedOk(receipts[k], player) ensures k in link {
      ByEventFinds(receipts, k);
      var e := receipts[k].eventId.s;
      assert e in AppliedEvents(ByEvent(receipts), player);
      var i :| 0 <= i < |Referenced(traces)| && Referenced(traces)[i] == JStr(e);
      assert receipts[link[i]].eventId == receipts[k].eventId;
      assert link[i] == k;
    }
  }

  lemma {:induction false} LinkRows(traces: seq<JoinRow>, receipts: seq<ReceiptRow>, player: string,
                                    caseId: Option<string>)
    returns (link: seq<nat>)
    requires AllNamed(receipts) && EventsDiffer(receipts)
    requires AllBacked(traces, ByEvent(receipts), player, caseId)
    ensures |link| == |traces|
    ensures forall i | 0 <= i < |traces| ::
              && link[i] < |receipts| && IsJoinable(traces[i])
              && receipts[link[i]].eventId == traces[i].eventId
              && Backs(receipts[link[i]], traces[i].logicalId, player)
              && (caseId.Some? ==> receipts[link[i]].caseValid == JBool(true))
  {
    if traces == [] {
      link := [];
    } else {
      var last := |traces| - 1;
      var front := LinkRows(traces[..last], receipts, player, caseId);
      var t := traces[last];
      assert Backed(t, ByEvent(receipts), player) && !CaseInvalid(t, ByEvent(receipts), caseId);
      ByEventHolds(receipts, t.eventId.s);
      var k :| 0 <= k < |receipts| && receipts[k].eventId == JStr(t.eventId.s)
               && ByEvent(receipts)[t.eventId.s] == receipts[k];
      link := front + [k];
    }
  }

  lemma PairedRowsAreBacked(link: seq<nat>, traces: seq<JoinRow>, receipts: seq<ReceiptRow>,
                            player: string, caseId: Option<string>)
    requires AllNamed(receipts) && EventsDiffer(receipts)
    requires PairsOneToOne(link, traces, receipts, player, caseId)
    ensures AllBacked(traces, ByEvent(receipts), player, caseId)
    ensures Distinct(Referenced(traces))
    ensures AppliedEvents(ByEvent(receipts), player) == ReferencedSet(traces)
  {
    forall i | 0 <= i < |traces|
      ensures Backed(traces[i], ByEvent(receipts), player)
              && !CaseInvalid(traces[i], ByEvent(receipts), caseId)
              && traces[i].eventId.s in AppliedEvents(ByEvent(receipts), player)
    {
      ByEventFinds(receipts, link[i]);
    }
    AllJoinable(traces);
    forall i, j | 0 <= i < j < |traces|
      ensures Referenced(traces)[i] != Referenced(traces)[j]
    {
      assert receipts[link[i]].eventId != receipts[link[j]].eventId;
    }
    forall e | e in AppliedEvents(ByEvent(receipts), player) ensures e in ReferencedSet(traces) {
      ByEventHolds(receipts, e);
      var k :| 0 <= k < |receipts| && receipts[k].eventId == JStr(e)
               && ByEvent(receipts)[e] == receipts[k];
      assert IsAppliedOk(receipts[k], player);
      var i :| 0 <= i < |link| && link[i] == k;
      assert Referenced(traces)[i] == JStr(e);
    }
  }

  /**
   The reconciliation reports nothing exactly when the counts agree, the ledger is
   clean, the replay has the same join keys as the trace, and the seat's provider
   moves pair one to one with its applied ok receipts.
   */
  lemma NoErrorsExactlyWhenOneToOne(trace: seq<JoinRow>, replay: seq<JoinRow>,
      receipts: seq<ReceiptRow>, invalid: ReceiptRow -> bool, player: string,
      caseId: Option<string>, expected: Json)
    ensures
      var traces, replays := ProviderMoves(trace, player), ProviderMoves(replay, player);
      Errors(trace, replay, receipts, invalid, player, caseId, expected) == Some([])
      <==> && CountsAgree(traces, replays, expected)
           && CleanLedger(receipts, invalid, caseId)
           && JoinKeys(traces) == JoinKeys(replays)
           && exists link :: PairsOneToOne(link, traces, receipts, player, caseId)
  {
    NoErrorsUnfolded(trace, replay, receipts, invalid, player, caseId, expected);
    var traces, replays := ProviderMoves(trace, player), ProviderMoves(replay, player);
    if CleanLedger(receipts, invalid, caseId) {
      if AllBacked(traces, ByEvent(receipts), player, caseId) && Distinct(Referenced(traces))
         && AppliedEvents(ByEvent(receipts), player) == ReferencedSet(traces) {
        var link := BackedRowsPair(traces, receipts, player, caseId);
      }
      if link :| PairsOneToOne(link, traces, receipts, player, caseId) {
        PairedRowsAreBacked(link, traces, receipts, player, caseId);
      }
    }
  }

  // ----- what it does not mean -----

  predicate OneLogicalActionEach(traces: seq<JoinRow>) {
    forall i, j | 0 <= i < j < |traces| :: traces[i].logicalId != traces[j].logicalId
  }

  function DoubledRow(event: string): JoinRow {
    JoinRow(JStr("p"), JStr("provider_action"), JStr("a"), JStr(event))
  }

  function DoubledReceipt(event: string): ReceiptRow {
    ReceiptRow(JStr(event), JStr("a"), JStr("p"), JStr("p"), JStr("case"), JInt(1),
               JStr("primary"), JNull, OK, JStr("completed"), JBool(true), JBool(true),
               JNull, JNull, JNull, JNull)
  }

  lemma {:induction false} AllAreProviderMoves(rows: seq<JoinRow>, player: string)
    requires forall i | 0 <= i < |rows| :: IsProviderMove(rows[i], player)
    ensures ProviderMoves(rows, player) == rows
  {
    if rows != [] {
      AllAreProviderMoves(rows[..|rows| - 1], player);
      assert rows == rows[..|rows| - 1] + [rows[|rows| - 1]];
    }
  }

  const DOUBLED_ROWS: seq<JoinRow> := [DoubledRow("x"), DoubledRow("y")]
  const DOUBLED_RECEIPTS: seq<ReceiptRow> := [DoubledReceipt("x"), DoubledReceipt("y")]

  lemma DoubledReceiptsPair()
    ensures CleanLedger(DOUBLED_RECEIPTS, (r: ReceiptRow) => false, Some("case"))
    ensures PairsOneToOne([0, 1], DOUBLED_ROWS, DOUBLED_RECEIPTS, "p", Some("case"))
  {
    assert "x"[0] != "y"[0];
  }

  /**
   The join does not make logical actions distinct: two moves may claim the same
   one, each with its own applied receipt, and nothing is reported.
   */
  lemma OneLogicalActionMayBackTwoMoves()
    ensures Errors(DOUBLED_ROWS, DOUBLED_ROWS, DOUBLED_RECEIPTS, (r: ReceiptRow) => false, "p",
                   Some("case"), JInt(2)) == Some([])
    ensures !OneLogicalActionEach(ProviderMoves(DOUBLED_ROWS, "p"))
  {
    hide CleanLedger, PairsOneToOne, ProviderMoves, Errors;
    AllAreProviderMoves(DOUBLED_ROWS, "p");
    DoubledReceiptsPair();
    NoErrorsExactlyWhenOneToOne(DOUBLED_ROWS, DOUBLED_ROWS, DOUBLED_RECEIPTS,
                                (r: ReceiptRow) => false, "p", Some("case"), JInt(2));
    assert DOUBLED_ROWS[0].logicalId == DOUBLED_ROWS[1].logicalId;
  }

  /**
   Given no errors, every move has a logical action of its own exactly when no two
   applied ok receipts of the seat share one.
   */
  lemma DistinctActionsExactlyWhenReceiptsAre(link: seq<nat>, traces: seq<JoinRow>,
      receipts: seq<ReceiptRow>, player: string, caseId: Option<string>)
    requires PairsOneToOne(link, traces, receipts, player, caseId)
    ensures OneLogicalActionEach(traces)
            <==> forall j, k | 0 <= j < k < |receipts| && IsAppliedOk(receipts[j], player)
                               && IsAppliedOk(receipts[k], player) ::
                   receipts[j].logicalActionId != receipts[k].logicalActionId
  {
    if OneLogicalActionEach(traces) {
      forall j, k | 0 <= j < k < |receipts| && IsAppliedOk(receipts[j], player)
                    && IsAppliedOk(receipts[k], player)
        ensures receipts[j].logicalActionId != receipts[k].logicalActionId
      {
        var a :| 0 <= a < |link| && link[a] == j;
        var b :| 0 <= b < |link| && link[b] == k;
        assert traces[a].logicalId != traces[b].logicalId by {
          if a > b { assert traces[b].logicalId != traces[a].logicalId; }
        }
      }
    } else {
      var i, j :| 0 <= i < j < |traces| && traces[i].logicalId == traces[j].logicalId;
      assert link[i] != link[j];
      assert IsAppliedOk(receipts[link[i]], player) && IsAppliedOk(receipts[link[j]], player);
    }
  }
}

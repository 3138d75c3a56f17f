/**
 Which reconciliation error stands for which fault. Every fault is written out on the rows of the
 three files, without the reconciler's own index, filters or tests.
 */
module ReconcileFaults {
  import opened Options
  import opened Json
  import opened Receipts
  import opened Reconcile

  /** A row by which the seat claims a provider move. */
  predicate Claims(r: JoinRow, player: string) {
    r.seat == JStr(player) && r.provenance == JStr("provider_action")
  }

  /** A claim that can be joined, and the event it refers to. */
  ghost predicate Refers(r: JoinRow, player: string, e: string) {
    Claims(r, player) && r.logicalId.JStr? && r.eventId == JStr(e)
  }

  /** Receipt j is the first of event e. */
  ghost predicate First(receipts: seq<ReceiptRow>, e: string, j: nat) {
    e != "" && j < |receipts| && receipts[j].eventId == JStr(e)
    && forall i: nat | i < j :: receipts[i].eventId != JStr(e)
  }

  /** The receipt is of this seat; the acting player stands in for an empty seat. */
  ghost predicate OfSeat(r: ReceiptRow, player: string) {
    if Truthy(r.seatId) then r.seatId == JStr(player) else r.activePlayer == JStr(player)
  }

  ghost predicate AppliedOk(r: ReceiptRow, player: string) {
    OfSeat(r, player) && r.outcome == JStr("ok") && r.actionApplied == JBool(true)
  }

  /** Some receipt is the first of the claim's event and completed that very action. */
  ghost predicate Supported(t: JoinRow, receipts: seq<ReceiptRow>, player: string) {
    t.logicalId.JStr? && t.eventId.JStr? && exists j: nat :: Supports(t, receipts, player, j)
  }

  ghost predicate Supports(t: JoinRow, receipts: seq<ReceiptRow>, player: string, j: nat)
    requires t.eventId.JStr?
  {
    && First(receipts, t.eventId.s, j)
    && AppliedOk(receipts[j], player) && receipts[j].status == JStr("completed")
    && receipts[j].logicalActionId == t.logicalId
  }

  /** How often the seat claims this pair of logical action and event. */
  function Uses(rows: seq<JoinRow>, player: string, key: (Json, Json)): nat {
    if rows == [] then 0
    else
      var r := rows[|rows| - 1];
      Uses(rows[..|rows| - 1], player, key)
      + if Claims(r, player) && (r.logicalId, r.eventId) == key then 1 else 0
  }

  function ClaimCount(rows: seq<JoinRow>, player: string): nat {
    if rows == [] then 0
    else ClaimCount(rows[..|rows| - 1], player) + if Claims(rows[|rows| - 1], player) then 1 else 0
  }

  ghost predicate WrongCounts(trace: seq<JoinRow>, replay: seq<JoinRow>, player: string, expected: Json) {
    expected != JInt(ClaimCount(trace, player)) || expected != JInt(ClaimCount(replay, player))
  }

  ghost predicate SomeUnsupported(trace: seq<JoinRow>, receipts: seq<ReceiptRow>, player: string) {
    exists i | 0 <= i < |trace| :: Claims(trace[i], player) && !Supported(trace[i], receipts, player)
  }

  ghost predicate EventClaimedTwice(trace: seq<JoinRow>, player: string) {
    exists e, i, j :: 0 <= i < j < |trace| && Refers(trace[i], player, e) && Refers(trace[j], player, e)
  }

  /** Trace and replay claim some pair unequally often; a pair that is not text counts in the replay alone. */
  ghost predicate ClaimsDiffer(trace: seq<JoinRow>, replay: seq<JoinRow>, player: string) {
    exists key: (Json, Json) ::
      (if key.0.JStr? && key.1.JStr? then Uses(trace, player, key) else 0) != Uses(replay, player, key)
  }

  ghost predicate IsReferred(trace: seq<JoinRow>, player: string, e: string) {
    exists i | 0 <= i < |trace| :: Refers(trace[i], player, e)
  }

  ghost predicate IsApplied(receipts: seq<ReceiptRow>, player: string, e: string) {
    exists j: nat :: First(receipts, e, j) && AppliedOk(receipts[j], player)
  }

  /** Some applied successful attempt is not claimed, or some claim is not one. */
  ghost predicate AppliedButUnclaimed(trace: seq<JoinRow>, receipts: seq<ReceiptRow>, player: string) {
    exists e :: IsApplied(receipts, player, e) != IsReferred(trace, player, e)
  }

  ghost predicate Unusable(receipts: seq<ReceiptRow>, invalid: ReceiptRow -> bool) {
    exists i | 0 <= i < |receipts| :: invalid(receipts[i])
  }

  /** Receipt i has no event id, or one that an earlier receipt has. */
  ghost predicate Repeats(receipts: seq<ReceiptRow>, i: nat)
    requires i < |receipts|
  {
    !(receipts[i].eventId.JStr? && First(receipts, receipts[i].eventId.s, i))
  }

  ghost predicate UnnamedOrRepeated(receipts: seq<ReceiptRow>) {
    exists i: nat | i < |receipts| :: Repeats(receipts, i)
  }

  ghost predicate OtherCaseAt(receipts: seq<ReceiptRow>, caseId: string, i: nat)
    requires i < |receipts|
  {
    !Repeats(receipts, i) && receipts[i].caseId != JStr(caseId)
  }

  ghost predicate NamesOtherCase(receipts: seq<ReceiptRow>, caseId: Option<string>) {
    caseId.Some? && exists i: nat | i < |receipts| :: OtherCaseAt(receipts, caseId.value, i)
  }

  ghost predicate NotForScoring(r: JoinRow, receipts: seq<ReceiptRow>, player: string) {
    Claims(r, player) && r.logicalId.JStr? && r.eventId.JStr?
    && exists j: nat :: First(receipts, r.eventId.s, j) && receipts[j].caseValid != JBool(true)
  }

  ghost predicate ClaimsUnscored(trace: seq<JoinRow>, receipts: seq<ReceiptRow>, player: string,
                           caseId: Option<string>)
  {
    caseId.Some? && exists i | 0 <= i < |trace| :: NotForScoring(trace[i], receipts, player)
  }

  ghost predicate Unjoinable(r: JoinRow) {
    r.logicalId.JList? || r.logicalId.JObj? || r.eventId.JList? || r.eventId.JObj?
  }

  // ----- the reconciler's parts -----

  lemma OneFirst(receipts: seq<ReceiptRow>, e: string, j: nat, k: nat)
    requires First(receipts, e, j) && First(receipts, e, k)
    ensures j == k
  {
  }

  lemma FirstOfPrefix(receipts: seq<ReceiptRow>, n: nat, e: string, j: nat)
    requires n <= |receipts| && j < n
    ensures First(receipts[..n], e, j) <==> First(receipts, e, j)
  {
  }

  /** The index holds the first receipt of each event. */
  lemma {:induction false} IndexHoldsTheFirst(receipts: seq<ReceiptRow>, e: string)
    ensures e in ByEvent(receipts) <==> exists j: nat :: First(receipts, e, j)
    ensures e in ByEvent(receipts) ==>
              forall j: nat | First(receipts, e, j) :: ByEvent(receipts)[e] == receipts[j]
  {
    hide First;
    if receipts == [] {
      assert forall j: nat :: !First(receipts, e, j) by { NothingIsFirst(e); }
    } else {
      var last := |receipts| - 1;
      IndexHoldsTheFirst(receipts[..last], e);
      forall j: nat | j < last ensures First(receipts[..last], e, j) <==> First(receipts, e, j) {
        FirstOfPrefix(receipts, last, e, j);
      }
      LastIsFirst(receipts, e);
    }
  }

  lemma NothingIsFirst(e: string)
    ensures forall j: nat :: !First([], e, j)
  {
  }

  /** The last receipt is the first of its event exactly when nothing before it is. */
  lemma LastIsFirst(receipts: seq<ReceiptRow>, e: string)
    requires receipts != []
    ensures var last := |receipts| - 1;
            && (First(receipts, e, last) <==>
                  NamedEvent(receipts[last]) && receipts[last].eventId.s == e
                  && !exists j: nat :: First(receipts[..last], e, j))
            && (forall j: nat | First(receipts, e, j) :: j <= last)
            && (forall j: nat | First(receipts[..last], e, j) :: j < last)
            && (First(receipts, e, last) ==> forall j: nat | First(receipts, e, j) :: j == last)
  {
    var last := |receipts| - 1;
    if e != "" && exists i: nat :: i < last && receipts[i].eventId == JStr(e) {
      var i: nat :| i < last && receipts[i].eventId == JStr(e);
      var j := Earliest(receipts[..last], e, i);
    }
  }

  lemma Earliest(receipts: seq<ReceiptRow>, e: string, i: nat) returns (j: nat)
    requires e != "" && i < |receipts| && receipts[i].eventId == JStr(e)
    ensures First(receipts, e, j) && j <= i
  {
    if exists k: nat :: k < i && receipts[k].eventId == JStr(e) {
      var k: nat :| k < i && receipts[k].eventId == JStr(e);
      j := Earliest(receipts, e, k);
    } else {
      j := i;
    }
  }

  lemma {:induction false} InvalidIsUnusable(receipts: seq<ReceiptRow>, invalid: ReceiptRow -> bool)
    ensures SomeInvalid(receipts, invalid) <==> Unusable(receipts, invalid)
  {
    NoneInvalid(receipts, invalid);
  }

  lemma {:induction false} UnindexedIsRepeated(receipts: seq<ReceiptRow>)
    ensures SomeUnindexed(receipts) <==> UnnamedOrRepeated(receipts)
  {
    hide First, ByEvent;
    if receipts != [] {
      var last := |receipts| - 1;
      UnindexedIsRepeated(receipts[..last]);
      LastIsUnindexed(receipts);
      forall i: nat | i < last ensures Repeats(receipts, i) <==> Repeats(receipts[..last], i) {
        if receipts[i].eventId.JStr? { FirstOfPrefix(receipts, last, receipts[i].eventId.s, i); }
      }
      RepeatsGrow(receipts);
    }
  }

  lemma RepeatsGrow(receipts: seq<ReceiptRow>)
    requires receipts != []
    requires forall i: nat | i < |receipts| - 1 ::
               Repeats(receipts, i) <==> Repeats(receipts[..|receipts| - 1], i)
    ensures UnnamedOrRepeated(receipts)
            <==> UnnamedOrRepeated(receipts[..|receipts| - 1]) || Repeats(receipts, |receipts| - 1)
  {
    hide Repeats;
    var last := |receipts| - 1;
    if i: nat :| i < last && Repeats(receipts[..last], i) {
      assert Repeats(receipts, i);
    }
    if i: nat :| i < |receipts| && Repeats(receipts, i) {
      assert i < last ==> Repeats(receipts[..last], i);
    }
  }

  lemma LastIsUnindexed(receipts: seq<ReceiptRow>)
    requires receipts != []
    ensures IsUnindexed(receipts[|receipts| - 1], ByEvent(receipts[..|receipts| - 1]))
            <==> Repeats(receipts, |receipts| - 1)
  {
    hide First, ByEvent;
    var r := receipts[|receipts| - 1];
    if r.eventId.JStr? {
      IndexHoldsTheFirst(receipts[..|receipts| - 1], r.eventId.s);
      LastIsFirst(receipts, r.eventId.s);
    }
  }

  lemma {:induction false} OtherCaseIsNamed(receipts: seq<ReceiptRow>, caseId: string)
    ensures SomeOtherCase(receipts, Some(caseId)) <==> NamesOtherCase(receipts, Some(caseId))
  {
    hide First, ByEvent, IsUnindexed;
    if receipts != [] {
      var last := |receipts| - 1;
      OtherCaseIsNamed(receipts[..last], caseId);
      LastIsUnindexed(receipts);
      forall i: nat | i < last
        ensures OtherCaseAt(receipts, caseId, i) <==> OtherCaseAt(receipts[..last], caseId, i)
      {
        if receipts[i].eventId.JStr? { FirstOfPrefix(receipts, last, receipts[i].eventId.s, i); }
      }
      OtherCasesGrow(receipts, caseId);
    }
  }

  lemma OtherCasesGrow(receipts: seq<ReceiptRow>, caseId: string)
    requires receipts != []
    requires forall i: nat | i < |receipts| - 1 ::
               OtherCaseAt(receipts, caseId, i) <==> OtherCaseAt(receipts[..|receipts| - 1], caseId, i)
    ensures NamesOtherCase(receipts, Some(caseId))
            <==> NamesOtherCase(receipts[..|receipts| - 1], Some(caseId))
                 || OtherCaseAt(receipts, caseId, |receipts| - 1)
  {
    hide OtherCaseAt;
    var last := |receipts| - 1;
    if i: nat :| i < last && OtherCaseAt(receipts[..last], caseId, i) {
      assert OtherCaseAt(receipts, caseId, i);
    }
    if i: nat :| i < |receipts| && OtherCaseAt(receipts, caseId, i) {
      assert i < last ==> OtherCaseAt(receipts[..last], caseId, i);
    }
  }

  /** A claim is backed through the index exactly when some first receipt supports it. */
  lemma BackedIsSupported(t: JoinRow, receipts: seq<ReceiptRow>, player: string)
    ensures Backed(t, ByEvent(receipts), player) <==> Supported(t, receipts, player)
  {
    hide ByEvent;
    if t.eventId.JStr? {
      IndexHoldsTheFirst(receipts, t.eventId.s);
      if j: nat :| First(receipts, t.eventId.s, j) {
        assert Supports(t, receipts, player, j) <==> Backs(receipts[j], t.logicalId, player);
      }
    }
  }

  lemma CaseInvalidIsNotForScoring(t: JoinRow, receipts: seq<ReceiptRow>, player: string,
                                   caseId: string)
    requires Claims(t, player)
    ensures CaseInvalid(t, ByEvent(receipts), Some(caseId)) <==> NotForScoring(t, receipts, player)
  {
    hide First, ByEvent;
    if t.eventId.JStr? {
      IndexHoldsTheFirst(receipts, t.eventId.s);
    }
  }

  lemma {:induction false} MovesAreClaims(rows: seq<JoinRow>, player: string, t: JoinRow)
    ensures t in ProviderMoves(rows, player) <==> t in rows && Claims(t, player)
  {
    if rows != [] {
      MovesAreClaims(rows[..|rows| - 1], player, t);
      assert rows == rows[..|rows| - 1] + [rows[|rows| - 1]];
    }
  }

  lemma {:induction false} MovesAreCounted(rows: seq<JoinRow>, player: string)
    ensures |ProviderMoves(rows, player)| == ClaimCount(rows, player)
  {
    if rows != [] {
      MovesAreCounted(rows[..|rows| - 1], player);
    }
  }

  lemma KeysOfConcat(a: seq<JoinRow>, b: seq<JoinRow>)
    ensures JoinKeys(a + b) == JoinKeys(a) + JoinKeys(b)
  {
    var x := seq(|a|, i requires 0 <= i < |a| => (a[i].logicalId, a[i].eventId));
    var y := seq(|b|, i requires 0 <= i < |b| => (b[i].logicalId, b[i].eventId));
    assert seq(|a + b|, i requires 0 <= i < |a + b| => ((a + b)[i].logicalId, (a + b)[i].eventId))
           == x + y;
  }

  lemma JoinableConcat(rows: seq<JoinRow>, r: JoinRow)
    ensures Joinable(rows + [r]) == Joinable(rows) + if IsJoinable(r) then [r] else []
  {
    assert (rows + [r])[..|rows|] == rows;
  }

  lemma KeyOfOne(r: JoinRow, key: (Json, Json))
    ensures JoinKeys([r])[key] == if (r.logicalId, r.eventId) == key then 1 else 0
    ensures JoinKeys([])[key] == 0
  {
    assert seq(1, i requires 0 <= i < 1 => ([r][i].logicalId, [r][i].eventId)) == [(r.logicalId, r.eventId)];
  }

  lemma {:induction false} KeysAreUses(rows: seq<JoinRow>, player: string, key: (Json, Json))
    ensures JoinKeys(ProviderMoves(rows, player))[key] == Uses(rows, player, key)
    ensures JoinKeys(Joinable(ProviderMoves(rows, player)))[key]
            == if key.0.JStr? && key.1.JStr? then Uses(rows, player, key) else 0
  {
    hide JoinKeys, Joinable;
    if rows == [] {
      KeyOfOne(JoinRow(JNull, JNull, JNull, JNull), key);
      assert Joinable([]) == [] by { NothingJoinable(); }
    } else {
      var last := |rows| - 1;
      var r := rows[last];
      var moves := ProviderMoves(rows[..last], player);
      KeysAreUses(rows[..last], player, key);
      KeyOfOne(r, key);
      KeysOfConcat(moves, [r]);
      KeysOfConcat(Joinable(moves), [r]);
      JoinableConcat(moves, r);
      assert moves + [] == moves && Joinable(moves) + [] == Joinable(moves);
    }
  }

  lemma NothingJoinable()
    ensures Joinable([]) == []
  {
  }

  lemma KeysDifferExactlyWhenClaimsDo(trace: seq<JoinRow>, replay: seq<JoinRow>, player: string)
    ensures JoinKeys(Joinable(ProviderMoves(trace, player))) != JoinKeys(ProviderMoves(replay, player))
            <==> ClaimsDiffer(trace, replay, player)
  {
    hide JoinKeys, Joinable, ProviderMoves, Uses;
    var x := JoinKeys(Joinable(ProviderMoves(trace, player)));
    var y := JoinKeys(ProviderMoves(replay, player));
    forall key: (Json, Json)
      ensures x[key] == if key.0.JStr? && key.1.JStr? then Uses(trace, player, key) else 0
      ensures y[key] == Uses(replay, player, key)
    {
      KeysAreUses(trace, player, key);
      KeysAreUses(replay, player, key);
    }
    if x != y {
      assert exists key: (Json, Json) :: x[key] != y[key];
    }
  }

  // ----- the events claimed -----

  lemma ReferencedConcat(rows: seq<JoinRow>, r: JoinRow)
    ensures Referenced(rows + [r]) == Referenced(rows) + if IsJoinable(r) then [r.eventId] else []
  {
    JoinableConcat(rows, r);
  }

  lemma {:induction false} ReferencedAreReferred(rows: seq<JoinRow>, player: string, e: string)
    ensures JStr(e) in Referenced(ProviderMoves(rows, player)) <==> IsReferred(rows, player, e)
    ensures forall j | j in Referenced(ProviderMoves(rows, player)) :: j.JStr?
  {
    hide Referenced;
    if rows == [] {
      NothingReferenced();
    } else {
      var last := |rows| - 1;
      ReferencedAreReferred(rows[..last], player, e);
      ReferencedConcat(ProviderMoves(rows[..last], player), rows[last]);
      ReferredGrows(rows, player, e);
      assert ProviderMoves(rows[..last], player) + [] == ProviderMoves(rows[..last], player);
    }
  }

  lemma NothingReferenced()
    ensures Referenced([]) == []
  {
  }

  lemma ReferredGrows(rows: seq<JoinRow>, player: string, e: string)
    requires rows != []
    ensures IsReferred(rows, player, e)
            <==> IsReferred(rows[..|rows| - 1], player, e) || Refers(rows[|rows| - 1], player, e)
  {
    hide Refers;
    var last := |rows| - 1;
    if IsReferred(rows[..last], player, e) {
      var i :| 0 <= i < last && Refers(rows[..last][i], player, e);
      assert Refers(rows[i], player, e);
    }
    if IsReferred(rows, player, e) && !Refers(rows[last], player, e) {
      var i :| 0 <= i < |rows| && Refers(rows[i], player, e);
      assert Refers(rows[..last][i], player, e);
    }
  }

  lemma {:induction false} DistinctExactlyWhenNoneTwice(rows: seq<JoinRow>, player: string)
    ensures Distinct(Referenced(ProviderMoves(rows, player))) <==> !EventClaimedTwice(rows, player)
  {
    hide Referenced, Refers;
    if rows == [] {
      NothingReferenced();
    } else {
      var last := |rows| - 1;
      var r := rows[last];
      var moves := ProviderMoves(rows[..last], player);
      DistinctExactlyWhenNoneTwice(rows[..last], player);
      ReferencedConcat(moves, r);
      TwiceGrows(rows, player);
      RefersMeans(r, player);
      assert moves + [] == moves;
      if IsProviderMove(r, player) && IsJoinable(r) {
        var e := r.eventId.s;
        assert Refers(r, player, e);
        ReferencedAreReferred(rows[..last], player, e);
        DistinctExtends(Referenced(moves), r.eventId);
        assert Referenced(ProviderMoves(rows, player)) == Referenced(moves) + [JStr(e)];
      } else {
        assert Referenced(ProviderMoves(rows, player)) == Referenced(moves);
      }
    }
  }

  lemma RefersMeans(r: JoinRow, player: string)
    ensures forall e :: Refers(r, player, e) <==>
              IsProviderMove(r, player) && IsJoinable(r) && r.eventId.s == e
  {
  }

  lemma DistinctExtends(xs: seq<Json>, x: Json)
    ensures Distinct(xs + [x]) <==> Distinct(xs) && x !in xs
  {
    var all := xs + [x];
    if Distinct(all) {
      forall i, j | 0 <= i < j < |xs| ensures xs[i] != xs[j] { assert all[i] != all[j]; }
      forall i | 0 <= i < |xs| ensures xs[i] != x { assert all[i] != all[|xs|]; }
    }
  }

  lemma TwiceGrows(rows: seq<JoinRow>, player: string)
    requires rows != []
    ensures var last := |rows| - 1;
            EventClaimedTwice(rows, player)
            <==> EventClaimedTwice(rows[..last], player)
                 || exists e :: Refers(rows[last], player, e) && IsReferred(rows[..last], player, e)
  {
    hide Refers;
    var last := |rows| - 1;
    if EventClaimedTwice(rows[..last], player) {
      var e, i, j :| 0 <= i < j < last && Refers(rows[..last][i], player, e)
                     && Refers(rows[..last][j], player, e);
      assert Refers(rows[i], player, e) && Refers(rows[j], player, e);
    }
    if e :| Refers(rows[last], player, e) && IsReferred(rows[..last], player, e) {
      var i :| 0 <= i < last && Refers(rows[..last][i], player, e);
      assert Refers(rows[i], player, e);
    }
    if EventClaimedTwice(rows, player) {
      var e, i, j :| 0 <= i < j < |rows| && Refers(rows[i], player, e) && Refers(rows[j], player, e);
      assert Refers(rows[..last][i], player, e);
      if j < last { assert Refers(rows[..last][j], player, e); }
    }
  }

  lemma AppliedAreIndexed(receipts: seq<ReceiptRow>, player: string, e: string)
    ensures e in AppliedEvents(ByEvent(receipts), player) <==> IsApplied(receipts, player, e)
  {
    hide First, ByEvent;
    IndexHoldsTheFirst(receipts, e);
  }

  lemma SetsDifferExactlyWhenUnclaimed(trace: seq<JoinRow>, receipts: seq<ReceiptRow>, player: string)
    ensures AppliedEvents(ByEvent(receipts), player) != ReferencedSet(ProviderMoves(trace, player))
            <==> AppliedButUnclaimed(trace, receipts, player)
  {
    hide ByEvent, Referenced, ProviderMoves, IsApplied, IsReferred;
    var x, y := AppliedEvents(ByEvent(receipts), player), ReferencedSet(ProviderMoves(trace, player));
    forall e ensures e in x <==> IsApplied(receipts, player, e) {
      AppliedAreIndexed(receipts, player, e);
    }
    forall e ensures e in y <==> IsReferred(trace, player, e) {
      ReferencedAreReferred(trace, player, e);
      ReferencedSetHolds(ProviderMoves(trace, player), e);
    }
    if x != y {
      assert exists e :: (e in x) != (e in y);
    }
  }

  lemma ReferencedSetHolds(rows: seq<JoinRow>, e: string)
    ensures e in ReferencedSet(rows) <==> JStr(e) in Referenced(rows)
  {
    hide Referenced;
    if JStr(e) in Referenced(rows) {
      var i :| 0 <= i < |Referenced(rows)| && Referenced(rows)[i] == JStr(e);
    }
  }

  // ----- the law -----

  /** What each reported error says. */
  ghost predicate Caused(trace: seq<JoinRow>, replay: seq<JoinRow>, receipts: seq<ReceiptRow>,
                         invalid: ReceiptRow -> bool, player: string, caseId: Option<string>,
                         expected: Json, error: ReconcileError)
  {
    match error
    case ProvenanceIncomplete =>
      WrongCounts(trace, replay, player, expected) || Unusable(receipts, invalid)
      || SomeUnsupported(trace, receipts, player) || EventClaimedTwice(trace, player)
      || ClaimsDiffer(trace, replay, player) || AppliedButUnclaimed(trace, receipts, player)
    case AttemptsUnreconciled =>
      Unusable(receipts, invalid) || UnnamedOrRepeated(receipts) || NamesOtherCase(receipts, caseId)
      || EventClaimedTwice(trace, player) || AppliedButUnclaimed(trace, receipts, player)
    case CaseIneligible => ClaimsUnscored(trace, receipts, player, caseId)
    case CaseIdMismatch => NamesOtherCase(receipts, caseId)
  }

  lemma CountsAreClaims(trace: seq<JoinRow>, replay: seq<JoinRow>, player: string, expected: Json)
    ensures CountsAgree(ProviderMoves(trace, player), ProviderMoves(replay, player), expected)
            <==> !WrongCounts(trace, replay, player, expected)
  {
    MovesAreCounted(trace, player);
    MovesAreCounted(replay, player);
  }

  lemma UnbackedIsUnsupported(trace: seq<JoinRow>, receipts: seq<ReceiptRow>, player: string)
    ensures var moves := ProviderMoves(trace, player);
            (exists i | 0 <= i < |moves| :: !Backed(moves[i], ByEvent(receipts), player))
            <==> SomeUnsupported(trace, receipts, player)
  {
    hide Backed, Supported, ProviderMoves;
    var moves := ProviderMoves(trace, player);
    if i :| 0 <= i < |moves| && !Backed(moves[i], ByEvent(receipts), player) {
      MovesAreClaims(trace, player, moves[i]);
      BackedIsSupported(moves[i], receipts, player);
      var k :| 0 <= k < |trace| && trace[k] == moves[i];
    }
    if SomeUnsupported(trace, receipts, player) {
      var i :| 0 <= i < |trace| && Claims(trace[i], player) && !Supported(trace[i], receipts, player);
      MovesAreClaims(trace, player, trace[i]);
      BackedIsSupported(trace[i], receipts, player);
      var k :| 0 <= k < |moves| && moves[k] == trace[i];
    }
  }

  lemma CaseFailsIsUnscored(trace: seq<JoinRow>, receipts: seq<ReceiptRow>, player: string,
                            caseId: Option<string>)
    ensures CaseFails(ProviderMoves(trace, player), receipts, caseId)
            <==> ClaimsUnscored(trace, receipts, player, caseId)
  {
    hide ProviderMoves, NotForScoring, ByEvent;
    var moves := ProviderMoves(trace, player);
    if caseId.Some? {
      if i :| 0 <= i < |moves| && CaseInvalid(moves[i], ByEvent(receipts), caseId) {
        MovesAreClaims(trace, player, moves[i]);
        CaseInvalidIsNotForScoring(moves[i], receipts, player, caseId.value);
        var k :| 0 <= k < |trace| && trace[k] == moves[i];
      }
      if i :| 0 <= i < |trace| && NotForScoring(trace[i], receipts, player) {
        ScoringIsOfClaims(trace[i], receipts, player);
        MovesAreClaims(trace, player, trace[i]);
        CaseInvalidIsNotForScoring(trace[i], receipts, player, caseId.value);
        var k :| 0 <= k < |moves| && moves[k] == trace[i];
      }
    }
  }

  lemma ScoringIsOfClaims(r: JoinRow, receipts: seq<ReceiptRow>, player: string)
    requires NotForScoring(r, receipts, player)
    ensures Claims(r, player)
  {
  }

  lemma UnhashableIsUnjoinable(replay: seq<JoinRow>, player: string)
    ensures SomeUnhashable(ProviderMoves(replay, player))
            <==> exists i | 0 <= i < |replay| :: Claims(replay[i], player) && Unjoinable(replay[i])
  {
    hide ProviderMoves;
    var moves := ProviderMoves(replay, player);
    if SomeUnhashable(moves) {
      var i :| 0 <= i < |moves| && (UnhashableJson(moves[i].logicalId) || UnhashableJson(moves[i].eventId));
      MovesAreClaims(replay, player, moves[i]);
      var k :| 0 <= k < |replay| && replay[k] == moves[i];
    }
    if i :| 0 <= i < |replay| && Claims(replay[i], player) && Unjoinable(replay[i]) {
      MovesAreClaims(replay, player, replay[i]);
      var k :| 0 <= k < |moves| && moves[k] == replay[i];
    }
  }

  /**
   The join raises exactly for a claimed replay key that is no scalar; otherwise each of its four
   errors is reported exactly when one of its causes is there.
   */
  lemma EachErrorHasItsCause(trace: seq<JoinRow>, replay: seq<JoinRow>, receipts: seq<ReceiptRow>,
                             invalid: ReceiptRow -> bool, player: string, caseId: Option<string>,
                             expected: Json, error: ReconcileError)
    ensures
      var errors := Errors(trace, replay, receipts, invalid, player, caseId, expected);
      && (errors.None? <==>
            exists i | 0 <= i < |replay| :: Claims(replay[i], player) && Unjoinable(replay[i]))
      && (errors.Some? ==>
            (error in errors.value <==>
               Caused(trace, replay, receipts, invalid, player, caseId, expected, error)))
  {
    hide ProviderMoves, SomeUnhashable, ByEvent, SomeInvalid, SomeUnindexed, SomeOtherCase, Backed,
         Joinable, Referenced, Distinct, JoinKeys, AppliedEvents, ReferencedSet, CountsAgree,
         CaseFails, WrongCounts, Unusable, SomeUnsupported, EventClaimedTwice, ClaimsDiffer,
         AppliedButUnclaimed, UnnamedOrRepeated, NamesOtherCase, ClaimsUnscored, Unjoinable;
    UnhashableIsUnjoinable(replay, player);
    CountsAreClaims(trace, replay, player, expected);
    InvalidIsUnusable(receipts, invalid);
    UnbackedIsUnsupported(trace, receipts, player);
    DistinctExactlyWhenNoneTwice(trace, player);
    KeysDifferExactlyWhenClaimsDo(trace, replay, player);
    SetsDifferExactlyWhenUnclaimed(trace, receipts, player);
    UnindexedIsRepeated(receipts);
    if caseId.Some? {
      OtherCaseIsNamed(receipts, caseId.value);
    } else {
      NoCaseNoMismatch(receipts);
    }
    CaseFailsIsUnscored(trace, receipts, player, caseId);
  }

  lemma NoCaseNoMismatch(receipts: seq<ReceiptRow>)
    ensures !SomeOtherCase(receipts, None) && !NamesOtherCase(receipts, None)
  {
  }
}

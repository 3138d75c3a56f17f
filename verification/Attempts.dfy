/** A provider-backed agent's retry and repair loop and the attempt ledger it leaves. */
module Attempts {
  import opened Options
  import opened Json
  import opened Receipts
  import D = Deadlines

  const RATE_LIMITED := "provider_rate_limited"
  const TIMEOUT := "provider_timeout"
  const AUTH_FAILED := "provider_auth_failed"
  const REQUEST_REJECTED := "provider_request_rejected"
  const UNPARSEABLE := "action_response_unparseable"

  /** What a failed call's receipt says about work the provider may have accepted. */
  datatype Evidence = Evidence(responseId: bool, usage: bool, costOk: bool)

  datatype ProviderError = ProviderError(
    kind: string, status: Option<int>, retryPermitted: bool, receipt: Option<(Receipt, Evidence)>)

  /** How one provider call ends. `Broke` is any exception the loop does not handle. */
  datatype Call = Answered(receipt: Receipt) | TimedOut | Failed(error: ProviderError) | Broke

  /** How reading an answer ends. `Crashed` is an exception other than a protocol error. */
  datatype Reading = Action(action: Json) | Unreadable | Crashed

  /**
   * Everything outside the loop, numbered by provider call. `requested` is the token bound of a bounded
   * output policy in the request, `limit` the operator's own.
   */
  datatype Env = Env(
    call: nat -> Call, read: nat -> Reading, sleepRaises: nat -> bool,
    hasKey: bool, requested: Json, limit: Option<nat>, provider: Json, model: Json)

  /** Request and adapter both bound the output, and differently. */
  predicate PolicyConflict(env: Env) {
    env.requested != JNull && env.limit.Some? && !PyEq(env.requested, JInt(env.limit.value))
  }

  /** Operator settings as they are given; negative values are allowed and mean none. */
  datatype Config = Config(maxRetries: int, repairAttempts: int)

  function Retries(c: Config): nat { if c.maxRetries > 0 then c.maxRetries else 0 }

  function Rounds(c: Config): nat { if c.repairAttempts + 1 > 0 then c.repairAttempts + 1 else 0 }

  datatype Ending = Acted(action: Json) | Failure(kind: string) | Timeout | Uncaught

  datatype Result = Result(ending: Ending, rows: seq<Receipt>, calls: nat)

  /** Only a definite rate rejection that left no trace of accepted work may be repeated. */
  predicate Retryable(e: ProviderError) {
    e.retryPermitted && e.status == Some(429) && e.kind == RATE_LIMITED &&
    (e.receipt.Some? ==> var v := e.receipt.value.1; !v.responseId && !v.usage && !v.costOk)
  }

  function KindOf(round: nat): Json {
    JStr(if round > 0 then "action_repair" else "primary")
  }

  function Stamped(r: Receipt, attempt: nat, round: nat): Receipt {
    r.(attempt := Some(JInt(attempt)), attemptIndex := Some(JInt(attempt)), attemptKind := KindOf(round))
  }

  function FailureReceipt(env: Env, outcome: string, attempt: nat, round: nat): Receipt {
    Receipt(Some(JInt(attempt)), Some(JInt(attempt)), KindOf(round), JStr(outcome), JNull,
            env.provider, env.model, JNull, JNull)
  }

  function ErrorRow(env: Env, e: ProviderError, attempt: nat, round: nat): Receipt {
    Stamped(if e.receipt.Some? then e.receipt.value.0.(outcome := JStr(e.kind))
            else FailureReceipt(env, e.kind, attempt, round), attempt, round)
  }

  /** Every adapter's receipt of a completed call says "ok" until its text is read. */
  function AnswerRow(r: Receipt, attempt: nat, round: nat): Receipt {
    Stamped(r.(outcome := OK), attempt, round)
  }

  function UnreadableRow(r: Receipt, attempt: nat, round: nat): Receipt {
    AnswerRow(r, attempt, round).(outcome := JStr(UNPARSEABLE))
  }

  /** The loop as a recursion: `n` calls made, in repair round `round`, after `retry` retries of it. */
  function From(env: Env, c: Config, n: nat, round: nat, retry: nat, rows: seq<Receipt>): Result
    requires round < Rounds(c) && retry <= Retries(c)
    decreases Rounds(c) - round, Retries(c) - retry + 1
  {
    match env.call(n)
    case Broke => Result(Uncaught, rows, n + 1)
    case TimedOut => Result(Timeout, rows + [FailureReceipt(env, TIMEOUT, n + 1, round)], n + 1)
    case Failed(e) =>
      var kept := rows + [ErrorRow(env, e, n + 1, round)];
      if retry < Retries(c) && Retryable(e) then
        if env.sleepRaises(n) then Result(Uncaught, kept, n + 1)
        else From(env, c, n + 1, round, retry + 1, kept)
      else Result(Failure(e.kind), kept, n + 1)
    case Answered(r) =>
      match env.read(n)
      case Action(a) => Result(Acted(a), rows + [AnswerRow(r, n + 1, round)], n + 1)
      case Crashed => Result(Uncaught, rows + [AnswerRow(r, n + 1, round)], n + 1)
      case Unreadable => NextRound(env, c, n + 1, round, rows + [UnreadableRow(r, n + 1, round)])
  }

  function NextRound(env: Env, c: Config, n: nat, round: nat, rows: seq<Receipt>): Result
    requires round < Rounds(c)
    decreases Rounds(c) - round, 0
  {
    if round + 1 < Rounds(c) then From(env, c, n, round + 1, 0, rows) else Result(Failure(UNPARSEABLE), rows, n)
  }

  function Acting(env: Env, c: Config): Result {
    if PolicyConflict(env) then Result(Failure(REQUEST_REJECTED), [], 0)
    else if !env.hasKey then Result(Failure(AUTH_FAILED), [FailureReceipt(env, AUTH_FAILED, 1, 0)], 0)
    else if Rounds(c) == 0 then Result(Failure(UNPARSEABLE), [], 0)
    else From(env, c, 0, 0, 0, [])
  }

  // ---- the imperative loop ----

  predicate Owns(log: D.ReceiptLog, inv: D.Invocation) {
    log.batch == Some(D.Batch(inv, log.attempts))
  }

  method Act(fields: D.ReceiptFields, current: Option<D.Invocation>, own: D.Invocation, env: Env, c: Config)
    returns (ending: Ending, calls: nat)
    modifies fields
    ensures Result(ending, fields.attempts, calls) == Acting(env, c)
    ensures D.Snapshot(fields.View(), D.BatchOf(current, own)) == fields.attempts
  {
    fields.Begin(current, own);
    calls := 0;
    if PolicyConflict(env) { return Failure(REQUEST_REJECTED), 0; }
    if !env.hasKey {
      fields.Remember(current, FailureReceipt(env, AUTH_FAILED, 1, 0));
      return Failure(AUTH_FAILED), 0;
    }
    var round := 0;
    while round < Rounds(c)
      invariant 0 <= round <= Rounds(c) && Owns(fields.View(), D.BatchOf(current, own))
      invariant round < Rounds(c) ==> Acting(env, c) == From(env, c, calls, round, 0, fields.attempts)
      invariant round == Rounds(c) ==> Acting(env, c) == Result(Failure(UNPARSEABLE), fields.attempts, calls)
    {
      var ended, final, _ := CallUntilAnswered(fields, current, own, env, c, calls, round);
      calls := final;
      if ended.Some? { return ended.value, calls; }
      var reading := env.read(calls - 1);
      if reading.Action? { return Acted(reading.action), calls; }
      if reading.Crashed? { return Uncaught, calls; }
      fields.ReplaceLast(current, fields.last.value.(outcome := JStr(UNPARSEABLE)));
      round := round + 1;
    }
    return Failure(UNPARSEABLE), calls;
  }

  /** The inner loop: repeat safe rejections until the provider answers or the action ends. */
  method CallUntilAnswered(fields: D.ReceiptFields, current: Option<D.Invocation>, own: D.Invocation, env: Env, c: Config,
      n: nat, round: nat)
    returns (ended: Option<Ending>, calls: nat, ghost retries: nat)
    requires round < Rounds(c) && Owns(fields.View(), D.BatchOf(current, own))
    modifies fields
    ensures Owns(fields.View(), D.BatchOf(current, own))
    ensures ended.Some? ==>
              From(env, c, n, round, 0, old(fields.attempts)) == Result(ended.value, fields.attempts, calls)
    ensures ended.None? ==>
              calls > 0 && env.call(calls - 1).Answered? && retries <= Retries(c) &&
              fields.last == Some(AnswerRow(env.call(calls - 1).receipt, calls, round)) &&
              fields.attempts == D.ButLast(fields.attempts) + [fields.last.value] &&
              From(env, c, n, round, 0, old(fields.attempts)) ==
              From(env, c, calls - 1, round, retries, D.ButLast(fields.attempts))
  {
    calls, retries := n, 0;
    var retry := 0;
    while true
      invariant retries == retry <= Retries(c) && Owns(fields.View(), D.BatchOf(current, own))
      invariant From(env, c, n, round, 0, old(fields.attempts)) == From(env, c, calls, round, retry, fields.attempts)
      decreases Retries(c) - retry
    {
      calls := calls + 1;
      match env.call(calls - 1)
      case Broke =>
        return Some(Uncaught), calls, retry;
      case TimedOut =>
        fields.Remember(current, FailureReceipt(env, TIMEOUT, calls, round));
        return Some(Timeout), calls, retry;
      case Failed(e) =>
        fields.Remember(current, ErrorRow(env, e, calls, round));
        if !(retry < Retries(c) && Retryable(e)) { return Some(Failure(e.kind)), calls, retry; }
        if env.sleepRaises(calls - 1) { return Some(Uncaught), calls, retry; }
        retry, retries := retry + 1, retries + 1;
      case Answered(r) =>
        fields.Remember(current, AnswerRow(r, calls, round));
        return None, calls, retry;
    }
  }

  // ---- what the ledger says ----

  predicate Indexed(rows: seq<Receipt>) {
    forall k | 0 <= k < |rows| ::
      rows[k].attemptIndex == Some(JInt(k + 1)) && rows[k].attempt == Some(JInt(k + 1))
  }

  /** A call after which the loop may go on: a safe rejection or an answer that could not be read. */
  predicate MayContinue(env: Env, k: nat) {
    (env.call(k).Failed? && DefinitelyRefused(env.call(k).error)) || (env.call(k).Answered? && env.read(k).Unreadable?)
  }

  /** Status 429, and a receipt, if any, without response id, usage or known cost. */
  predicate DefinitelyRefused(e: ProviderError) {
    e.status == Some(429) &&
    match e.receipt
    case None => true
    case Some((_, v)) => v == Evidence(false, false, false)
  }

  /** Failure classes are never named "ok". */
  ghost predicate HonestKinds(env: Env) {
    forall k :: env.call(k).Failed? ==> JStr(env.call(k).error.kind) != OK
  }

  predicate NoneOk(rows: seq<Receipt>) {
    forall k | 0 <= k < |rows| :: rows[k].outcome != OK
  }

  predicate OnlyLastOk(rows: seq<Receipt>) {
    |rows| > 0 && rows[|rows| - 1].outcome == OK && NoneOk(rows[..|rows| - 1])
  }

  /** The run from here makes a bounded number of calls. */
  lemma {:induction false} CallsLeft(env: Env, c: Config, n: nat, round: nat, retry: nat, rows: seq<Receipt>)
    requires round < Rounds(c) && retry <= Retries(c)
    ensures var r := From(env, c, n, round, retry, rows);
            n < r.calls <= n + (Retries(c) - retry + 1) + (Rounds(c) - round - 1) * (1 + Retries(c))
    decreases Rounds(c) - round, Retries(c) - retry
  {
    var k := Rounds(c) - round - 1;
    assert k >= 0 ==> k * (1 + Retries(c)) >= 0;
    match env.call(n)
    case Failed(e) =>
      if retry < Retries(c) && Retryable(e) && !env.sleepRaises(n) {
        CallsLeft(env, c, n + 1, round, retry + 1, rows + [ErrorRow(env, e, n + 1, round)]);
      }
    case Answered(r) =>
      if env.read(n).Unreadable? && round + 1 < Rounds(c) {
        assert k * (1 + Retries(c)) == (k - 1) * (1 + Retries(c)) + (1 + Retries(c));
        CallsLeft(env, c, n + 1, round + 1, 0, rows + [UnreadableRow(r, n + 1, round)]);
      }
    case _ =>
  }

  /** The rows written so far stay, are numbered without a gap, and are not final. */
  predicate SoFar(env: Env, n: nat, rows: seq<Receipt>) {
    |rows| == n && Indexed(rows) && NoneOk(rows) && forall k | 0 <= k < n :: MayContinue(env, k)
  }

  predicate LedgerOk(env: Env, r: Result) {
    Indexed(r.rows) && r.calls > 0 &&
    (|r.rows| == r.calls || (|r.rows| == r.calls - 1 && env.call(r.calls - 1).Broke?)) &&
    (forall k | 0 <= k < r.calls - 1 :: MayContinue(env, k)) &&
    (if env.call(r.calls - 1).Answered? && !env.read(r.calls - 1).Unreadable? then OnlyLastOk(r.rows) else NoneOk(r.rows)) &&
    (r.ending.Acted? <==> env.call(r.calls - 1).Answered? && env.read(r.calls - 1).Action?)
  }

  lemma SoFarExtends(env: Env, n: nat, rows: seq<Receipt>, row: Receipt)
    requires SoFar(env, n, rows) && MayContinue(env, n) && row.outcome != OK
    requires row.attemptIndex == Some(JInt(n + 1)) && row.attempt == Some(JInt(n + 1))
    ensures SoFar(env, n + 1, rows + [row])
  {
  }

  lemma LastRowDecides(env: Env, n: nat, rows: seq<Receipt>, row: Receipt, r: Result)
    requires SoFar(env, n, rows) && r.rows == rows + [row] && r.calls == n + 1
    requires row.attemptIndex == Some(JInt(n + 1)) && row.attempt == Some(JInt(n + 1))
    requires row.outcome == OK <==> env.call(n).Answered? && !env.read(n).Unreadable?
    requires r.ending.Acted? <==> env.call(n).Answered? && env.read(n).Action?
    ensures LedgerOk(env, r)
  {
    assert r.rows[..n] == rows;
  }

  lemma {:induction false} LedgerFrom(env: Env, c: Config, n: nat, round: nat, retry: nat, rows: seq<Receipt>)
    requires round < Rounds(c) && retry <= Retries(c) && SoFar(env, n, rows) && HonestKinds(env)
    ensures LedgerOk(env, From(env, c, n, round, retry, rows))
    decreases Rounds(c) - round, Retries(c) - retry
  {
    hide Indexed, NoneOk, OnlyLastOk, LedgerOk;
    var r := From(env, c, n, round, retry, rows);
    match env.call(n) {
      case Broke => NoRowForLastCall(env, n, rows, r);
      case TimedOut => LastRowDecides(env, n, rows, FailureReceipt(env, TIMEOUT, n + 1, round), r);
      case Failed(e) =>
        var row := ErrorRow(env, e, n + 1, round);
        if retry < Retries(c) && Retryable(e) && !env.sleepRaises(n) {
          SoFarExtends(env, n, rows, row);
          LedgerFrom(env, c, n + 1, round, retry + 1, rows + [row]);
        } else {
          LastRowDecides(env, n, rows, row, r);
        }
      case Answered(a) =>
        if !env.read(n).Unreadable? {
          LastRowDecides(env, n, rows, AnswerRow(a, n + 1, round), r);
        } else if round + 1 < Rounds(c) {
          SoFarExtends(env, n, rows, UnreadableRow(a, n + 1, round));
          LedgerFrom(env, c, n + 1, round + 1, 0, rows + [UnreadableRow(a, n + 1, round)]);
        } else {
          assert r == NextRound(env, c, n + 1, round, rows + [UnreadableRow(a, n + 1, round)]);
          LastRowDecides(env, n, rows, UnreadableRow(a, n + 1, round), r);
        }
    }
  }

  lemma NoRowForLastCall(env: Env, n: nat, rows: seq<Receipt>, r: Result)
    requires SoFar(env, n, rows) && env.call(n).Broke? && r == Result(Uncaught, rows, n + 1)
    ensures LedgerOk(env, r)
  {
  }

  /** At most (1 + repairs) * (1 + retries) provider calls are made for one action. */
  lemma CallsAreBounded(env: Env, c: Config)
    ensures Acting(env, c).calls <= Rounds(c) * (1 + Retries(c))
  {
    if Rounds(c) > 0 {
      CallsLeft(env, c, 0, 0, 0, []);
      assert Rounds(c) * (1 + Retries(c)) == (Rounds(c) - 1) * (1 + Retries(c)) + (1 + Retries(c));
    } else {
      assert Rounds(c) * (1 + Retries(c)) == 0;
    }
  }

  /**
   * The ledger of one action: indexes exactly 1..n; every call but the last was a safe rejection or an
   * unreadable answer; and "ok" marks the last row only, exactly when an answer was read or its reader broke.
   */
  lemma LedgerOfOneAction(env: Env, c: Config)
    requires HonestKinds(env)
    ensures var r := Acting(env, c);
            Indexed(r.rows) &&
            (forall k | 0 <= k < r.calls - 1 :: MayContinue(env, k)) &&
            (NoneOk(r.rows) || OnlyLastOk(r.rows)) &&
            (OnlyLastOk(r.rows) <==>
               r.ending.Acted? || (r.calls > 0 && env.call(r.calls - 1).Answered? && env.read(r.calls - 1).Crashed?))
  {
    if !PolicyConflict(env) && env.hasKey && Rounds(c) > 0 {
      LedgerFrom(env, c, 0, 0, 0, []);
      OkIsNotNone(Acting(env, c).rows);
    }
  }

  lemma OkIsNotNone(rows: seq<Receipt>)
    ensures !(NoneOk(rows) && OnlyLastOk(rows))
  {
  }

  /** When the reader only raises protocol errors, an ok receipt exists exactly when an action is returned. */
  lemma OkExactlyWhenActed(env: Env, c: Config)
    requires HonestKinds(env) && forall k :: !env.read(k).Crashed?
    ensures OnlyLastOk(Acting(env, c).rows) <==> Acting(env, c).ending.Acted?
    ensures NoneOk(Acting(env, c).rows) <==> !Acting(env, c).ending.Acted?
  {
    LedgerOfOneAction(env, c);
    OkIsNotNone(Acting(env, c).rows);
  }

  /** The runner never rejects such a ledger for its indexes: only a repeated event id can. */
  lemma LedgerIsGapFree(env: Env, c: Config, turn: TurnContext, seen: set<string>)
    requires HonestKinds(env)
    ensures var rows := Acting(env, c).rows;
            GapFree(turn, rows, seen) <==>
              (forall k | 0 <= k < |rows| :: EventAt(turn, k) !in seen) &&
              (forall j, k | 0 <= j < k < |rows| :: EventAt(turn, j) != EventAt(turn, k))
  {
    LedgerOfOneAction(env, c);
    var rows := Acting(env, c).rows;
    forall k | 0 <= k < |rows| ensures RawIndex(rows[k], k + 1) == JInt(k + 1) { }
  }

  /** Such a reader failure exists: one call, answered, with an ok receipt left behind and no action. */
  lemma OkReceiptWithoutAction(r: Receipt)
    ensures var env := Env(k => Answered(r), k => Crashed, k => false, true, JNull, None, JNull, JNull);
            HonestKinds(env) && OnlyLastOk(Acting(env, Config(0, 0)).rows) &&
            !Acting(env, Config(0, 0)).ending.Acted?
  {
    var env := Env(k => Answered(r), k => Crashed, k => false, true, JNull, None, JNull, JNull);
    assert Acting(env, Config(0, 0)) == Result(Uncaught, [AnswerRow(r, 1, 0)], 1);
    assert [AnswerRow(r, 1, 0)][..0] == [];
  }
}

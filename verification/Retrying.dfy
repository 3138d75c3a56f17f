/**
 Which provider call of one action is followed by another, and what the last one leads to. Every
 condition is written out on the calls themselves; the attempt loop is shown to obey them.
 */
module Retrying {
  import opened Options
  import opened Json
  import opened Receipts
  import opened Attempts

  /** Repair rounds begun before call k: the unreadable answers so far. */
  function RepairsBefore(env: Env, k: nat): nat {
    if k == 0 then 0
    else RepairsBefore(env, k - 1) + if env.call(k - 1).Answered? then 1 else 0
  }

  /** Calls since the last answer. */
  function RetriesBefore(env: Env, k: nat): nat {
    if k == 0 || env.call(k - 1).Answered? then 0 else RetriesBefore(env, k - 1) + 1
  }

  /** A rejection for rate that the provider lets be repeated and that left no accepted work. */
  predicate RateRejected(call: Call) {
    && call.Failed? && call.error.kind == "provider_rate_limited" && call.error.status == Some(429)
    && call.error.retryPermitted
    && (call.error.receipt.None? || call.error.receipt.value.1 == Evidence(false, false, false))
  }

  /** Call k is followed by another one. */
  predicate GoesOn(env: Env, c: Config, k: nat) {
    || (RateRejected(env.call(k)) && RetriesBefore(env, k) < c.maxRetries && !env.sleepRaises(k))
    || (env.call(k).Answered? && env.read(k).Unreadable? && RepairsBefore(env, k) < c.repairAttempts)
  }

  /** The ending that call k dictates when it is the last one. */
  function EndingAt(env: Env, c: Config, k: nat): Ending {
    match env.call(k)
    case Broke => Uncaught
    case TimedOut => Timeout
    case Failed(e) =>
      if RateRejected(env.call(k)) && RetriesBefore(env, k) < c.maxRetries then Uncaught
      else Failure(e.kind)
    case Answered(_) =>
      match env.read(k)
      case Action(a) => Acted(a)
      case Crashed => Uncaught
      case Unreadable => Failure("action_response_unparseable")
  }

  /** What the row of call k says its outcome is. */
  function OutcomeAt(env: Env, k: nat): string {
    match env.call(k)
    case TimedOut => "provider_timeout"
    case Failed(e) => e.kind
    case _ => if env.read(k).Unreadable? then "action_response_unparseable" else "ok"
  }

  /** A row tells its call's number, outcome and kind, and keeps what the provider reported. */
  predicate Tells(env: Env, k: nat, row: Receipt) {
    && row.attemptIndex == Some(JInt(k + 1)) && row.attempt == Some(JInt(k + 1))
    && row.outcome == JStr(OutcomeAt(env, k))
    && row.attemptKind == JStr(if RepairsBefore(env, k) > 0 then "action_repair" else "primary")
    && match env.call(k)
       case Answered(r) => Keeps(r, row)
       case Failed(e) => if e.receipt.Some? then Keeps(e.receipt.value.0, row) else Bare(env, row)
       case _ => Bare(env, row)
  }

  predicate Keeps(r: Receipt, row: Receipt) {
    && row.parentAttemptId == r.parentAttemptId && row.provider == r.provider
    && row.model == r.model && row.lockedModelId == r.lockedModelId
    && row.identitySource == r.identitySource
  }

  predicate Bare(env: Env, row: Receipt) {
    && row.provider == env.provider && row.model == env.model
    && row.lockedModelId == JNull && row.identitySource == JNull && row.parentAttemptId == JNull
  }

  /** The first n calls are all followed by another and have their rows. */
  predicate Underway(env: Env, c: Config, n: nat, rows: seq<Receipt>) {
    |rows| == n && forall k | 0 <= k < n :: GoesOn(env, c, k) && Tells(env, k, rows[k])
  }

  /** The calls stop at the first one that is not followed by another, and it decides. */
  predicate Obeys(env: Env, c: Config, r: Result) {
    && r.calls > 0
    && (forall k | 0 <= k < r.calls - 1 :: GoesOn(env, c, k))
    && !GoesOn(env, c, r.calls - 1)
    && r.ending == EndingAt(env, c, r.calls - 1)
    && |r.rows| == (if env.call(r.calls - 1).Broke? then r.calls - 1 else r.calls)
    && forall k | 0 <= k < |r.rows| :: Tells(env, k, r.rows[k])
  }

  lemma RetryableIsRateRejected(e: ProviderError)
    ensures Retryable(e) <==> RateRejected(Failed(e))
  {
  }

  lemma LastCall(env: Env, c: Config, n: nat, rows: seq<Receipt>, added: seq<Receipt>)
    requires Underway(env, c, n, rows) && !GoesOn(env, c, n)
    requires if env.call(n).Broke? then added == [] else |added| == 1 && Tells(env, n, added[0])
    ensures Obeys(env, c, Result(EndingAt(env, c, n), rows + added, n + 1))
  {
    hide GoesOn, Tells, EndingAt;
  }

  lemma OneMore(env: Env, c: Config, n: nat, rows: seq<Receipt>, row: Receipt)
    requires Underway(env, c, n, rows) && GoesOn(env, c, n) && Tells(env, n, row)
    ensures Underway(env, c, n + 1, rows + [row])
  {
    hide GoesOn, Tells;
  }

  lemma RowsTell(env: Env, n: nat)
    ensures var round := RepairsBefore(env, n);
            match env.call(n)
            case Broke => true
            case TimedOut => Tells(env, n, FailureReceipt(env, TIMEOUT, n + 1, round))
            case Failed(e) => Tells(env, n, ErrorRow(env, e, n + 1, round))
            case Answered(r) =>
              Tells(env, n, if env.read(n).Unreadable? then UnreadableRow(r, n + 1, round)
                            else AnswerRow(r, n + 1, round))
  {
  }

  lemma {:induction false} FromObeys(env: Env, c: Config, n: nat, round: nat, retry: nat,
                                     rows: seq<Receipt>)
    requires round < Rounds(c) && retry <= Retries(c)
    requires round == RepairsBefore(env, n) && retry == RetriesBefore(env, n)
    requires Underway(env, c, n, rows)
    ensures Obeys(env, c, From(env, c, n, round, retry, rows))
    decreases Rounds(c) - round, Retries(c) - retry
  {
    hide Tells, Obeys, Underway, Retryable, ErrorRow, AnswerRow, UnreadableRow,
         FailureReceipt;
    RowsTell(env, n);
    match env.call(n) {
      case Broke =>
        LastCall(env, c, n, rows, []);
        assert rows + [] == rows;
      case TimedOut => LastCall(env, c, n, rows, [FailureReceipt(env, TIMEOUT, n + 1, round)]);
      case Failed(e) =>
        var row := ErrorRow(env, e, n + 1, round);
        RetryableIsRateRejected(e);
        if retry < Retries(c) && Retryable(e) && !env.sleepRaises(n) {
          OneMore(env, c, n, rows, row);
          FromObeys(env, c, n + 1, round, retry + 1, rows + [row]);
        } else {
          LastCall(env, c, n, rows, [row]);
        }
      case Answered(a) =>
        if !env.read(n).Unreadable? {
          LastCall(env, c, n, rows, [AnswerRow(a, n + 1, round)]);
        } else {
          var row := UnreadableRow(a, n + 1, round);
          assert From(env, c, n, round, retry, rows) == NextRound(env, c, n + 1, round, rows + [row]);
          if round + 1 < Rounds(c) {
            OneMore(env, c, n, rows, row);
            FromObeys(env, c, n + 1, round + 1, 0, rows + [row]);
          } else {
            LastCall(env, c, n, rows, [row]);
          }
        }
    }
  }

  /**
   One action of a provider agent. Before the first call a conflicting output bound, a missing
   key or a negative repair setting ends it; otherwise it goes on exactly while its calls say so.
   */
  lemma EachCallDecidesTheNext(env: Env, c: Config)
    ensures
      var r := Acting(env, c);
      var conflict := env.requested != JNull && env.limit.Some?
                      && !PyEq(env.requested, JInt(env.limit.value));
      if conflict then r == Result(Failure("provider_request_rejected"), [], 0)
      else if !env.hasKey then
        r.ending == Failure("provider_auth_failed") && r.calls == 0 && |r.rows| == 1
        && r.rows[0].outcome == JStr("provider_auth_failed") && r.rows[0].attemptIndex == Some(JInt(1))
        && r.rows[0].attemptKind == JStr("primary") && Bare(env, r.rows[0])
      else if c.repairAttempts < 0 then r == Result(Failure("action_response_unparseable"), [], 0)
      else Obeys(env, c, r)
  {
    hide Obeys, From, PyEq;
    if !PolicyConflict(env) && env.hasKey && Rounds(c) > 0 {
      FromObeys(env, c, 0, 0, 0, []);
    }
  }
}

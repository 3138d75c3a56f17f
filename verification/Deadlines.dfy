/** Bounded threaded agent calls: admission, quarantine of late workers, and whose receipts a caller sees. */
module Deadlines {
  import opened Options
  import Receipts

  type Agent = nat
  type Invocation = nat
  type Receipt = Receipts.Receipt

  const CAPACITY: nat := 32

  // ---- the registry guarded by the call lock ----

  datatype Registry = Registry(calls: map<Agent, Invocation>, permits: nat)

  predicate Admits(r: Registry, agent: Agent) {
    agent !in r.calls && r.permits > 0
  }

  function Admitted(r: Registry, agent: Agent, inv: Invocation): Registry
    requires Admits(r, agent)
  {
    Registry(r.calls[agent := inv], r.permits - 1)
  }

  function Released(r: Registry, agent: Agent): Registry {
    Registry(r.calls - {agent}, r.permits + 1)
  }

  // ---- one agent's receipt fields ----

  datatype Batch = Batch(invocation: Invocation, rows: seq<Receipt>)

  datatype ReceiptLog = ReceiptLog(batch: Option<Batch>, attempts: seq<Receipt>, last: Option<Receipt>)

  const EMPTY := ReceiptLog(None, [], None)

  /** A call opens a batch for its invocation, or for an object of its own when it runs outside any. */
  function BatchOf(current: Option<Invocation>, own: Invocation): Invocation {
    if current.Some? then current.value else own
  }

  function Begun(current: Option<Invocation>, own: Invocation): ReceiptLog {
    ReceiptLog(Some(Batch(BatchOf(current, own), [])), [], None)
  }

  /** A receipt list is published into the open batch, but never into that of another invocation. */
  function Published(log: ReceiptLog, current: Option<Invocation>, rows: seq<Receipt>): Option<Batch> {
    if log.batch.None? || (current.Some? && log.batch.value.invocation != current.value) then log.batch
    else Some(Batch(log.batch.value.invocation, rows))
  }

  function Stored(log: ReceiptLog, current: Option<Invocation>, rows: seq<Receipt>, r: Receipt): ReceiptLog {
    ReceiptLog(Published(log, current, rows), rows, Some(r))
  }

  function ButLast<T>(s: seq<T>): seq<T> {
    if s == [] then [] else s[..|s| - 1]
  }

  function Remembered(log: ReceiptLog, current: Option<Invocation>, r: Receipt): ReceiptLog {
    Stored(log, current, log.attempts + [r], r)
  }

  function LastReplaced(log: ReceiptLog, current: Option<Invocation>, r: Receipt): ReceiptLog {
    Stored(log, current, ButLast(log.attempts) + [r], r)
  }

  function Snapshot(log: ReceiptLog, inv: Invocation): seq<Receipt> {
    if log.batch.Some? && log.batch.value.invocation == inv then log.batch.value.rows else []
  }

  /** The module's globals: the table of unfinished calls and the bounded semaphore. */
  class CallTable {
    var calls: map<Agent, Invocation>
    var permits: nat

    constructor ()
      ensures View() == Registry(map[], CAPACITY)
    {
      calls, permits := map[], CAPACITY;
    }

    function View(): Registry
      reads this
    {
      Registry(calls, permits)
    }

    method Available(agent: Agent) returns (ok: bool)
      ensures ok <==> agent !in calls
    {
      ok := agent !in calls;
    }

    /** The locked section that opens `call_in_thread`. */
    method Admit(agent: Agent, inv: Invocation) returns (admitted: bool)
      modifies this
      ensures admitted <==> Admits(old(View()), agent)
      ensures View() == if admitted then Admitted(old(View()), agent, inv) else old(View())
    {
      if agent in calls { return false; }
      if permits == 0 { return false; }
      permits := permits - 1;
      calls := calls[agent := inv];
      admitted := true;
    }

    /** The locked section that ends a worker, or undoes a thread that could not start. */
    method Release(agent: Agent)
      modifies this
      ensures View() == Released(old(View()), agent)
    {
      calls := calls - {agent};
      permits := permits + 1;
    }
  }

  /** The receipt fields of a provider-backed agent. */
  class ReceiptFields {
    var batch: Option<Batch>
    var attempts: seq<Receipt>
    var last: Option<Receipt>

    constructor ()
      ensures View() == EMPTY
    {
      batch, attempts, last := None, [], None;
    }

    function View(): ReceiptLog
      reads this
    {
      ReceiptLog(batch, attempts, last)
    }

    method Begin(current: Option<Invocation>, own: Invocation)
      modifies this
      ensures View() == Begun(current, own)
    {
      batch := Some(Batch(BatchOf(current, own), []));
      last, attempts := None, [];
    }

    method Publish(current: Option<Invocation>, receipts: seq<Receipt>)
      modifies this`batch
      ensures batch == Published(old(View()), current, receipts)
    {
      if batch.None? || (current.Some? && batch.value.invocation != current.value) { return; }
      batch := Some(Batch(batch.value.invocation, receipts));
    }

    method Remember(current: Option<Invocation>, r: Receipt)
      modifies this
      ensures View() == Remembered(old(View()), current, r)
    {
      var receipts := attempts + [r];
      Publish(current, receipts);
      attempts, last := receipts, Some(r);
    }

    method ReplaceLast(current: Option<Invocation>, r: Receipt)
      modifies this
      ensures View() == LastReplaced(old(View()), current, r)
    {
      var receipts := ButLast(attempts) + [r];
      Publish(current, receipts);
      attempts, last := receipts, Some(r);
    }

    method TakeSnapshot(inv: Invocation) returns (rows: seq<Receipt>)
      ensures rows == Snapshot(View(), inv)
    {
      if batch.None? || batch.value.invocation != inv { return []; }
      rows := batch.value.rows;
    }
  }

  // ---- every interleaving of callers and workers ----

  datatype Stage = Called | Checked | Refused | StartFailed | Waiting | TimedOut | Returned

  datatype Caller = Caller(agent: Agent, stage: Stage)

  /** A registered worker; it leaves the map in its `finally` block. */
  datatype Worker = Worker(agent: Agent, started: bool, acting: bool)

  /** `issued` is history: what each invocation's worker has remembered, in attempt order. */
  datatype World = World(
    registry: Registry,
    logs: map<Agent, ReceiptLog>,
    workers: map<Invocation, Worker>,
    callers: map<Invocation, Caller>,
    issued: map<Invocation, seq<Receipt>>,
    next: Invocation)

  datatype Event =
    | Arrive(agent: Agent)
    | Ensure(inv: Invocation)
    | Register(inv: Invocation)
    | Launch(inv: Invocation, ok: bool)
    | Act(inv: Invocation)
    | Remember(inv: Invocation, receipt: Receipt)
    | Replace(inv: Invocation, receipt: Receipt)
    | Finish(inv: Invocation)
    | GiveUp(inv: Invocation)
    | Collect(inv: Invocation)

  const INITIAL := World(Registry(map[], CAPACITY), map[], map[], map[], map[], 0)

  function LogOf(w: World, agent: Agent): ReceiptLog {
    if agent in w.logs then w.logs[agent] else EMPTY
  }

  function Issued(w: World, inv: Invocation): seq<Receipt> {
    if inv in w.issued then w.issued[inv] else []
  }

  predicate IsAt(w: World, inv: Invocation, stage: Stage) {
    inv in w.callers && w.callers[inv].stage == stage
  }

  function Moved(w: World, inv: Invocation, stage: Stage): World
    requires inv in w.callers
  {
    w.(callers := w.callers[inv := w.callers[inv].(stage := stage)])
  }

  function Registered(w: World, inv: Invocation): World
    requires inv in w.callers
  {
    var agent := w.callers[inv].agent;
    if Admits(w.registry, agent)
    then Moved(w, inv, Waiting).(registry := Admitted(w.registry, agent, inv),
                                 workers := w.workers[inv := Worker(agent, false, false)])
    else Moved(w, inv, Refused)
  }

  function Gone(w: World, inv: Invocation): World
    requires inv in w.workers
  {
    w.(registry := Released(w.registry, w.workers[inv].agent), workers := w.workers - {inv})
  }

  function Launched(w: World, inv: Invocation, ok: bool): World
    requires inv in w.workers && inv in w.callers
  {
    if ok then w.(workers := w.workers[inv := w.workers[inv].(started := true)])
    else Moved(Gone(w, inv), inv, StartFailed)
  }

  function WithLog(w: World, inv: Invocation, log: ReceiptLog, rows: seq<Receipt>): World
    requires inv in w.workers
  {
    w.(logs := w.logs[w.workers[inv].agent := log], issued := w.issued[inv := rows])
  }

  /** One atomic step; a step whose thread is not ready for it changes nothing. */
  function Apply(w: World, e: Event): World {
    match e
    case Arrive(a) => w.(callers := w.callers[w.next := Caller(a, Called)], next := w.next + 1)
    case Ensure(i) =>
      if IsAt(w, i, Called)
      then Moved(w, i, if w.callers[i].agent in w.registry.calls then Refused else Checked) else w
    case Register(i) => if IsAt(w, i, Checked) then Registered(w, i) else w
    case Launch(i, ok) =>
      if i in w.workers && !w.workers[i].started && IsAt(w, i, Waiting) then Launched(w, i, ok) else w
    case Act(i) =>
      if i in w.workers && w.workers[i].started && !w.workers[i].acting
      then WithLog(w, i, Begun(Some(i), i), []).(workers := w.workers[i := w.workers[i].(acting := true)]) else w
    case Remember(i, r) =>
      if i in w.workers && w.workers[i].acting
      then WithLog(w, i, Remembered(LogOf(w, w.workers[i].agent), Some(i), r), Issued(w, i) + [r]) else w
    case Replace(i, r) =>
      if i in w.workers && w.workers[i].acting
      then WithLog(w, i, LastReplaced(LogOf(w, w.workers[i].agent), Some(i), r), ButLast(Issued(w, i)) + [r]) else w
    case Finish(i) => if i in w.workers && w.workers[i].started then Gone(w, i) else w
    case GiveUp(i) =>
      if IsAt(w, i, Waiting) && (i in w.workers ==> w.workers[i].started) then Moved(w, i, TimedOut) else w
    case Collect(i) => if IsAt(w, i, Waiting) && i !in w.workers then Moved(w, i, Returned) else w
  }

  function Run(events: seq<Event>): World {
    if events == [] then INITIAL else Apply(Run(events[..|events| - 1]), events[|events| - 1])
  }

  // ---- the invariant ----

  predicate NoPermitLost(w: World) {
    w.registry.permits + |w.registry.calls| == CAPACITY && |w.workers| == |w.registry.calls|
  }

  /** A table entry and a live worker are the same thing. */
  predicate EntryOk(w: World, a: Agent) {
    a in w.registry.calls ==> w.registry.calls[a] in w.workers && w.workers[w.registry.calls[a]].agent == a
  }

  predicate WorkerOk(w: World, i: Invocation) {
    i in w.workers ==>
      w.workers[i].agent in w.registry.calls && w.registry.calls[w.workers[i].agent] == i &&
      i in w.callers && w.callers[i].agent == w.workers[i].agent &&
      (!w.workers[i].started ==> w.callers[i].stage == Waiting && !w.workers[i].acting) &&
      (if w.workers[i].acting
       then LogOf(w, w.workers[i].agent).batch == Some(Batch(i, Issued(w, i))) &&
            LogOf(w, w.workers[i].agent).attempts == Issued(w, i)
       else i !in w.issued)
  }

  predicate LogOk(w: World, a: Agent) {
    LogOf(w, a).batch.Some? ==>
      var b := LogOf(w, a).batch.value;
      b.rows == Issued(w, b.invocation) && b.invocation in w.issued &&
      b.invocation in w.callers && w.callers[b.invocation].agent == a
  }

  predicate CallerOk(w: World, i: Invocation) {
    (i in w.callers ==> i < w.next) && (i in w.issued ==> i in w.callers) &&
    (i in w.callers && w.callers[i].stage in {Called, Checked, Refused, StartFailed} ==>
       i !in w.workers && i !in w.issued)
  }

  ghost predicate Inv(w: World) {
    NoPermitLost(w) && (forall a :: EntryOk(w, a)) && (forall i :: WorkerOk(w, i)) &&
    (forall a :: LogOk(w, a)) && (forall i :: CallerOk(w, i))
  }

  function Subject(e: Event): Invocation {
    if e.Arrive? then 0 else e.inv
  }

  lemma PermitStep(w: World, e: Event)
    requires NoPermitLost(w)
    requires Subject(e) in w.workers ==> w.workers[Subject(e)].agent in w.registry.calls
    requires IsAt(w, Subject(e), Checked) ==> Subject(e) !in w.workers
    ensures NoPermitLost(Apply(w, e))
  {
  }

  lemma EntryStep(w: World, e: Event, a: Agent)
    requires EntryOk(w, a) && WorkerOk(w, Subject(e)) && CallerOk(w, Subject(e))
    ensures EntryOk(Apply(w, e), a)
  {
  }

  lemma OwnWorkerStep(w: World, e: Event)
    requires !e.Arrive? && WorkerOk(w, e.inv) && CallerOk(w, e.inv)
    ensures WorkerOk(Apply(w, e), e.inv)
  {
  }

  lemma OtherWorkerStep(w: World, e: Event, i: Invocation)
    requires WorkerOk(w, i) && CallerOk(w, i)
    requires !e.Arrive? ==> i != e.inv && WorkerOk(w, e.inv)
    ensures WorkerOk(Apply(w, e), i)
  {
  }

  lemma WorkerStep(w: World, e: Event, i: Invocation)
    requires WorkerOk(w, i) && WorkerOk(w, Subject(e)) && CallerOk(w, i) && CallerOk(w, Subject(e))
    ensures WorkerOk(Apply(w, e), i)
  {
    hide Apply, WorkerOk, CallerOk;
    if !e.Arrive? && i == e.inv { OwnWorkerStep(w, e); } else { OtherWorkerStep(w, e, i); }
  }

  lemma LogStep(w: World, e: Event, a: Agent)
    requires LogOk(w, a) && WorkerOk(w, Subject(e)) && CallerOk(w, Subject(e)) && CallerOk(w, w.next)
    ensures LogOk(Apply(w, e), a)
  {
  }

  lemma CallerStep(w: World, e: Event, i: Invocation)
    requires CallerOk(w, i) && WorkerOk(w, Subject(e)) && WorkerOk(w, i) && CallerOk(w, w.next) && WorkerOk(w, w.next)
    ensures CallerOk(Apply(w, e), i)
  {
  }

  lemma StepKeepsInv(w: World, e: Event)
    requires Inv(w)
    ensures Inv(Apply(w, e))
  {
    var next := Apply(w, e);
    assert WorkerOk(w, Subject(e)) && CallerOk(w, Subject(e)) && WorkerOk(w, w.next) && CallerOk(w, w.next);
    PermitStep(w, e);
    hide Apply, NoPermitLost, EntryOk, WorkerOk, LogOk, CallerOk;
    forall a ensures EntryOk(next, a) && LogOk(next, a) { EntryStep(w, e, a); LogStep(w, e, a); }
    forall i ensures WorkerOk(next, i) && CallerOk(next, i) { WorkerStep(w, e, i); CallerStep(w, e, i); }
  }

  lemma {:induction false} RunKeepsInv(events: seq<Event>)
    ensures Inv(Run(events))
  {
    if events != [] {
      RunKeepsInv(events[..|events| - 1]);
      StepKeepsInv(Run(events[..|events| - 1]), events[|events| - 1]);
    }
  }

  // ---- what holds in every run ----

  /** The bounded semaphore never leaks and is never released above its capacity. */
  lemma PermitsAndWorkersAddUp(events: seq<Event>)
    ensures Run(events).registry.permits + |Run(events).workers| == 32
    ensures forall i :: i in Run(events).workers ==> Run(events).registry.permits < 32
  {
    RunKeepsInv(events);
  }

  lemma OneLiveWorkerPerAgent(events: seq<Event>, i: Invocation, j: Invocation)
    requires i in Run(events).workers && j in Run(events).workers
    requires Run(events).workers[i].agent == Run(events).workers[j].agent
    ensures i == j
  {
    RunKeepsInv(events);
    assert WorkerOk(Run(events), i) && WorkerOk(Run(events), j);
  }

  /** How often a permit was taken for, and given back by, one invocation. */
  function Takes(events: seq<Event>, i: Invocation): nat {
    if events == [] then 0
    else
      var before := events[..|events| - 1];
      Takes(before, i) + (if i !in Run(before).workers && i in Run(events).workers then 1 else 0)
  }

  function Gives(events: seq<Event>, i: Invocation): nat {
    if events == [] then 0
    else
      var before := events[..|events| - 1];
      Gives(before, i) + (if i in Run(before).workers && i !in Run(events).workers then 1 else 0)
  }

  /** A worker appears only while its caller is still asking. */
  lemma AppearsOnce(w: World, e: Event, i: Invocation)
    requires CallerOk(w, i) && WorkerOk(w, i)
    ensures i !in w.workers && i in Apply(w, e).workers ==> IsAt(w, i, Checked)
    ensures i in w.callers && w.callers[i].stage !in {Called, Checked} ==>
              i in Apply(w, e).callers && Apply(w, e).callers[i].stage !in {Called, Checked}
    ensures i in Apply(w, e).workers ==> i in Apply(w, e).callers && Apply(w, e).callers[i].stage !in {Called, Checked}
  {
    assert i in w.callers ==> i < w.next;
  }

  /** Each invocation takes at most one permit and gives it back exactly once, when its worker ends. */
  lemma {:induction false} PermitReleasedExactlyOnce(events: seq<Event>, i: Invocation)
    ensures Takes(events, i) <= 1
    ensures Gives(events, i) + (if i in Run(events).workers then 1 else 0) == Takes(events, i)
    ensures Takes(events, i) == 1 ==> i in Run(events).callers && Run(events).callers[i].stage !in {Called, Checked}
  {
    if events != [] {
      var before := events[..|events| - 1];
      PermitReleasedExactlyOnce(before, i);
      RunKeepsInv(before);
      assert CallerOk(Run(before), i) && WorkerOk(Run(before), i);
      AppearsOnce(Run(before), events[|events| - 1], i);
      hide Apply;
    }
  }

  ghost predicate Busy(w: World, agent: Agent) {
    exists i :: i in w.workers && w.workers[i].agent == agent
  }

  /**
   * Admission: a caller gets a thread exactly when no earlier worker of its agent, timed out or not, is
   * still running and fewer than 32 workers are. A refused caller sees no receipts at all.
   */
  lemma AdmittedExactlyWhenFree(events: seq<Event>, j: Invocation)
    requires IsAt(Run(events), j, Checked)
    ensures var w := Run(events);
            var next := Apply(w, Register(j));
            var agent := w.callers[j].agent;
            (IsAt(next, j, Waiting) <==> !Busy(w, agent) && |w.workers| < 32) &&
            (!IsAt(next, j, Waiting) ==>
               IsAt(next, j, Refused) && next.registry == w.registry && Snapshot(LogOf(next, agent), j) == [])
  {
    var w := Run(events);
    RunKeepsInv(events);
    var agent := w.callers[j].agent;
    assert EntryOk(w, agent) && LogOk(w, agent) && CallerOk(w, j);
    if i :| i in w.workers && w.workers[i].agent == agent { assert WorkerOk(w, i); }
  }

  /** A caller that gave up is refused again, as is everyone else, until the late worker ends. */
  lemma LateWorkerIsQuarantined(events: seq<Event>, i: Invocation, j: Invocation)
    requires IsAt(Run(events), i, TimedOut) && i in Run(events).workers
    requires IsAt(Run(events), j, Checked) && Run(events).callers[j].agent == Run(events).callers[i].agent
    ensures IsAt(Apply(Run(events), Register(j)), j, Refused)
    ensures Apply(Run(events), Register(j)).registry == Run(events).registry
  {
    RunKeepsInv(events);
    assert WorkerOk(Run(events), i);
    AdmittedExactlyWhenFree(events, j);
  }

  /** A batch of `agent` belongs to some other invocation of the same agent. */
  ghost predicate TakenOver(w: World, agent: Agent, i: Invocation) {
    exists j :: j != i && j in w.issued && j in w.callers && w.callers[j].agent == agent &&
                LogOf(w, agent).batch == Some(Batch(j, w.issued[j]))
  }

  /**
   * Attribution: a snapshot holds this invocation's receipts, all of them and in attempt order, unless a
   * later call has started on the agent, and then it holds nothing.
   */
  lemma SnapshotIsOwnReceipts(events: seq<Event>, i: Invocation)
    requires i in Run(events).callers
    ensures var w := Run(events);
            var rows := Snapshot(LogOf(w, w.callers[i].agent), i);
            if TakenOver(w, w.callers[i].agent, i) then rows == [] else rows == Issued(w, i)
    ensures Run(events).callers[i].stage in {Called, Checked, Refused, StartFailed} ==>
              Snapshot(LogOf(Run(events), Run(events).callers[i].agent), i) == []
  {
    RunKeepsInv(events);
    var w := Run(events);
    var agent := w.callers[i].agent;
    assert LogOk(w, agent) && CallerOk(w, i) && WorkerOk(w, i);
    LogNeverCleared(events, i);
  }

  /** Once an invocation has issued a batch, its agent always has one. */
  lemma {:induction false} LogNeverCleared(events: seq<Event>, i: Invocation)
    ensures i in Run(events).issued ==>
              i in Run(events).callers && LogOf(Run(events), Run(events).callers[i].agent).batch.Some?
  {
    if events != [] {
      var before := Run(events[..|events| - 1]);
      LogNeverCleared(events[..|events| - 1], i);
      RunKeepsInv(events[..|events| - 1]);
      BatchStays(before, events[|events| - 1], i);
    }
  }

  lemma BatchStays(w: World, e: Event, i: Invocation)
    requires Inv(w)
    requires i in w.issued ==> i in w.callers && LogOf(w, w.callers[i].agent).batch.Some?
    ensures i in Apply(w, e).issued ==>
              i in Apply(w, e).callers && LogOf(Apply(w, e), Apply(w, e).callers[i].agent).batch.Some?
  {
    assert WorkerOk(w, i) && CallerOk(w, i) && WorkerOk(w, Subject(e)) && CallerOk(w, w.next);
  }

  /** The check before the call refuses exactly while a worker of the agent is alive, and changes nothing else. */
  lemma RefusedExactlyWhileBusy(events: seq<Event>, j: Invocation)
    requires IsAt(Run(events), j, Called)
    ensures var w := Run(events);
            var next := Apply(w, Ensure(j));
            IsAt(next, j, if Busy(w, w.callers[j].agent) then Refused else Checked) &&
            next.registry == w.registry && next.workers == w.workers && next.logs == w.logs
  {
    var w := Run(events);
    RunKeepsInv(events);
    var agent := w.callers[j].agent;
    assert EntryOk(w, agent);
    if i :| i in w.workers && w.workers[i].agent == agent { assert WorkerOk(w, i); }
  }

  predicate Over(w: World, i: Invocation) {
    IsAt(w, i, Returned) || IsAt(w, i, StartFailed) || IsAt(w, i, Refused)
  }

  lemma OverStays(w: World, e: Event, i: Invocation)
    requires CallerOk(w, i) && WorkerOk(w, i) && (Over(w, i) ==> i !in w.workers)
    ensures Over(Apply(w, e), i) ==> i !in Apply(w, e).workers
  {
  }

  /** Only a caller that gave up leaves a worker behind: any other way to end leaves none. */
  lemma {:induction false} OnlyATimeoutLeavesAWorker(events: seq<Event>, i: Invocation)
    ensures Over(Run(events), i) ==> i !in Run(events).workers
  {
    if events != [] {
      var before := events[..|events| - 1];
      OnlyATimeoutLeavesAWorker(before, i);
      RunKeepsInv(before);
      assert CallerOk(Run(before), i) && WorkerOk(Run(before), i);
      OverStays(Run(before), events[|events| - 1], i);
      hide Apply, Over;
    }
  }

  /** A worker's receipts go to its own caller, appended or in place of the last, and to nobody else. */
  lemma ReceiptsReachTheirCallerOnly(events: seq<Event>, i: Invocation, r: Receipt, a: Agent, k: Invocation)
    requires i in Run(events).workers && Run(events).workers[i].acting
    ensures var w := Run(events);
            var mine := Snapshot(LogOf(w, w.workers[i].agent), i);
            var added, replaced := Apply(w, Remember(i, r)), Apply(w, Replace(i, r));
            && Snapshot(LogOf(added, w.workers[i].agent), i) == mine + [r]
            && Snapshot(LogOf(replaced, w.workers[i].agent), i)
               == (if mine == [] then [] else mine[..|mine| - 1]) + [r]
            && (k != i || a != w.workers[i].agent ==>
                  Snapshot(LogOf(added, a), k) == Snapshot(LogOf(w, a), k)
                  && Snapshot(LogOf(replaced, a), k) == Snapshot(LogOf(w, a), k))
  {
    RunKeepsInv(events);
    assert WorkerOk(Run(events), i);
  }

  /** Between admission and start nothing acts, and nobody may give up or collect. */
  predicate OnlyLaunches(w: World, j: Invocation) {
    && j in w.workers && !w.workers[j].started
    && Apply(w, Act(j)) == w && Apply(w, Finish(j)) == w && Apply(w, GiveUp(j)) == w
    && Apply(w, Collect(j)) == w
  }

  predicate Runs(w: World, j: Invocation) {
    && j in w.workers && w.workers[j].started && IsAt(w, j, Waiting)
    && j in Apply(w, Act(j)).workers && Apply(w, Act(j)).workers[j].acting
    && IsAt(Apply(w, GiveUp(j)), j, TimedOut)
  }

  lemma AdmittedOnlyLaunches(w: World, j: Invocation)
    requires IsAt(w, j, Checked) && Admits(w.registry, w.callers[j].agent)
    ensures OnlyLaunches(Apply(w, Register(j)), j)
  {
  }

  lemma LaunchedRuns(w: World, j: Invocation)
    requires IsAt(w, j, Checked) && Admits(w.registry, w.callers[j].agent)
    ensures var admitted := Apply(w, Register(j));
            var started := Apply(admitted, Launch(j, true));
            Runs(started, j) && started.registry == admitted.registry
  {
  }

  lemma FailedStartUndoes(w: World, j: Invocation)
    requires IsAt(w, j, Checked) && Admits(w.registry, w.callers[j].agent) && j !in w.workers
    ensures var undone := Apply(Apply(w, Register(j)), Launch(j, false));
            IsAt(undone, j, StartFailed) && undone.workers == w.workers && undone.registry == w.registry
  {
    var agent := w.callers[j].agent;
    assert (w.registry.calls[agent := j]) - {agent} == w.registry.calls;
    assert (w.workers[j := Worker(agent, false, false)]) - {j} == w.workers;
  }

  /**
   An admitted call whose thread starts runs under the entry and permit it took; one whose thread cannot
   start gives both back at once.
   */
  lemma LaunchStartsOrUndoes(events: seq<Event>, j: Invocation)
    requires IsAt(Run(events), j, Checked) && Admits(Run(events).registry, Run(events).callers[j].agent)
    ensures var w := Run(events);
            var admitted := Apply(w, Register(j));
            var started, undone := Apply(admitted, Launch(j, true)), Apply(admitted, Launch(j, false));
            && OnlyLaunches(admitted, j)
            && Runs(started, j) && started.registry == admitted.registry
            && IsAt(undone, j, StartFailed) && undone.workers == w.workers && undone.registry == w.registry
  {
    hide Apply, OnlyLaunches, Runs, WorkerOk, EntryOk, LogOk;
    var w := Run(events);
    RunKeepsInv(events);
    assert CallerOk(w, j);
    AdmittedOnlyLaunches(w, j);
    LaunchedRuns(w, j);
    FailedStartUndoes(w, j);
  }
}

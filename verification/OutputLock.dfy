/** Output guards: who may write an output, over every interleaving of processes, failures and crashes. */
module OutputLock {
  import opened Options

  type Guard = string
  type Proc = nat
  type Inode = nat

  const MARKER := "eslams.output-lock.v2\n"

  datatype File = File(regular: bool, content: string)

  const VALID := File(true, MARKER)

  /** Where a process stands inside `_acquire`. `Writing` and `Locked` own an unpublished setup inode. */
  datatype Pc =
    | Idle
    | Opened(guard: Guard, inode: Inode)
    | Checked(guard: Guard, inode: Inode)
    | NotFound(guard: Guard)
    | Writing(guard: Guard, inode: Inode)
    | Locked(guard: Guard, inode: Inode)
    | Again(guard: Guard)

  /** `owner` maps a locked inode to the descriptor that holds it, one per process and guard. */
  datatype World = World(
    guards: map<Guard, Inode>,
    files: map<Inode, File>,
    owner: map<Inode, (Proc, Guard)>,
    held: map<(Proc, Guard), Inode>,
    pcs: map<Proc, Pc>,
    next: Inode)

  /** One call into the operating system, by one process. */
  datatype Event =
    | Open(proc: Proc, path: Guard)
    | Check(proc: Proc)
    | Lock(proc: Proc)
    | Create(proc: Proc)
    | Write(proc: Proc, count: nat)
    | LockOwn(proc: Proc)
    | Link(proc: Proc)
    | Reopen(proc: Proc)
    | Release(proc: Proc, path: Guard)
    | Fail(proc: Proc)
    | Crash(proc: Proc)

  function At(w: World, p: Proc): Pc {
    if p in w.pcs then w.pcs[p] else Idle
  }

  function Goto(w: World, p: Proc, pc: Pc): World {
    w.(pcs := w.pcs[p := pc])
  }

  /** Closing a descriptor drops the lock it holds. */
  function Abandon(w: World, p: Proc): World {
    var pc := At(w, p);
    Goto(if pc.Locked? then w.(owner := w.owner - {pc.inode}) else w, p, Idle)
  }

  function Reading(w: World, p: Proc, g: Guard, absent: Pc): World {
    Goto(w, p, if g in w.guards then Opened(g, w.guards[g]) else absent)
  }

  function Shorter(a: nat, b: nat): nat { if a < b then a else b }

  function Written(file: File, count: nat): File {
    var size := Shorter(|file.content| + count, |MARKER|);
    file.(content := MARKER[..size])
  }

  /** A killed process loses its position and, through the kernel, every lock. */
  function Crashed(w: World, p: Proc): World {
    w.(owner := map i | i in w.owner && w.owner[i].0 != p :: w.owner[i],
       held := map k | k in w.held && k.0 != p :: w.held[k],
       pcs := w.pcs[p := Idle])
  }

  /** The effect of one call; a call its process is not ready for changes nothing. */
  function Apply(w: World, e: Event): World {
    var p := e.proc;
    var pc := At(w, p);
    match e
    case Open(_, g) => if pc.Idle? then Reading(w, p, g, NotFound(g)) else w
    case Check(_) =>
      if pc.Opened? then
        if pc.inode in w.files && w.files[pc.inode] == VALID
        then Goto(w, p, Checked(pc.guard, pc.inode)) else Abandon(w, p)
      else w
    case Lock(_) =>
      if pc.Checked? then
        if pc.inode in w.owner then Abandon(w, p)
        else Goto(w.(owner := w.owner[pc.inode := (p, pc.guard)],
                     held := w.held[(p, pc.guard) := pc.inode]), p, Idle)
      else w
    case Create(_) =>
      if pc.NotFound?
      then Goto(w.(files := w.files[w.next := File(true, "")], next := w.next + 1), p, Writing(pc.guard, w.next))
      else w
    case Write(_, n) =>
      if pc.Writing? && pc.inode in w.files then
        if n == 0 then Abandon(w, p)
        else w.(files := w.files[pc.inode := Written(w.files[pc.inode], n)])
      else w
    case LockOwn(_) =>
      if pc.Writing? && pc.inode in w.files && w.files[pc.inode] == VALID then
        if pc.inode in w.owner then Abandon(w, p)
        else Goto(w.(owner := w.owner[pc.inode := (p, pc.guard)]), p, Locked(pc.guard, pc.inode))
      else w
    case Link(_) =>
      if pc.Locked? then
        if pc.guard in w.guards then Goto(w.(owner := w.owner - {pc.inode}), p, Again(pc.guard))
        else Goto(w.(guards := w.guards[pc.guard := pc.inode],
                     held := w.held[(p, pc.guard) := pc.inode]), p, Idle)
      else w
    case Reopen(_) => if pc.Again? then Reading(w, p, pc.guard, Idle) else w
    case Release(_, g) =>
      if (p, g) in w.held
      then w.(owner := w.owner - {w.held[(p, g)]}, held := w.held - {(p, g)})
      else w
    case Fail(_) => Abandon(w, p)
    case Crash(_) => Crashed(w, p)
  }

  function Run(w: World, events: seq<Event>): World {
    if events == [] then w else Apply(Run(w, events[..|events| - 1]), events[|events| - 1])
  }

  /** Any guards, legacy ones included, and nobody running. */
  predicate Start(w: World) {
    w.owner == map[] && w.held == map[] && w.pcs == map[] &&
    (forall g :: g in w.guards ==> w.guards[g] in w.files) &&
    (forall i :: i in w.files ==> i < w.next)
  }

  // ---- the invariant ----

  predicate GuardOk(w0: World, w: World, g: Guard) {
    g in w.guards ==>
      w.guards[g] in w.files &&
      (if g in w0.guards
       then w0.guards[g] in w0.files && w.files[w.guards[g]] == w0.files[w0.guards[g]]
       else w.files[w.guards[g]] == VALID)
  }

  predicate HeldOk(w: World, k: (Proc, Guard)) {
    k in w.held ==>
      k.1 in w.guards && w.guards[k.1] == w.held[k] &&
      w.held[k] in w.owner && w.owner[w.held[k]] == k &&
      w.held[k] in w.files && w.files[w.held[k]] == VALID
  }

  ghost predicate Unpublished(w: World, i: Inode) {
    i in w.files && forall g :: g in w.guards ==> w.guards[g] != i
  }

  ghost predicate PcOk(w: World, p: Proc) {
    match At(w, p)
    case Idle => true
    case Opened(g, i) => g in w.guards && w.guards[g] == i
    case Checked(g, i) => g in w.guards && w.guards[g] == i && i in w.files && w.files[i] == VALID
    case NotFound(g) => (p, g) !in w.held
    case Writing(g, i) =>
      (p, g) !in w.held && Unpublished(w, i) && i !in w.owner &&
      w.files[i].regular && w.files[i].content <= MARKER
    case Locked(g, i) =>
      (p, g) !in w.held && Unpublished(w, i) && i in w.owner && w.owner[i] == (p, g) && w.files[i] == VALID
    case Again(g) => g in w.guards
  }

  predicate HasSetup(pc: Pc, i: Inode) {
    (pc.Writing? || pc.Locked?) && pc.inode == i
  }

  predicate OwnerOk(w: World, i: Inode) {
    i in w.owner ==>
      var k := w.owner[i];
      (k in w.held && w.held[k] == i) || At(w, k.0) == Locked(k.1, i)
  }

  predicate Separate(w: World, p: Proc, q: Proc) {
    p != q && (At(w, p).Writing? || At(w, p).Locked?) ==> !HasSetup(At(w, q), At(w, p).inode)
  }

  ghost predicate Inv(w0: World, w: World) {
    (forall g :: g in w0.guards ==> g in w.guards && w.guards[g] == w0.guards[g]) &&
    (forall g :: GuardOk(w0, w, g)) &&
    (forall k :: HeldOk(w, k)) &&
    (forall p :: PcOk(w, p)) &&
    (forall i :: OwnerOk(w, i)) &&
    (forall p, q :: Separate(w, p, q)) &&
    (forall i :: i in w.files ==> i < w.next)
  }

  lemma StartIsInv(w: World)
    requires Start(w)
    ensures Inv(w, w)
  {
  }

  lemma GuardStep(w0: World, w: World, e: Event, g: Guard)
    requires Inv(w0, w)
    ensures GuardOk(w0, Apply(w, e), g)
  {
    assert GuardOk(w0, w, g) && PcOk(w, e.proc);
  }

  lemma HeldStep(w0: World, w: World, e: Event, k: (Proc, Guard))
    requires Inv(w0, w)
    ensures HeldOk(Apply(w, e), k)
  {
    assert HeldOk(w, k) && PcOk(w, e.proc);
    if e.Release? { assert HeldOk(w, (e.proc, e.path)); }
  }

  /** An inode not yet numbered is neither locked nor published nor anybody's setup file. */
  lemma NextIsNew(w0: World, w: World)
    requires Inv(w0, w)
    ensures w.next !in w.owner && forall g :: g in w.guards ==> w.guards[g] != w.next
    ensures forall p :: !HasSetup(At(w, p), w.next)
  {
    assert OwnerOk(w, w.next);
    if w.next in w.owner { assert HeldOk(w, w.owner[w.next]) && PcOk(w, w.owner[w.next].0); }
    forall g | g in w.guards ensures w.guards[g] != w.next { assert GuardOk(w0, w, g); }
    forall p ensures !HasSetup(At(w, p), w.next) { assert PcOk(w, p); }
  }

  lemma OwnPcStep(w0: World, w: World, e: Event)
    requires Inv(w0, w)
    ensures PcOk(Apply(w, e), e.proc)
  {
    assert PcOk(w, e.proc);
    if e.Open? || e.Release? { assert HeldOk(w, (e.proc, e.path)); }
    if e.Create? { NextIsNew(w0, w); }
  }

  /** What one call may do to names and files: only its own setup inode is published or written. */
  lemma FilesFootprint(w: World, e: Event)
    ensures forall g :: g in w.guards ==> g in Apply(w, e).guards && Apply(w, e).guards[g] == w.guards[g]
    ensures forall g :: g in Apply(w, e).guards && g !in w.guards ==>
              HasSetup(At(w, e.proc), Apply(w, e).guards[g])
    ensures forall i :: i in w.files && i != w.next ==>
              i in Apply(w, e).files && (Apply(w, e).files[i] == w.files[i] || HasSetup(At(w, e.proc), i))
  {
  }

  /** What one call may do to locks: it never takes, drops or replaces a lock of another process. */
  lemma LocksFootprint(w: World, e: Event)
    requires PcOk(w, e.proc) && (e.Release? ==> HeldOk(w, (e.proc, e.path)))
    ensures forall k :: k in Apply(w, e).held && k.0 != e.proc ==> k in w.held
    ensures forall i :: i in w.owner && w.owner[i].0 != e.proc ==>
              i in Apply(w, e).owner && Apply(w, e).owner[i] == w.owner[i]
    ensures forall i :: i in Apply(w, e).owner && i !in w.owner ==>
              HasSetup(At(w, e.proc), i) || At(w, e.proc) == Checked(Apply(w, e).owner[i].1, i)
  {
  }

  lemma OtherPcStep(w0: World, w: World, e: Event, p: Proc)
    requires Inv(w0, w) && p != e.proc
    ensures At(Apply(w, e), p) == At(w, p) && PcOk(Apply(w, e), p)
  {
    hide Apply;
    assert PcOk(w, p) && PcOk(w, e.proc) && Separate(w, p, e.proc);
    SamePc(w, e, p);
    FilesFootprint(w, e);
    if e.Release? { assert HeldOk(w, (e.proc, e.path)); }
    LocksFootprint(w, e);
    var i := match At(w, p) case Opened(_, i) => i case Checked(_, i) => i case Writing(_, i) => i
                            case Locked(_, i) => i case _ => 0;
    assert HasSetup(At(w, p), i) ==> !HasSetup(At(w, e.proc), i);
  }

  lemma OwnerStep(w: World, e: Event, i: Inode)
    requires OwnerOk(w, i) && PcOk(w, e.proc)
    requires At(w, e.proc).Checked? ==> HeldOk(w, (e.proc, At(w, e.proc).guard))
    ensures OwnerOk(Apply(w, e), i)
  {
  }

  lemma SeparateStep(w0: World, w: World, e: Event, p: Proc, q: Proc)
    requires Inv(w0, w)
    ensures Separate(Apply(w, e), p, q)
  {
    assert Separate(w, p, q);
    if e.Create? { NextIsNew(w0, w); }
    if p != e.proc { SamePc(w, e, p); } else { SetupKept(w, e); }
    if q != e.proc { SamePc(w, e, q); } else { SetupKept(w, e); }
  }

  lemma SamePc(w: World, e: Event, p: Proc)
    requires p != e.proc
    ensures At(Apply(w, e), p) == At(w, p)
  {
  }

  /** A process only ever stands on the setup inode it already had, unless it has just created one. */
  lemma SetupKept(w: World, e: Event)
    ensures forall i :: HasSetup(At(Apply(w, e), e.proc), i) ==>
              HasSetup(At(w, e.proc), i) || (e.Create? && i == w.next)
  {
  }

  lemma NextNumber(w0: World, w: World, e: Event)
    requires Inv(w0, w)
    ensures forall i :: i in Apply(w, e).files ==> i < Apply(w, e).next
  {
  }

  lemma StepKeepsInv(w0: World, w: World, e: Event)
    requires Inv(w0, w)
    ensures Inv(w0, Apply(w, e))
  {
    var next := Apply(w, e);
    FilesFootprint(w, e);
    NextNumber(w0, w, e);
    hide Apply, GuardOk, HeldOk, PcOk, OwnerOk, Separate;
    forall g ensures GuardOk(w0, next, g) { GuardStep(w0, w, e, g); }
    forall k ensures HeldOk(next, k) { HeldStep(w0, w, e, k); }
    forall p ensures PcOk(next, p) {
      if p == e.proc { OwnPcStep(w0, w, e); } else { OtherPcStep(w0, w, e, p); }
    }
    forall i ensures OwnerOk(next, i) {
      assert PcOk(w, e.proc) && OwnerOk(w, i);
      if At(w, e.proc).Checked? { assert HeldOk(w, (e.proc, At(w, e.proc).guard)); }
      OwnerStep(w, e, i);
    }
    forall p, q ensures Separate(next, p, q) { SeparateStep(w0, w, e, p, q); }
  }

  lemma {:induction false} RunKeepsInv(w: World, events: seq<Event>)
    requires Start(w)
    ensures Inv(w, Run(w, events))
  {
    if events == [] {
      StartIsInv(w);
    } else {
      RunKeepsInv(w, events[..|events| - 1]);
      StepKeepsInv(w, Run(w, events[..|events| - 1]), events[|events| - 1]);
    }
  }

  // ---- what holds in every run ----

  lemma MutualExclusion(w: World, events: seq<Event>, p: Proc, q: Proc, g: Guard)
    requires Start(w) && (p, g) in Run(w, events).held && (q, g) in Run(w, events).held
    ensures p == q
  {
    RunKeepsInv(w, events);
    assert HeldOk(Run(w, events), (p, g)) && HeldOk(Run(w, events), (q, g));
  }

  /** A regular file that holds the one marker line and nothing else. */
  predicate Complete(file: File) {
    file.regular && file.content == "eslams.output-lock.v2\n"
  }

  /** A guard that was absent or complete is complete whenever its name is visible. */
  lemma NeverHalfWritten(w: World, events: seq<Event>, g: Guard)
    requires Start(w) && (g in w.guards ==> Complete(w.files[w.guards[g]]))
    requires g in Run(w, events).guards
    ensures Run(w, events).guards[g] in Run(w, events).files
    ensures Complete(Run(w, events).files[Run(w, events).guards[g]])
  {
    RunKeepsInv(w, events);
    assert GuardOk(w, Run(w, events), g);
  }

  lemma {:induction false} RunConcat(w: World, a: seq<Event>, b: seq<Event>)
    ensures Run(w, a + b) == Run(Run(w, a), b)
  {
    if b == [] {
      assert a + b == a;
    } else {
      RunConcat(w, a, b[..|b| - 1]);
      assert (a + b)[..|a + b| - 1] == a + b[..|b| - 1];
    }
  }

  /** Once linked, a guard name keeps its inode for ever. */
  lemma {:induction false} GuardKeepsItsInode(w: World, before: seq<Event>, after: seq<Event>, g: Guard)
    requires g in Run(w, before).guards
    ensures g in Run(w, before + after).guards && Run(w, before + after).guards[g] == Run(w, before).guards[g]
  {
    RunConcat(w, before, after);
    if after != [] {
      var most := after[..|after| - 1];
      GuardKeepsItsInode(w, before, most, g);
      RunConcat(w, before, most);
      FilesFootprint(Run(w, before + most), after[|after| - 1]);
    }
  }

  /** An operator's view: some run admits a process exactly when the guard was absent or complete. */
  lemma AdmitsExactlyWhenAbsentOrComplete(w: World, p: Proc, g: Guard)
    requires Start(w)
    ensures (exists events :: (p, g) in Run(w, events).held) <==> (g in w.guards ==> Complete(w.files[w.guards[g]]))
  {
    if events :| (p, g) in Run(w, events).held {
      RunKeepsInv(w, events);
      assert HeldOk(Run(w, events), (p, g)) && GuardOk(w, Run(w, events), g);
    }
    if g in w.guards && w.files[w.guards[g]] == VALID {
      AcquireExisting(w, [], p, g);
      assert (p, g) in Run(w, [] + [Open(p, g)] + [Check(p)] + [Lock(p)]).held;
    } else if g !in w.guards {
      AcquireNew(w, p, g);
    }
  }

  lemma RunOne(w: World, events: seq<Event>, e: Event)
    ensures Run(w, events + [e]) == Apply(Run(w, events), e)
  {
    assert (events + [e])[..|events + [e]| - 1] == events;
  }

  lemma AcquireExisting(w: World, events: seq<Event>, p: Proc, g: Guard)
    requires var now := Run(w, events);
             At(now, p).Idle? && g in now.guards && now.guards[g] !in now.owner &&
             now.guards[g] in now.files && now.files[now.guards[g]] == VALID
    ensures (p, g) in Run(w, events + [Open(p, g)] + [Check(p)] + [Lock(p)]).held
  {
    RunOne(w, events, Open(p, g));
    RunOne(w, events + [Open(p, g)], Check(p));
    RunOne(w, events + [Open(p, g)] + [Check(p)], Lock(p));
  }

  lemma SetupIsReady(w: World, p: Proc, g: Guard)
    requires At(w, p).Idle? && g !in w.guards
    ensures var now := Apply(Apply(Apply(w, Open(p, g)), Create(p)), Write(p, |MARKER|));
            At(now, p) == Writing(g, w.next) && w.next in now.files && now.files[w.next] == VALID &&
            now.owner == w.owner && now.guards == w.guards
  {
    var created := Apply(Apply(w, Open(p, g)), Create(p));
    assert created.files[w.next] == File(true, "");
    assert Written(File(true, ""), |MARKER|).content == MARKER[..|MARKER|] == MARKER;
  }

  lemma PublishSetup(w: World, p: Proc, g: Guard)
    requires At(w, p).Writing? && At(w, p).guard == g && g !in w.guards
    requires At(w, p).inode in w.files && w.files[At(w, p).inode] == VALID && At(w, p).inode !in w.owner
    ensures (p, g) in Apply(Apply(w, LockOwn(p)), Link(p)).held
  {
  }

  lemma AcquireNew(w: World, p: Proc, g: Guard)
    requires Start(w) && g !in w.guards
    ensures exists events :: (p, g) in Run(w, events).held
  {
    hide Apply, Run;
    SetupIsReady(w, p, g);
    PublishSetup(Apply(Apply(Apply(w, Open(p, g)), Create(p)), Write(p, |MARKER|)), p, g);
    RunFive(w, Open(p, g), Create(p), Write(p, |MARKER|), LockOwn(p), Link(p));
    assert (p, g) in Run(w, [Open(p, g)] + [Create(p)] + [Write(p, |MARKER|)] + [LockOwn(p)] + [Link(p)]).held;
  }

  lemma RunFive(w: World, a: Event, b: Event, c: Event, d: Event, e: Event)
    ensures Run(w, [a] + [b] + [c] + [d] + [e]) == Apply(Apply(Apply(Apply(Apply(w, a), b), c), d), e)
  {
    hide Apply;
    RunOne(w, [], a);
    assert [] + [a] == [a];
    RunOne(w, [a], b);
    RunOne(w, [a] + [b], c);
    RunOne(w, [a] + [b] + [c], d);
    RunOne(w, [a] + [b] + [c] + [d], e);
  }

  /** After a crash the guards of the dead process are free at once: any idle process takes them. */
  lemma CrashFreesItsGuards(w: World, events: seq<Event>, p: Proc, q: Proc, g: Guard)
    requires Start(w) && (p, g) in Run(w, events).held && p != q && At(Run(w, events), q).Idle?
    ensures (p, g) !in Run(w, events + [Crash(p)]).held
    ensures (q, g) in Run(w, events + [Crash(p)] + [Open(q, g)] + [Check(q)] + [Lock(q)]).held
  {
    RunKeepsInv(w, events);
    assert HeldOk(Run(w, events), (p, g));
    RunOne(w, events, Crash(p));
    AcquireExisting(w, events + [Crash(p)], q, g);
  }
}

/** The acquiring code itself, one operating-system call at a time, among other processes. */
module OutputGuard {
  import opened OutputLock

  /** What the calls of other processes cannot take from `me`. */
  ghost predicate Kept(w: World, next: World, me: Proc) {
    At(next, me) == At(w, me) &&
    (forall g :: (me, g) in next.held <==> (me, g) in w.held) &&
    (forall i :: i in w.files && HasSetup(At(w, me), i) ==> i in next.files && next.files[i] == w.files[i])
  }

  lemma OthersKeep(w0: World, w: World, e: Event, me: Proc)
    requires Inv(w0, w) && e.proc != me
    ensures Kept(w, Apply(w, e), me)
  {
    SamePc(w, e, me);
    FilesFootprint(w, e);
    assert Separate(w, me, e.proc) && PcOk(w, me);
    if At(w, me).Writing? || At(w, me).Locked? { NextIsNew(w0, w); }
    HeldOfOthers(w, e, me);
    hide Apply;
  }

  lemma HeldOfOthers(w: World, e: Event, me: Proc)
    requires e.proc != me
    ensures forall g :: (me, g) in Apply(w, e).held <==> (me, g) in w.held
  {
  }

  predicate SameHeld(w: World, next: World, p: Proc) {
    w.held.Keys == next.held.Keys
  }

  predicate HeldOnlyMore(w: World, next: World, p: Proc, g: Guard) {
    next.held.Keys == w.held.Keys + {(p, g)}
  }

  /** Where each reading or locking call can leave its process. */
  lemma ReadingCalls(w: World, p: Proc, g: Guard)
    ensures At(w, p).Idle? ==>
              var next := Apply(w, Open(p, g));
              SameHeld(w, next, p) &&
              (At(next, p).NotFound? || At(next, p).Opened?) && At(next, p).guard == g
    ensures At(w, p).Opened? ==>
              var next := Apply(w, Check(p));
              SameHeld(w, next, p) && (At(next, p).Idle? || At(next, p) == Checked(At(w, p).guard, At(w, p).inode))
    ensures At(w, p).Again? ==>
              var next := Apply(w, Reopen(p));
              SameHeld(w, next, p) && (At(next, p).Idle? || (At(next, p).Opened? && At(next, p).guard == At(w, p).guard))
    ensures var next := Apply(w, Fail(p)); SameHeld(w, next, p) && At(next, p).Idle?
  {
  }

  lemma LockingCalls(w: World, p: Proc)
    ensures At(w, p).Checked? ==>
              var next := Apply(w, Lock(p));
              At(next, p).Idle? && (SameHeld(w, next, p) || HeldOnlyMore(w, next, p, At(w, p).guard))
    ensures At(w, p).Writing? && At(w, p).inode in w.files && w.files[At(w, p).inode] == VALID ==>
              var next := Apply(w, LockOwn(p));
              SameHeld(w, next, p) && (At(next, p).Idle? || At(next, p) == Locked(At(w, p).guard, At(w, p).inode))
    ensures At(w, p).Locked? ==>
              var next := Apply(w, Link(p));
              if At(next, p).Idle? then HeldOnlyMore(w, next, p, At(w, p).guard)
              else SameHeld(w, next, p) && At(next, p) == Again(At(w, p).guard)
  {
  }

  lemma WritingCalls(w: World, p: Proc, n: nat)
    ensures At(w, p).NotFound? ==>
              var next := Apply(w, Create(p));
              SameHeld(w, next, p) && At(next, p).Writing? && At(next, p).guard == At(w, p).guard &&
              At(next, p).inode in next.files && next.files[At(next, p).inode] == File(true, "")
    ensures At(w, p).Writing? && At(w, p).inode in w.files ==>
              var next := Apply(w, Write(p, n));
              SameHeld(w, next, p) &&
              if n == 0 then At(next, p).Idle?
              else At(next, p) == At(w, p) && At(w, p).inode in next.files &&
                   next.files[At(w, p).inode] == Written(w.files[At(w, p).inode], n)
  {
  }

  /** One process, `me`, with a schedule of everybody else's calls and an oracle for failing calls. */
  class System {
    var world: World
    var tick: nat
    const me: Proc
    const schedule: nat -> seq<Event>
    const faults: nat -> bool
    const counts: nat -> nat
    ghost const start: World
    ghost var log: seq<Event>

    constructor (world: World, me: Proc, schedule: nat -> seq<Event>, faults: nat -> bool, counts: nat -> nat)
      requires Start(world)
      ensures Valid() && log == [] && this.world == world && this.me == me
    {
      this.world, this.me, this.schedule, this.faults, this.counts := world, me, schedule, faults, counts;
      this.tick, this.start, this.log := 0, world, [];
    }

    /** Every state is one that the interleaved machine reaches. */
    ghost predicate Valid()
      reads this
    {
      Start(start) && world == Run(start, log)
    }

    method Others()
      requires Valid()
      modifies this`world, this`tick, this`log
      ensures Valid() && old(log) <= log && Kept(old(world), world, me)
    {
      hide Apply, Start, Kept, Inv;
      var calls := schedule(tick);
      tick := tick + 1;
      var i := 0;
      Reflexive(world, me);
      while i < |calls|
        invariant Valid() && old(log) <= log && Kept(old(world), world, me)
      {
        if calls[i].proc != me {
          RunKeepsInv(start, log);
          RunOne(start, log, calls[i]);
          OthersKeep(start, world, calls[i], me);
          Transitive(old(world), world, Apply(world, calls[i]), me);
          world, log := Apply(world, calls[i]), log + [calls[i]];
        }
        i := i + 1;
      }
    }

    /** One call of `me`, which may raise instead, followed by whatever the others do. */
    method Call(e: Event) returns (raised: bool)
      requires Valid() && e.proc == me
      modifies this`world, this`tick, this`log
      ensures Valid() && old(log) <= log
      ensures Kept(Apply(old(world), if raised then Fail(me) else e), world, me)
    {
      hide Apply, Start, Kept;
      raised := faults(tick);
      var done := if raised then Fail(me) else e;
      RunOne(start, log, done);
      world, log := Apply(world, done), log + [done];
      Others();
    }

    /** The tail of `_open_existing`: the open descriptor is checked, then locked or closed. */
    method Finish(g: Guard) returns (ok: bool)
      requires Valid() && (At(world, me).Opened? ==> At(world, me).guard == g)
      requires At(world, me).Opened? || At(world, me).Idle?
      requires (me, g) !in world.held
      modifies this`world, this`tick, this`log
      ensures Valid() && old(log) <= log && At(world, me).Idle?
      ensures ok <==> (me, g) in world.held
      ensures forall h :: h != g ==> ((me, h) in world.held <==> (me, h) in old(world).held)
    {
      hide Apply, Start;
      if At(world, me).Idle? { return false; }
      ReadingCalls(world, me, g);
      var raised := Call(Check(me));
      if At(world, me).Idle? { return false; }
      LockingCalls(world, me);
      ReadingCalls(world, me, g);
      raised := Call(Lock(me));
      ok := (me, g) in world.held;
    }

    /** Fill the private setup file; `os.write` may write any part of what is left. */
    method WriteMarker(g: Guard) returns (raised: bool)
      requires Valid() && At(world, me).Writing? && At(world, me).guard == g
      requires At(world, me).inode in world.files && world.files[At(world, me).inode] == File(true, "")
      modifies this`world, this`tick, this`log
      ensures Valid() && old(log) <= log
      ensures raised ==> At(world, me).Idle?
      ensures !raised ==>
                At(world, me) == old(At(world, me)) && At(world, me).inode in world.files &&
                world.files[At(world, me).inode] == VALID
      ensures forall h :: (me, h) in world.held <==> (me, h) in old(world).held
    {
      hide Apply, Start;
      var pc := At(world, me);
      var written := 0;
      raised := false;
      assert MARKER[..0] == "";
      while written < |MARKER|
        invariant Valid() && old(log) <= log && 0 <= written <= |MARKER| && !raised
        invariant At(world, me) == pc && pc.inode in world.files
        invariant world.files[pc.inode] == File(true, MARKER[..written])
        invariant forall h :: (me, h) in world.held <==> (me, h) in old(world).held
      {
        var count := Shorter(counts(tick), |MARKER| - written);
        WritingCalls(world, me, count);
        ReadingCalls(world, me, g);
        raised := Call(Write(me, count));
        if raised || count == 0 { return true; }
        written := written + count;
      }
      assert MARKER[..|MARKER|] == MARKER;
    }

    /** Make a private setup file and fill and lock it. */
    method Prepare(g: Guard) returns (ok: bool)
      requires Valid() && At(world, me) == NotFound(g)
      modifies this`world, this`tick, this`log
      ensures Valid() && old(log) <= log
      ensures if ok then At(world, me).Locked? && At(world, me).guard == g else At(world, me).Idle?
      ensures forall h :: (me, h) in world.held <==> (me, h) in old(world).held
    {
      hide Apply, Start;
      WritingCalls(world, me, 0);
      ReadingCalls(world, me, g);
      var raised := Call(Create(me));
      if At(world, me).Idle? { return false; }
      raised := WriteMarker(g);
      if raised { return false; }
      LockingCalls(world, me);
      ReadingCalls(world, me, g);
      raised := Call(LockOwn(me));
      ok := At(world, me).Locked?;
    }

    /** Publish the prepared file under the guard name; if somebody else was first, open theirs. */
    method Publish(g: Guard) returns (ok: bool)
      requires Valid() && At(world, me) == NotFound(g) && (me, g) !in world.held
      modifies this`world, this`tick, this`log
      ensures Valid() && old(log) <= log && At(world, me).Idle?
      ensures ok <==> (me, g) in world.held
      ensures forall h :: h != g ==> ((me, h) in world.held <==> (me, h) in old(world).held)
    {
      hide Apply, Start;
      ok := Prepare(g);
      if !ok { return; }
      LockingCalls(world, me);
      ReadingCalls(world, me, g);
      var raised := Call(Link(me));
      if At(world, me).Idle? {
        ok := (me, g) in world.held;
      } else {
        ReadingCalls(world, me, g);
        raised := Call(Reopen(me));
        ok := Finish(g);
      }
    }

    /** `_acquire`: open a published guard, or publish a complete and already locked one. */
    method Acquire(g: Guard) returns (ok: bool)
      requires Valid() && At(world, me).Idle? && (me, g) !in world.held
      modifies this`world, this`tick, this`log
      ensures Valid() && old(log) <= log && At(world, me).Idle?
      ensures ok <==> (me, g) in world.held
      ensures forall h :: h != g ==> ((me, h) in world.held <==> (me, h) in old(world).held)
    {
      hide Apply, Start;
      ReadingCalls(world, me, g);
      var raised := Call(Open(me, g));
      if At(world, me).NotFound? {
        ok := Publish(g);
      } else {
        ok := Finish(g);
      }
    }
  }

  lemma Reflexive(w: World, me: Proc)
    ensures Kept(w, w, me)
  {
  }

  lemma Transitive(a: World, b: World, c: World, me: Proc)
    requires Kept(a, b, me) && Kept(b, c, me)
    ensures Kept(a, c, me)
  {
  }
}

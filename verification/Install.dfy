/** Install several finished outputs with backups and rollback. */
module Install {
  import opened Filesystem

  /** One output, with the random backup name drawn for its destination. */
  datatype Item = Item(source: Path, destination: Path, backup: Path) {
    function Paths(): set<Path> { {source, destination, backup} }
  }

  /** Where the loop stands with one output. */
  datatype Phase = Untouched | BackedUp | Linked | Installed | Removed | Restored | Cleaned | Littered

  /** Sources are new files or trees of a private staging directory; backup names are unused. */
  predicate Staged(was: Names, it: Item) {
    it.source in was && it.backup !in was &&
    it.source != it.destination && it.source != it.backup && it.destination != it.backup &&
    (it.destination in was ==> was[it.destination] != was[it.source])
  }

  predicate AllStaged(was: Names, items: seq<Item>) {
    (forall i :: 0 <= i < |items| ==> Staged(was, items[i])) &&
    (forall i, j :: 0 <= i < j < |items| ==> items[i].Paths() !! items[j].Paths())
  }

  predicate HasBackup(now: Names, was: Names, it: Item) {
    if it.destination in was
    then it.backup in now && now[it.backup] == was[it.destination]
    else it.backup !in now
  }

  predicate NewInPlace(now: Names, was: Names, it: Item)
    requires it.source in was
  {
    it.source !in now && it.destination in now && now[it.destination] == was[it.source]
  }

  predicate At(now: Names, was: Names, it: Item, phase: Phase)
    requires it.source in was
  {
    match phase
    case Untouched =>
      SameAt(now, was, it.source) && SameAt(now, was, it.destination) && it.backup !in now
    case BackedUp =>
      SameAt(now, was, it.source) && it.destination in was && HasBackup(now, was, it) &&
      (if was[it.destination].dir then it.destination !in now else SameAt(now, was, it.destination))
    case Linked =>
      HasBackup(now, was, it) && SameAt(now, was, it.source) &&
      it.destination in now && now[it.destination] == was[it.source]
    case Installed =>
      HasBackup(now, was, it) && NewInPlace(now, was, it)
    case Removed =>
      HasBackup(now, was, it) && it.destination !in now
    case Restored =>
      SameAt(now, was, it.destination) && it.backup !in now
    case Cleaned =>
      NewInPlace(now, was, it) && it.backup !in now
    case Littered =>
      NewInPlace(now, was, it) && it.destination in was && was[it.destination].dir
  }

  /** What was at the destination is still there or under the backup name. */
  predicate Reachable(now: Names, was: Names, it: Item) {
    it.destination in was ==>
      (it.destination in now && now[it.destination] == was[it.destination]) ||
      (it.backup in now && now[it.backup] == was[it.destination])
  }

  predicate AllReachableNow(now: Names, was: Names, items: seq<Item>) {
    forall i :: 0 <= i < |items| ==> Reachable(now, was, items[i])
  }

  /** An output that can be installed when no call fails. */
  predicate Installable(was: Names, it: Item, overwrite: bool, isArtifact: Node -> bool) {
    it.source in was &&
    (it.destination in was ==>
      overwrite &&
      (if was[it.destination].dir then isArtifact(was[it.destination]) else !was[it.source].dir))
  }

  /** An existing archive keeps its name, bound to the old file or to the new one. */
  predicate Continuous(h: Names, was: Names, it: Item)
    requires it.source in was
  {
    it.destination in was && !was[it.destination].dir ==>
      it.destination in h && (h[it.destination] == was[it.destination] || h[it.destination] == was[it.source])
  }

  /** Move an old directory aside; link an old archive so that it stays available to readers. */
  method SaveOld(disk: Disk, it: Item, ghost was: Names) returns (raised: bool)
    requires Staged(was, it) && At(disk.names, was, it, Untouched) && it.destination in was
    modifies disk
    ensures SameOutside(disk.names, old(disk.names), it.Paths())
    ensures At(disk.names, was, it, if raised then Untouched else BackedUp)
    ensures disk.clock == old(disk.clock) + 1
    ensures !disk.faults(old(disk.clock)) ==> !raised
    ensures disk.history == old(disk.history) + [disk.names] && Continuous(disk.names, was, it)
  {
    if disk.names[it.destination].dir {
      raised := disk.Rename(it.destination, it.backup);
    } else {
      raised := disk.Link(it.destination, it.backup);
    }
  }

  /** Give the finished source its destination name, refusing to replace anything unless `overwrite`. */
  method Place(disk: Disk, it: Item, overwrite: bool, ghost was: Names, ghost backedUp: bool)
    returns (raised: bool, installed: bool)
    requires Staged(was, it) && (backedUp <==> it.destination in was) && (backedUp ==> overwrite)
    requires At(disk.names, was, it, if backedUp then BackedUp else Untouched)
    modifies disk
    ensures SameOutside(disk.names, old(disk.names), it.Paths())
    ensures !raised ==> installed && At(disk.names, was, it, Installed)
    ensures raised && installed ==> At(disk.names, was, it, Linked)
    ensures !installed ==> At(disk.names, was, it, if backedUp then BackedUp else Untouched)
    ensures old(disk.clock) < disk.clock
    ensures Quiet(disk.faults, old(disk.clock), disk.clock) ==>
              (!raised <==> (backedUp && !was[it.destination].dir ==> !was[it.source].dir))
    ensures |old(disk.history)| <= |disk.history| && old(disk.history) <= disk.history
    ensures forall k :: |old(disk.history)| <= k < |disk.history| ==>
              Continuous(disk.history[k], was, it) &&
              SameOutside(disk.history[k], old(disk.names), it.Paths())
  {
    installed := false;
    if !overwrite && it.source in disk.names && !disk.names[it.source].dir {
      raised := disk.Link(it.source, it.destination);
      if raised { return; }
      installed := true;
      raised := disk.Unlink(it.source, false);
    } else {
      raised := disk.Rename(it.source, it.destination);
      if raised { return; }
      installed := true;
    }
  }

  method InstallOne(disk: Disk, it: Item, overwrite: bool, ghost was: Names)
    returns (raised: bool, backedUp: bool, installed: bool)
    requires Staged(was, it) && At(disk.names, was, it, Untouched)
    modifies disk
    ensures SameOutside(disk.names, old(disk.names), it.Paths())
    ensures backedUp ==> it.destination in was
    ensures !raised ==> installed
    ensures !raised ==> At(disk.names, was, it, Installed)
    ensures installed ==> (backedUp <==> it.destination in was)
    ensures raised && installed ==> At(disk.names, was, it, Linked)
    ensures !installed ==> At(disk.names, was, it, if backedUp then BackedUp else Untouched)
    ensures old(disk.clock) <= disk.clock
    ensures Quiet(disk.faults, old(disk.clock), disk.clock) ==>
              (!raised <==> Installable(was, it, overwrite, disk.isArtifact))
    ensures |old(disk.history)| <= |disk.history| && old(disk.history) <= disk.history
    ensures forall k :: |old(disk.history)| <= k < |disk.history| ==>
              Continuous(disk.history[k], was, it) &&
              SameOutside(disk.history[k], old(disk.names), it.Paths())
  {
    backedUp, installed := false, false;
    raised := disk.CheckDestination(it.destination, overwrite);
    if raised { return; }
    if it.destination in disk.names {
      raised := SaveOld(disk, it, was);
      if raised { return; }
      backedUp := true;
    }
    raised, installed := Place(disk, it, overwrite, was, backedUp);
  }

  // ---- all outputs together ----

  predicate AllAt(now: Names, was: Names, items: seq<Item>, phases: seq<Phase>)
    requires AllStaged(was, items) && |phases| == |items|
  {
    forall i :: 0 <= i < |items| ==> At(now, was, items[i], phases[i])
  }

  ghost function PathsOf(items: seq<Item>): set<Path> {
    set i, p | 0 <= i < |items| && p in items[i].Paths() :: p
  }

  /** A call that touches the paths of one output leaves every other output where it was. */
  lemma OthersStay(now: Names, next: Names, was: Names, items: seq<Item>, phases: seq<Phase>, i: nat, phase: Phase)
    requires AllStaged(was, items) && |phases| == |items| && i < |items|
    requires AllAt(now, was, items, phases) && SameOutside(now, was, PathsOf(items))
    requires SameOutside(next, now, items[i].Paths()) && At(next, was, items[i], phase)
    ensures AllAt(next, was, items, phases[i := phase]) && SameOutside(next, was, PathsOf(items))
  {
    forall j | 0 <= j < |items| && j != i ensures At(next, was, items[j], phases[j]) {
      assert items[j].Paths() !! items[i].Paths();
      assert At(now, was, items[j], phases[j]);
      SameAtOthers(now, next, items[i], items[j]);
    }
    forall p | p in next.Keys + was.Keys && p !in PathsOf(items) ensures SameAt(next, was, p) {
      assert p !in items[i].Paths();
      assert SameAt(now, was, p) || p !in now.Keys + was.Keys;
      assert SameAt(next, now, p) || p !in next.Keys + now.Keys;
    }
  }

  lemma SameAtOthers(now: Names, next: Names, it: Item, other: Item)
    requires SameOutside(next, now, it.Paths()) && it.Paths() !! other.Paths()
    ensures SameAt(next, now, other.source) && SameAt(next, now, other.destination) && SameAt(next, now, other.backup)
  {
    forall p | p in other.Paths() ensures SameAt(next, now, p) {
      assert p !in it.Paths();
      if p in next.Keys + now.Keys { assert SameAt(next, now, p); }
    }
  }

  lemma StillReachable(now: Names, was: Names, it: Item, phase: Phase)
    requires Staged(was, it) && At(now, was, it, phase) && !phase.Cleaned? && !phase.Littered?
    ensures Reachable(now, was, it)
  {
  }

  predicate Reversible(phases: seq<Phase>) {
    forall i :: 0 <= i < |phases| ==> !phases[i].Cleaned? && !phases[i].Littered?
  }

  lemma AllReachable(now: Names, was: Names, items: seq<Item>, phases: seq<Phase>)
    requires AllStaged(was, items) && |phases| == |items| && AllAt(now, was, items, phases) && Reversible(phases)
    ensures AllReachableNow(now, was, items)
  {
    forall i | 0 <= i < |items| ensures Reachable(now, was, items[i]) {
      StillReachable(now, was, items[i], phases[i]);
    }
  }

  predicate Begun(phase: Phase) { phase.BackedUp? || phase.Linked? || phase.Installed? }

  /** The two lists the loop keeps: what it backed up and, in order, what it installed. */
  predicate Books(was: Names, items: seq<Item>, phases: seq<Phase>, backups: map<Path, Path>, installed: seq<Path>)
    requires |phases| == |items|
  {
    |installed| <= |items| &&
    (forall i :: 0 <= i < |installed| ==>
       installed[i] == items[i].destination && (phases[i].Linked? || phases[i].Installed?)) &&
    (forall i :: |installed| <= i < |items| ==> phases[i].Untouched? || phases[i].BackedUp?) &&
    (forall i :: 0 <= i < |items| ==> Noted(was, items[i], phases[i], backups))
  }

  predicate Noted(was: Names, it: Item, phase: Phase, backups: map<Path, Path>) {
    (it.destination in backups <==> Begun(phase) && it.destination in was) &&
    (it.destination in backups ==> backups[it.destination] == it.backup)
  }

  predicate AllContinuous(h: Names, was: Names, items: seq<Item>)
    requires AllStaged(was, items)
  {
    forall i :: 0 <= i < |items| ==> Continuous(h, was, items[i])
  }

  predicate AllInstallable(was: Names, items: seq<Item>, overwrite: bool, isArtifact: Node -> bool) {
    forall i :: 0 <= i < |items| ==> Installable(was, items[i], overwrite, isArtifact)
  }

  /** While one output is installed, the archives of the others keep their names too. */
  lemma ContinuousStep(h: Names, now: Names, was: Names, items: seq<Item>, phases: seq<Phase>, i: nat)
    requires AllStaged(was, items) && |phases| == |items| && i < |items| && AllAt(now, was, items, phases)
    requires forall j :: 0 <= j < |items| && j != i ==> phases[j].Untouched? || phases[j].Installed?
    requires Continuous(h, was, items[i]) && SameOutside(h, now, items[i].Paths())
    ensures AllContinuous(h, was, items)
  {
    forall j | 0 <= j < |items| && j != i ensures Continuous(h, was, items[j]) {
      assert items[j].Paths() !! items[i].Paths();
      SameAtOthers(now, h, items[i], items[j]);
      assert At(now, was, items[j], phases[j]);
    }
  }

  function PhaseAfter(raised: bool, backedUp: bool, done: bool): Phase {
    if !raised then Installed else if done then Linked else if backedUp then BackedUp else Untouched
  }

  /** The first `i` outputs are installed and nothing is begun beyond them. */
  predicate DoneUpTo(phases: seq<Phase>, i: nat) {
    i <= |phases| && forall j :: 0 <= j < |phases| ==> phases[j] == if j < i then Installed else Untouched
  }

  lemma BooksStep(was: Names, items: seq<Item>, phases: seq<Phase>, i: nat, backups: map<Path, Path>,
      installed: seq<Path>, raised: bool, backedUp: bool, done: bool)
    requires AllStaged(was, items) && |phases| == |items| && i < |items| && DoneUpTo(phases, i) && |installed| == i
    requires Books(was, items, phases, backups, installed)
    requires !raised ==> done
    requires backedUp ==> items[i].destination in was
    requires done ==> (backedUp <==> items[i].destination in was)
    ensures Books(was, items, phases[i := PhaseAfter(raised, backedUp, done)],
                  if backedUp then backups[items[i].destination := items[i].backup] else backups,
                  if done then installed + [items[i].destination] else installed)
  {
    var after := if backedUp then backups[items[i].destination := items[i].backup] else backups;
    forall j | 0 <= j < |items| && j != i ensures Noted(was, items[j], phases[j], after) {
      assert Noted(was, items[j], phases[j], backups);
      assert items[i].Paths() !! items[j].Paths();
      assert items[i].destination in items[i].Paths() && items[j].destination in items[j].Paths();
    }
    assert Noted(was, items[i], phases[i], backups);
  }

  lemma QuietSplits(faults: nat -> bool, a: nat, b: nat, c: nat)
    requires a <= b <= c
    ensures Quiet(faults, a, c) <==> Quiet(faults, a, b) && Quiet(faults, b, c)
  {
  }

  lemma StartsUntouched(was: Names, items: seq<Item>)
    requires AllStaged(was, items)
    ensures AllAt(was, was, items, seq(|items|, i => Untouched)) && SameOutside(was, was, PathsOf(items))
    ensures Books(was, items, seq(|items|, i => Untouched), map[], [])
  {
    var phases := seq(|items|, i => Untouched);
    forall i | 0 <= i < |items| ensures At(was, was, items[i], phases[i]) && Noted(was, items[i], phases[i], map[]) {
      assert Staged(was, items[i]);
    }
  }

  /** The loop of the `try` block. */
  method InstallAll(disk: Disk, items: seq<Item>, overwrite: bool)
    returns (raised: bool, backups: map<Path, Path>, installed: seq<Path>, ghost phases: seq<Phase>)
    requires AllStaged(disk.names, items)
    modifies disk
    ensures |phases| == |items| && AllAt(disk.names, old(disk.names), items, phases)
    ensures SameOutside(disk.names, old(disk.names), PathsOf(items))
    ensures Books(old(disk.names), items, phases, backups, installed)
    ensures !raised ==> forall i :: 0 <= i < |items| ==> phases[i] == Installed
    ensures old(disk.clock) <= disk.clock
    ensures Quiet(disk.faults, old(disk.clock), disk.clock) ==>
              (!raised <==> AllInstallable(old(disk.names), items, overwrite, disk.isArtifact))
    ensures old(disk.history) <= disk.history
    ensures forall k :: |old(disk.history)| <= k < |disk.history| ==>
              AllContinuous(disk.history[k], old(disk.names), items)
  {
    hide At, Continuous, Installable, PathsOf, SameOutside, Noted, Quiet;
    raised, backups, installed := false, map[], [];
    phases := seq(|items|, i => Untouched);
    ghost var was := disk.names;
    StartsUntouched(was, items);
    var i := 0;
    while i < |items|
      invariant 0 <= i <= |items| == |phases| && !raised && DoneUpTo(phases, i)
      invariant AllAt(disk.names, was, items, phases) && SameOutside(disk.names, was, PathsOf(items))
      invariant |installed| == i && Books(was, items, phases, backups, installed)
      invariant old(disk.clock) <= disk.clock
      invariant Quiet(disk.faults, old(disk.clock), disk.clock) ==>
                  AllInstallable(was, items[..i], overwrite, disk.isArtifact)
      invariant old(disk.history) <= disk.history
      invariant forall k :: |old(disk.history)| <= k < |disk.history| ==> AllContinuous(disk.history[k], was, items)
    {
      ghost var now, seen, tick, kept, listed := disk.names, disk.history, disk.clock, backups, installed;
      var backedUp, done;
      assert At(now, was, items[i], Untouched);
      raised, backedUp, done := InstallOne(disk, items[i], overwrite, was);
      if backedUp { backups := backups[items[i].destination := items[i].backup]; }
      if done { installed := installed + [items[i].destination]; }
      BooksStep(was, items, phases, i, kept, listed, raised, backedUp, done);
      OthersStay(now, disk.names, was, items, phases, i, PhaseAfter(raised, backedUp, done));
      forall k | |seen| <= k < |disk.history| ensures AllContinuous(disk.history[k], was, items) {
        ContinuousStep(disk.history[k], now, was, items, phases, i);
      }
      QuietSplits(disk.faults, old(disk.clock), tick, disk.clock);
      phases := phases[i := PhaseAfter(raised, backedUp, done)];
      if raised { return; }
      i := i + 1;
    }
    assert items[..i] == items;
  }

  // ---- rollback and cleanup ----

  /** Remove one installed output; a fault may leave part of a new tree, never part of an old one. */
  method RemoveInstalled(disk: Disk, it: Item, ghost was: Names, ghost phase: Phase) returns (raised: bool)
    requires Staged(was, it) && (phase.Linked? || phase.Installed?) && At(disk.names, was, it, phase)
    modifies disk
    ensures SameOutside(disk.names, old(disk.names), it.Paths())
    ensures !raised ==> At(disk.names, was, it, Removed)
    ensures Reachable(disk.names, was, it)
    ensures disk.clock == old(disk.clock) + 1 && (raised <==> disk.faults(old(disk.clock)))
  {
    if disk.names[it.destination].dir {
      raised := disk.RemoveTree(it.destination);
    } else {
      raised := disk.Unlink(it.destination, false);
    }
  }

  /** Put one old output back. The rename does nothing when both names are one inode, so unlink the backup too. */
  method PutBack(disk: Disk, it: Item, backup: Path, ghost was: Names, ghost phase: Phase) returns (raised: bool)
    requires Staged(was, it) && it.destination in was && backup == it.backup
    requires (phase.BackedUp? || phase.Removed?) && At(disk.names, was, it, phase)
    modifies disk
    ensures SameOutside(disk.names, old(disk.names), it.Paths())
    ensures !raised ==> At(disk.names, was, it, Restored)
    ensures Reachable(disk.names, was, it)
    ensures old(disk.clock) < disk.clock && (raised ==> !Quiet(disk.faults, old(disk.clock), disk.clock))
  {
    raised := disk.Rename(backup, it.destination);
    if raised { return; }
    raised := disk.Unlink(backup, true);
  }

  /** After a fault in the rollback the damaged output and all others still have their old content. */
  lemma ReachableStays(now: Names, next: Names, was: Names, items: seq<Item>, phases: seq<Phase>, i: nat)
    requires AllStaged(was, items) && |phases| == |items| && i < |items| && AllAt(now, was, items, phases)
    requires Reversible(phases)
    requires SameOutside(next, now, items[i].Paths()) && Reachable(next, was, items[i])
    ensures AllReachableNow(next, was, items)
  {
    forall j | 0 <= j < |items| ensures Reachable(next, was, items[j]) {
      if j != i {
        StillReachable(now, was, items[j], phases[j]);
        assert items[j].Paths() !! items[i].Paths();
        SameAtOthers(now, next, items[i], items[j]);
      }
    }
  }

  lemma FrameStays(now: Names, next: Names, was: Names, items: seq<Item>, i: nat)
    requires i < |items| && SameOutside(now, was, PathsOf(items)) && SameOutside(next, now, items[i].Paths())
    ensures SameOutside(next, was, PathsOf(items))
  {
    forall p | p in next.Keys + was.Keys && p !in PathsOf(items) ensures SameAt(next, was, p) {
      assert p !in items[i].Paths();
      assert SameAt(now, was, p) || p !in now.Keys + was.Keys;
      assert SameAt(next, now, p) || p !in next.Keys + now.Keys;
    }
  }

  /** The first loop of the `except` block: the installed outputs, last first. */
  method RemoveAll(disk: Disk, items: seq<Item>, backups: map<Path, Path>, installed: seq<Path>,
      ghost was: Names, ghost start: seq<Phase>)
    returns (raised: bool, ghost phases: seq<Phase>)
    requires AllStaged(was, items) && |start| == |items| && AllAt(disk.names, was, items, start)
    requires SameOutside(disk.names, was, PathsOf(items)) && Books(was, items, start, backups, installed)
    modifies disk
    ensures SameOutside(disk.names, was, PathsOf(items)) && AllReachableNow(disk.names, was, items)
    ensures old(disk.clock) <= disk.clock && (raised ==> !Quiet(disk.faults, old(disk.clock), disk.clock))
    ensures |phases| == |items|
    ensures !raised ==>
              AllAt(disk.names, was, items, phases) &&
              forall i :: 0 <= i < |items| ==> phases[i] == if i < |installed| then Removed else start[i]
  {
    hide At, Reachable, PathsOf, SameOutside, Noted;
    raised, phases := false, start;
    AllReachable(disk.names, was, items, phases);
    var i := |installed|;
    while i > 0
      invariant 0 <= i <= |installed| && |phases| == |items| && !raised
      invariant AllAt(disk.names, was, items, phases) && SameOutside(disk.names, was, PathsOf(items))
      invariant forall j :: 0 <= j < |items| ==> phases[j] == if i <= j < |installed| then Removed else start[j]
      invariant old(disk.clock) <= disk.clock
      invariant AllReachableNow(disk.names, was, items)
    {
      i := i - 1;
      ghost var now, tick := disk.names, disk.clock;
      assert At(now, was, items[i], phases[i]);
      raised := RemoveInstalled(disk, items[i], was, phases[i]);
      ReachableStays(now, disk.names, was, items, phases, i);
      if raised {
        FrameStays(now, disk.names, was, items, i);
        return;
      }
      OthersStay(now, disk.names, was, items, phases, i, Removed);
      phases := phases[i := Removed];
    }
  }

  /** The second loop: every backup, in the order it was made. */
  method PutAllBack(disk: Disk, items: seq<Item>, backups: map<Path, Path>, installed: seq<Path>,
      ghost was: Names, ghost begun: seq<Phase>, ghost start: seq<Phase>)
    returns (raised: bool)
    requires AllStaged(was, items) && |begun| == |start| == |items| && AllAt(disk.names, was, items, start)
    requires SameOutside(disk.names, was, PathsOf(items)) && Books(was, items, begun, backups, installed)
    requires forall i :: 0 <= i < |items| ==> start[i] == if i < |installed| then Removed else begun[i]
    modifies disk
    ensures SameOutside(disk.names, was, PathsOf(items)) && AllReachableNow(disk.names, was, items)
    ensures old(disk.clock) <= disk.clock && (raised ==> !Quiet(disk.faults, old(disk.clock), disk.clock))
    ensures !raised ==> AllAt(disk.names, was, items, seq(|items|, i => Restored))
  {
    hide At, Reachable, PathsOf, SameOutside, Noted, Quiet;
    raised := false;
    ghost var phases := start;
    AllReachable(disk.names, was, items, phases);
    var i := 0;
    while i < |items|
      invariant 0 <= i <= |items| == |phases| && !raised
      invariant AllAt(disk.names, was, items, phases) && SameOutside(disk.names, was, PathsOf(items))
      invariant forall j :: 0 <= j < |items| ==> phases[j] == if j < i then Restored else start[j]
      invariant old(disk.clock) <= disk.clock
      invariant AllReachableNow(disk.names, was, items)
    {
      ghost var now, tick := disk.names, disk.clock;
      assert At(now, was, items[i], phases[i]);
      NotedAt(was, items[i], begun[i], phases[i], now, backups);
      if items[i].destination in backups {
        raised := PutBack(disk, items[i], backups[items[i].destination], was, phases[i]);
        ReachableStays(now, disk.names, was, items, phases, i);
        if raised {
          FrameStays(now, disk.names, was, items, i);
          QuietSplits(disk.faults, old(disk.clock), tick, disk.clock);
          return;
        }
      }
      OthersStay(now, disk.names, was, items, phases, i, Restored);
      phases := phases[i := Restored];
      i := i + 1;
    }
    assert phases == seq(|items|, i => Restored);
  }

  /** What the backup table says of one output when the second loop reaches it. */
  lemma NotedAt(was: Names, it: Item, begun: Phase, phase: Phase, now: Names, backups: map<Path, Path>)
    requires Staged(was, it) && Noted(was, it, begun, backups) && At(now, was, it, phase)
    requires phase == (if begun.Linked? || begun.Installed? then Removed else begun)
    requires begun.Untouched? || begun.BackedUp? || begun.Linked? || begun.Installed?
    ensures it.destination in backups ==>
              it.destination in was && backups[it.destination] == it.backup && (phase.BackedUp? || phase.Removed?)
    ensures it.destination !in backups ==> At(now, was, it, Restored)
    ensures SameOutside(now, now, it.Paths())
  {
  }

  /** The `else` block for one backup: errors are ignored for an old tree and raised for an old file. */
  method DropBackup(disk: Disk, it: Item, backup: Path, ghost was: Names)
    returns (raised: bool, ghost phase: Phase)
    requires Staged(was, it) && it.destination in was && backup == it.backup && At(disk.names, was, it, Installed)
    modifies disk
    ensures SameOutside(disk.names, old(disk.names), it.Paths())
    ensures if raised then phase == Installed else phase == Cleaned || phase == Littered
    ensures At(disk.names, was, it, phase)
    ensures disk.clock == old(disk.clock) + 1 && (!disk.faults(old(disk.clock)) ==> !raised && phase == Cleaned)
    ensures disk.history == old(disk.history) + [disk.names] && Continuous(disk.names, was, it)
  {
    if disk.names[backup].dir {
      var ignored := disk.RemoveTree(backup);
      raised, phase := false, if ignored then Littered else Cleaned;
    } else {
      raised := disk.Unlink(backup, true);
      phase := if raised then Installed else Cleaned;
    }
  }

  lemma NotedInstalled(was: Names, it: Item, now: Names, backups: map<Path, Path>)
    requires Staged(was, it) && Noted(was, it, Installed, backups) && At(now, was, it, Installed)
    ensures it.destination in backups <==> it.destination in was
    ensures it.destination in backups ==> backups[it.destination] == it.backup
    ensures it.destination !in backups ==> At(now, was, it, Cleaned)
    ensures SameOutside(now, now, it.Paths())
  {
  }

  predicate AllNew(now: Names, was: Names, items: seq<Item>)
    requires AllStaged(was, items)
  {
    forall i :: 0 <= i < |items| ==> NewInPlace(now, was, items[i])
  }

  predicate SettledPhase(phase: Phase) { phase.Installed? || phase.Cleaned? || phase.Littered? }

  lemma SettledIsNew(now: Names, was: Names, items: seq<Item>, phases: seq<Phase>)
    requires AllStaged(was, items) && |phases| == |items| && AllAt(now, was, items, phases)
    requires forall i :: 0 <= i < |items| ==> SettledPhase(phases[i])
    ensures AllNew(now, was, items) && AllContinuous(now, was, items)
  {
    forall i | 0 <= i < |items| ensures NewInPlace(now, was, items[i]) && Continuous(now, was, items[i]) {
      assert At(now, was, items[i], phases[i]);
    }
  }

  method CleanUp(disk: Disk, items: seq<Item>, backups: map<Path, Path>, installed: seq<Path>,
      ghost was: Names, ghost start: seq<Phase>)
    returns (raised: bool, ghost phases: seq<Phase>)
    requires AllStaged(was, items) && |start| == |items| && AllAt(disk.names, was, items, start)
    requires SameOutside(disk.names, was, PathsOf(items)) && Books(was, items, start, backups, installed)
    requires forall i :: 0 <= i < |items| ==> start[i] == Installed
    modifies disk
    ensures SameOutside(disk.names, was, PathsOf(items))
    ensures |phases| == |items| && AllAt(disk.names, was, items, phases)
    ensures forall i :: 0 <= i < |items| ==> SettledPhase(phases[i])
    ensures !raised ==> forall i :: 0 <= i < |items| ==> phases[i] != Installed
    ensures old(disk.clock) <= disk.clock
    ensures Quiet(disk.faults, old(disk.clock), disk.clock) ==>
              !raised && forall i :: 0 <= i < |items| ==> phases[i] == Cleaned
    ensures old(disk.history) <= disk.history
    ensures forall k :: |old(disk.history)| <= k < |disk.history| ==> AllContinuous(disk.history[k], was, items)
  {
    hide At, PathsOf, SameOutside, Noted, Continuous, AllContinuous;
    raised, phases := false, start;
    var i := 0;
    while i < |items|
      invariant 0 <= i <= |items| == |phases| && !raised
      invariant AllAt(disk.names, was, items, phases) && SameOutside(disk.names, was, PathsOf(items))
      invariant forall j :: 0 <= j < |items| ==>
                  if j < i then phases[j] == Cleaned || phases[j] == Littered else phases[j] == Installed
      invariant old(disk.clock) <= disk.clock
      invariant Quiet(disk.faults, old(disk.clock), disk.clock) ==> forall j :: 0 <= j < i ==> phases[j] == Cleaned
      invariant old(disk.history) <= disk.history
      invariant forall k :: |old(disk.history)| <= k < |disk.history| ==> AllContinuous(disk.history[k], was, items)
    {
      ghost var now, tick, phase := disk.names, disk.clock, Cleaned;
      assert At(now, was, items[i], phases[i]);
      assert Noted(was, items[i], start[i], backups);
      NotedInstalled(was, items[i], now, backups);
      if items[i].destination in backups {
        raised, phase := DropBackup(disk, items[i], backups[items[i].destination], was);
      }
      OthersStay(now, disk.names, was, items, phases, i, phase);
      phases := phases[i := phase];
      SettledIsNew(disk.names, was, items, phases);
      if raised { return; }
      i := i + 1;
    }
  }

  // ---- the whole installation ----

  datatype Outcome = Success | CleanupRaised | RolledBack | RollbackRaised

  predicate AllRestored(now: Names, was: Names, items: seq<Item>) {
    forall i :: 0 <= i < |items| ==> SameAt(now, was, items[i].destination) && items[i].backup !in now
  }

  /** A backup that is left over is an old directory whose removal was cut short. */
  predicate NoFileLeft(now: Names, was: Names, items: seq<Item>) {
    forall i :: 0 <= i < |items| && items[i].backup in now ==>
      items[i].destination in was && was[items[i].destination].dir
  }

  predicate NoBackupLeft(now: Names, items: seq<Item>) {
    forall i :: 0 <= i < |items| ==> items[i].backup !in now
  }

  lemma CleanedLeavesNothing(now: Names, was: Names, items: seq<Item>, phases: seq<Phase>)
    requires AllStaged(was, items) && |phases| == |items| && AllAt(now, was, items, phases)
    requires forall i :: 0 <= i < |items| ==> phases[i] == Cleaned || phases[i] == Littered
    ensures NoFileLeft(now, was, items)
    ensures (forall i :: 0 <= i < |items| ==> phases[i] == Cleaned) ==> NoBackupLeft(now, items)
  {
    forall i | 0 <= i < |items|
      ensures items[i].backup in now ==>
                phases[i] == Littered && items[i].destination in was && was[items[i].destination].dir
    {
      assert At(now, was, items[i], phases[i]);
    }
  }

  lemma RestoredEverywhere(now: Names, was: Names, items: seq<Item>)
    requires AllStaged(was, items) && AllAt(now, was, items, seq(|items|, i => Restored))
    ensures AllRestored(now, was, items)
  {
    var phases := seq(|items|, i => Restored);
    forall i | 0 <= i < |items| ensures SameAt(now, was, items[i].destination) && items[i].backup !in now {
      assert At(now, was, items[i], phases[i]);
    }
  }

  method RollBack(disk: Disk, items: seq<Item>, backups: map<Path, Path>, installed: seq<Path>,
      ghost was: Names, ghost start: seq<Phase>)
    returns (outcome: Outcome)
    requires AllStaged(was, items) && |start| == |items| && AllAt(disk.names, was, items, start)
    requires SameOutside(disk.names, was, PathsOf(items)) && Books(was, items, start, backups, installed)
    modifies disk
    ensures SameOutside(disk.names, was, PathsOf(items)) && old(disk.clock) <= disk.clock
    ensures outcome.RolledBack? || outcome.RollbackRaised?
    ensures outcome.RolledBack? ==> AllRestored(disk.names, was, items)
    ensures outcome.RollbackRaised? ==>
              AllReachableNow(disk.names, was, items) && !Quiet(disk.faults, old(disk.clock), disk.clock)
  {
    hide At, Staged, Reachable, PathsOf, SameOutside, Noted, AllAt, Quiet;
    ghost var first := disk.clock;
    var raised;
    ghost var phases;
    raised, phases := RemoveAll(disk, items, backups, installed, was, start);
    if raised { return RollbackRaised; }
    ghost var second := disk.clock;
    raised := PutAllBack(disk, items, backups, installed, was, start, phases);
    QuietSplits(disk.faults, first, second, disk.clock);
    if raised { return RollbackRaised; }
    RestoredEverywhere(disk.names, was, items);
    outcome := RolledBack;
  }

  method InstallOutputs(disk: Disk, items: seq<Item>, overwrite: bool)
    returns (outcome: Outcome, ghost rollbackFrom: nat)
    requires AllStaged(disk.names, items)
    modifies disk
    ensures SameOutside(disk.names, old(disk.names), PathsOf(items))
    ensures outcome.Success? || outcome.CleanupRaised? ==>
              AllNew(disk.names, old(disk.names), items) &&
              forall k :: |old(disk.history)| <= k < |disk.history| ==>
                AllContinuous(disk.history[k], old(disk.names), items)
    ensures outcome.Success? ==> NoFileLeft(disk.names, old(disk.names), items)
    ensures outcome.RolledBack? ==> AllRestored(disk.names, old(disk.names), items)
    ensures outcome.RollbackRaised? ==>
              AllReachableNow(disk.names, old(disk.names), items) && !Quiet(disk.faults, rollbackFrom, disk.clock)
    ensures old(disk.clock) <= rollbackFrom <= disk.clock
    ensures Quiet(disk.faults, old(disk.clock), disk.clock) ==>
              if AllInstallable(old(disk.names), items, overwrite, disk.isArtifact)
              then outcome.Success? && NoBackupLeft(disk.names, items)
              else outcome.RolledBack?
  {
    hide At, Staged, Reachable, PathsOf, SameOutside, Noted, Books, Continuous, AllContinuous, AllAt, AllInstallable;
    ghost var was, start := disk.names, disk.clock;
    var raised, backups, installed;
    ghost var phases;
    raised, backups, installed, phases := InstallAll(disk, items, overwrite);
    rollbackFrom := disk.clock;
    if raised {
      outcome := RollBack(disk, items, backups, installed, was, phases);
    } else {
      raised, phases := CleanUp(disk, items, backups, installed, was, phases);
      SettledIsNew(disk.names, was, items, phases);
      outcome := if raised then CleanupRaised else Success;
      if !raised { CleanedLeavesNothing(disk.names, was, items, phases); }
    }
    QuietSplits(disk.faults, start, rollbackFrom, disk.clock);
  }
}

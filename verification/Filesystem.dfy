/** Names and inodes of one POSIX filesystem, and the calls the artifact writer makes on them. */
module Filesystem {
  type Path = string

  /** An inode. Two names bound to one node are hard links to it; `data` stands for its whole content. */
  datatype Node = Node(id: nat, dir: bool, data: string)

  type Names = map<Path, Node>

  predicate SameAt(now: Names, was: Names, p: Path) {
    (p in now <==> p in was) && (p in now ==> now[p] == was[p])
  }

  predicate SameOutside(now: Names, was: Names, paths: set<Path>) {
    forall p :: p in now.Keys + was.Keys && p !in paths ==> SameAt(now, was, p)
  }

  predicate CanRename(names: Names, a: Path, b: Path) {
    a in names &&
    (b in names ==>
       names[a] == names[b] ||
       (names[a].dir == names[b].dir && (names[a].dir ==> names[b].data == "")))
  }

  /** rename(2): a no-op when both names already refer to one inode, otherwise a move that replaces `b`. */
  function Renamed(names: Names, a: Path, b: Path): Names
    requires CanRename(names, a, b)
  {
    if b in names && names[a] == names[b] then names else names[b := names[a]] - {a}
  }

  /** Every call may raise by an injected fault, numbered by `clock`; `history` records the names after each call. */
  class Disk {
    var names: Names
    var clock: nat
    const faults: nat -> bool
    const wreck: Node -> Node
    const isArtifact: Node -> bool
    ghost var history: seq<Names>

    constructor (names: Names, faults: nat -> bool, wreck: Node -> Node, isArtifact: Node -> bool)
      ensures this.names == names && clock == 0 && history == []
      ensures this.faults == faults && this.wreck == wreck && this.isArtifact == isArtifact
    {
      this.names, clock, history := names, 0, [];
      this.faults, this.wreck, this.isArtifact := faults, wreck, isArtifact;
    }

    /** Refuse an occupied destination unless it may be overwritten, and a directory that is no artifact. */
    method CheckDestination(p: Path, overwrite: bool) returns (raised: bool)
      modifies this
      ensures clock == old(clock) + 1 && names == old(names) && history == old(history) + [names]
      ensures raised <==>
              faults(old(clock)) ||
              (p in names && (!overwrite || (names[p].dir && !isArtifact(names[p]))))
    {
      raised := faults(clock) || (p in names && (!overwrite || (names[p].dir && !isArtifact(names[p]))));
      clock, history := clock + 1, history + [names];
    }

    method Rename(a: Path, b: Path) returns (raised: bool)
      modifies this
      ensures clock == old(clock) + 1 && history == old(history) + [names]
      ensures raised <==> faults(old(clock)) || !CanRename(old(names), a, b)
      ensures names == if raised then old(names) else Renamed(old(names), a, b)
    {
      raised := faults(clock) || !CanRename(names, a, b);
      if !raised { names := Renamed(names, a, b); }
      clock, history := clock + 1, history + [names];
    }

    method Link(a: Path, b: Path) returns (raised: bool)
      modifies this
      ensures clock == old(clock) + 1 && history == old(history) + [names]
      ensures raised <==> faults(old(clock)) || a !in old(names) || old(names)[a].dir || b in old(names)
      ensures names == if raised then old(names) else old(names)[b := old(names)[a]]
    {
      raised := faults(clock) || a !in names || names[a].dir || b in names;
      if !raised { names := names[b := names[a]]; }
      clock, history := clock + 1, history + [names];
    }

    method Unlink(a: Path, missingOk: bool) returns (raised: bool)
      modifies this
      ensures clock == old(clock) + 1 && history == old(history) + [names]
      ensures raised <==> faults(old(clock)) || (if a in old(names) then old(names)[a].dir else !missingOk)
      ensures names == if raised then old(names) else old(names) - {a}
    {
      raised := faults(clock) || (if a in names then names[a].dir else !missingOk);
      if !raised { names := names - {a}; }
      clock, history := clock + 1, history + [names];
    }

    /** Removing a tree is not atomic: a fault leaves a directory of which part is gone. */
    method RemoveTree(a: Path) returns (raised: bool)
      requires a in names && names[a].dir
      modifies this
      ensures clock == old(clock) + 1 && history == old(history) + [names]
      ensures raised <==> faults(old(clock))
      ensures names == if raised then old(names)[a := wreck(old(names)[a])] else old(names) - {a}
    {
      raised := faults(clock);
      names := if raised then names[a := wreck(names[a])] else names - {a};
      clock, history := clock + 1, history + [names];
    }
  }

  predicate Quiet(faults: nat -> bool, from: nat, to: nat) {
    forall t :: from <= t < to ==> !faults(t)
  }
}

/** Destination names of one output and the guards that protect them. */
module OutputNames {
  import opened OutputLock

  /** `Path.suffix` and `Path.with_suffix` on a final path component. */
  function LastDot(name: string): (k: int)
    ensures -1 <= k < |name| && (k >= 0 ==> name[k] == '.')
    ensures forall j :: k < j < |name| ==> name[j] != '.'
  {
    if name == "" then -1
    else if name[|name| - 1] == '.' then |name| - 1
    else LastDot(name[..|name| - 1])
  }

  function Stem(name: string): string {
    var k := LastDot(name);
    if 0 < k < |name| - 1 then name[..k] else name
  }

  function Suffix(name: string): string {
    name[|Stem(name)|..]
  }

  predicate EndsWith(name: string, tail: string) {
    |tail| <= |name| && name[|name| - |tail|..] == tail
  }

  function ArchiveName(name: string): string {
    if Suffix(name) == ".eslams" then name
    else if EndsWith(name, ".eslams.d") then Stem(name)
    else Stem(name) + ".eslams"
  }

  function ExpandedName(name: string): string {
    if EndsWith(name, ".eslams.d") then name else Stem(ArchiveName(name)) + ".eslams.d"
  }

  function Destinations(name: string, archive: bool): seq<string> {
    if archive then [ExpandedName(name), ArchiveName(name)] else [ExpandedName(name)]
  }

  function GuardName(name: string): Guard {
    "." + name + ".eslams-output.lock"
  }

  predicate WritingTo(w: World, p: Proc, destinations: seq<string>) {
    forall d :: d in destinations ==> (p, GuardName(d)) in w.held
  }

  /** A directory-only writer and an archive writer of one output never run at the same time. */
  lemma WritersExclude(w: World, events: seq<Event>, p: Proc, q: Proc, name: string, a: bool, b: bool)
    requires Start(w)
    requires WritingTo(Run(w, events), p, Destinations(name, a)) && WritingTo(Run(w, events), q, Destinations(name, b))
    ensures p == q
  {
    assert ExpandedName(name) in Destinations(name, a) && ExpandedName(name) in Destinations(name, b);
    MutualExclusion(w, events, p, q, GuardName(ExpandedName(name)));
  }

  /** The name has an extension: its last dot is neither its first nor its last character. */
  predicate HasExtension(name: string, k: int) {
    0 < k && k + 1 < |name| && name[k] == '.' && '.' !in name[k + 1..]
  }

  /** A name is its stem and its suffix; the suffix is the extension with its dot, or nothing. */
  lemma SuffixIsTheExtension(name: string)
    ensures Stem(name) + Suffix(name) == name
    ensures forall k :: HasExtension(name, k) ==> Stem(name) == name[..k]
    ensures Suffix(name) != "" ==> HasExtension(name, |Stem(name)|)
  {
    var last := LastDot(name);
    forall k | HasExtension(name, k) ensures k == last {
      DotsAfter(name, k);
    }
    if 0 <= last < |name| - 1 {
      DotsAfter(name, last);
    }
  }

  lemma DotsAfter(name: string, k: int)
    requires 0 <= k < |name|
    ensures '.' in name[k + 1..] <==> exists i :: k < i < |name| && name[i] == '.'
  {
    var tail := name[k + 1..];
    if '.' in tail {
      var j :| 0 <= j < |tail| && tail[j] == '.';
      assert name[k + 1 + j] == '.';
    }
    if i :| k < i < |name| && name[i] == '.' {
      assert tail[i - k - 1] == '.';
    }
  }

  /** An archive writer holds the guards of both names of its output, any other writer that of the directory. */
  lemma GuardsOfAWriter(w: World, p: Proc, name: string, archive: bool)
    ensures WritingTo(w, p, Destinations(name, archive)) <==>
              (p, GuardName(ExpandedName(name))) in w.held &&
              (archive ==> (p, GuardName(ArchiveName(name))) in w.held)
  {
    if archive {
      assert ArchiveName(name) in Destinations(name, archive) && ExpandedName(name) in Destinations(name, archive);
    } else {
      assert ExpandedName(name) in Destinations(name, archive);
    }
  }

  lemma StemOfExtended(s: string, tail: string)
    requires s != "" && |tail| >= 2 && tail[0] == '.' && forall j :: 0 < j < |tail| ==> tail[j] != '.'
    ensures Stem(s + tail) == s && Suffix(s + tail) == tail
  {
    var name := s + tail;
    var k := LastDot(name);
    assert name[|s|] == '.';
    assert forall j :: |s| < j < |name| ==> name[j] == tail[j - |s|];
    assert k == |s| && name[..k] == s && name[k..] == tail;
  }

  lemma SameGuardSameName(a: string, b: string)
    ensures GuardName(a) == GuardName(b) <==> a == b
  {
    assert GuardName(a)[1..|GuardName(a)| - 19] == a && GuardName(b)[1..|GuardName(b)| - 19] == b;
  }

  /** An archive name never looks like a directory name. */
  lemma ArchiveIsNoDirectory(s: string)
    ensures !EndsWith(s + ".eslams", ".eslams.d")
  {
    var name := s + ".eslams";
    assert name[|name| - 1] == 's';
    assert ".eslams.d"[8] == 'd';
    assert |name| >= 9 ==> name[|name| - 9..][8] == 's';
  }

  lemma DirectoryOfArchive(s: string)
    ensures ExpandedName(s + ".eslams") == if s == "" then ".eslams.eslams.d" else s + ".eslams.d"
  {
    ArchiveIsNoDirectory(s);
    if s == "" {
      DirectoryOfBareArchive();
      assert s + ".eslams" == ".eslams";
    } else {
      StemOfExtended(s, ".eslams");
    }
  }

  lemma DirectoryOfBareArchive()
    ensures ExpandedName(".eslams") == ".eslams.eslams.d"
  {
    var bare := ".eslams";
    ArchiveIsNoDirectory("");
    assert "" + ".eslams" == bare;
    assert forall j :: 0 < j < |bare| ==> bare[j] != '.';
    assert Stem(bare) == bare && Suffix(bare) == "";
    StemOfExtended(bare, ".eslams");
    assert ExpandedName(bare) == bare + ".eslams.d" == ".eslams.eslams.d";
  }

  lemma DirectorySpelling(s: string)
    ensures ArchiveName(s + ".eslams.d") == s + ".eslams" && ExpandedName(s + ".eslams.d") == s + ".eslams.d"
  {
    var name := s + ".eslams.d";
    assert name == (s + ".eslams") + ".d";
    StemOfExtended(s + ".eslams", ".d");
    assert Suffix(name) != ".eslams" by { assert |Suffix(name)| == 2; }
    assert name[|name| - 9..] == ".eslams.d";
  }

  lemma OtherSpelling(name: string)
    requires name != "" && !EndsWith(name, ".eslams.d")
    ensures ExpandedName(ArchiveName(name)) == ExpandedName(name)
  {
    var stem := Stem(name);
    if Suffix(name) != ".eslams" {
      ArchiveIsNoDirectory(stem);
      StemOfExtended(stem, ".eslams");
    }
  }

  /**
   * `run`, `run.eslams` and `run.eslams.d` name one output: the archive spelling leads to the same
   * directory, and so to the same guard, except for the bare name ".eslams.d".
   */
  lemma SpellingsShareTheGuard(name: string)
    requires name != ""
    ensures GuardName(ExpandedName(ArchiveName(name))) == GuardName(ExpandedName(name)) <==> name != ".eslams.d"
  {
    SameGuardSameName(ExpandedName(ArchiveName(name)), ExpandedName(name));
    if EndsWith(name, ".eslams.d") {
      var s := name[..|name| - 9];
      assert name == s + ".eslams.d";
      DirectorySpelling(s);
      DirectoryOfArchive(s);
      hide ExpandedName, ArchiveName, GuardName;
      assert s == "" <==> name == ".eslams.d";
      assert |".eslams.eslams.d"| != |".eslams.d"|;
    } else {
      OtherSpelling(name);
      assert EndsWith(".eslams.d", ".eslams.d");
    }
  }
}

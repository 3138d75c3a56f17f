/** The manifest's file table: how it is made, how it is checked, and what its digest commits to. */
module FileTable {
  import opened Options
  import opened Json
  import opened Ordering

  /** The regular files of an artifact directory, by relative path. */
  type Directory = map<string, string>

  /** One element of a decoded table; `extra` stands for any further fields. */
  datatype Entry = NotAnEntry | Entry(path: string, sha: Json, size: Json, extra: Object)

  const MANIFEST := "manifest.json"
  const SIGNATURES := "signatures/"
  const TIMINGS := "timings/timings.json"

  predicate StartsWith(s: string, prefix: string) { prefix <= s }

  /** Neither the manifest itself nor a signature over it. */
  predicate IsPayload(path: string) {
    path != MANIFEST && !StartsWith(path, SIGNATURES)
  }

  predicate IsHashed(path: string) {
    IsPayload(path) && path != TIMINGS
  }

  /** Hash of a file, size of a file, portable-path test, and digest of a sorted table. */
  datatype Tools = Tools(hash: string -> string, size: string -> nat, safe: string -> bool, digest: seq<Entry> -> string)

  function PathOf(e: Entry): string {
    if e.Entry? then e.path else ""
  }

  // ---- making the table ----

  function EntryFor(t: Tools, dir: Directory, path: string): Entry
    requires path in dir
  {
    Entry(path, JStr(t.hash(dir[path])), JInt(t.size(dir[path])), map[])
  }

  function HashedEntries(t: Tools, dir: Directory, paths: seq<string>): seq<Entry>
    requires forall p :: p in paths ==> p in dir
  {
    if paths == [] then []
    else
      var last := paths[|paths| - 1];
      HashedEntries(t, dir, paths[..|paths| - 1]) + (if IsHashed(last) then [EntryFor(t, dir, last)] else [])
  }

  ghost predicate Lists(paths: seq<string>, dir: Directory) {
    (forall p :: p in paths <==> p in dir) && forall i, j | 0 <= i < j < |paths| :: paths[i] != paths[j]
  }

  method FileEntries(t: Tools, dir: Directory, paths: seq<string>) returns (entries: seq<Entry>)
    requires Lists(paths, dir)
    ensures entries == Sorted(HashedEntries(t, dir, paths), PathOf)
  {
    entries := [];
    var i := 0;
    while i < |paths|
      invariant 0 <= i <= |paths| && entries == HashedEntries(t, dir, paths[..i])
    {
      assert paths[..i + 1][..i] == paths[..i];
      if IsHashed(paths[i]) { entries := entries + [EntryFor(t, dir, paths[i])]; }
      i := i + 1;
    }
    assert paths[..i] == paths;
    entries := Sorted(entries, PathOf);
  }

  function UnhashedEntries(t: Tools, dir: Directory): seq<Entry> {
    if TIMINGS in dir then [EntryFor(t, dir, TIMINGS)] else []
  }

  // ---- checking a table ----

  datatype Error =
    | InvalidEntry | Duplicate(path: string) | UnsafePath(path: string) | MissingFile(path: string)
    | HashMismatch(path: string) | SizeMismatch(path: string) | NotAList | InvalidUnhashed
    | Unsupported(path: string) | Unlisted(path: string) | WrongArtifactId

  function FileErrors(t: Tools, dir: Directory, e: Entry): seq<Error>
    requires e.Entry?
  {
    if !t.safe(e.path) then [UnsafePath(e.path)]
    else if e.path !in dir then [MissingFile(e.path)]
    else if e.sha != JStr(t.hash(dir[e.path])) then [HashMismatch(e.path)]
    else []
  }

  function Paths(entries: seq<Entry>): set<string> {
    set e | e in entries && e.Entry? :: e.path
  }

  function EntryErrors(t: Tools, dir: Directory, listed: set<string>, e: Entry): seq<Error> {
    if e.NotAnEntry? then [InvalidEntry]
    else (if e.path in listed then [Duplicate(e.path)] else []) + FileErrors(t, dir, e)
  }

  function TableErrors(t: Tools, dir: Directory, entries: seq<Entry>): seq<Error> {
    if entries == [] then []
    else
      var before, e := entries[..|entries| - 1], entries[|entries| - 1];
      TableErrors(t, dir, before) + EntryErrors(t, dir, Paths(before), e)
  }

  function ValidEntries(entries: seq<Entry>): seq<Entry> {
    if entries == [] then []
    else ValidEntries(entries[..|entries| - 1]) +
         (if entries[|entries| - 1].Entry? then [entries[|entries| - 1]] else [])
  }

  /** A stored size is compared when it is an integer; a boolean is one in Python. */
  predicate WrongSize(stored: Json, actual: nat) {
    (stored.JInt? || stored.JBool?) && Num(stored) != Some(actual as real)
  }

  function UnhashedErrorsOf(t: Tools, dir: Directory, e: Entry): seq<Error> {
    if e.NotAnEntry? then [InvalidUnhashed]
    else
      (if e.path != TIMINGS then [Unsupported(e.path)] else []) +
      (if !t.safe(e.path) then [UnsafePath(e.path)]
       else if e.path !in dir then [MissingFile(e.path)]
       else
         (if e.sha != JNull && e.sha != JStr(t.hash(dir[e.path])) then [HashMismatch(e.path)] else []) +
         (if WrongSize(e.size, t.size(dir[e.path])) then [SizeMismatch(e.path)] else []))
  }

  function UnhashedErrors(t: Tools, dir: Directory, entries: seq<Entry>): seq<Error> {
    if entries == [] then []
    else UnhashedErrors(t, dir, entries[..|entries| - 1]) + UnhashedErrorsOf(t, dir, entries[|entries| - 1])
  }

  /** The manifest's table fields; `unhashed` is absent when it is neither a list nor null. */
  datatype Manifest = Manifest(files: seq<Entry>, unhashed: Option<seq<Entry>>, artifactId: Json)

  function UnlistedErrors(paths: seq<string>, known: set<string>): seq<Error> {
    if paths == [] then []
    else UnlistedErrors(paths[..|paths| - 1], known) +
         (var p := paths[|paths| - 1]; if IsPayload(p) && p !in known then [Unlisted(p)] else [])
  }

  function Errors(t: Tools, dir: Directory, paths: seq<string>, m: Manifest): seq<Error> {
    var unhashed := if m.unhashed.Some? then m.unhashed.value else [];
    TableErrors(t, dir, m.files) +
    (if m.unhashed.None? then [NotAList] else UnhashedErrors(t, dir, unhashed)) +
    UnlistedErrors(Sorted(paths, Itself), Paths(m.files) + Paths(unhashed)) +
    (if m.artifactId != JStr(t.digest(Sorted(ValidEntries(m.files), PathOf))) then [WrongArtifactId] else [])
  }

  method ValidateFileTable(t: Tools, dir: Directory, paths: seq<string>, m: Manifest) returns (errors: seq<Error>)
    requires Lists(paths, dir)
    ensures errors == Errors(t, dir, paths, m)
  {
    hide EntryErrors, Paths, UnhashedErrors, UnlistedErrors, Sorted;
    errors := [];
    var valid, listed := [], {};
    NoPaths();
    var i := 0;
    while i < |m.files|
      invariant 0 <= i <= |m.files| && errors == TableErrors(t, dir, m.files[..i])
      invariant valid == ValidEntries(m.files[..i]) && listed == Paths(m.files[..i])
    {
      var e := m.files[i];
      assert m.files[..i + 1][..i] == m.files[..i];
      PathsExtend(m.files[..i], e);
      assert m.files[..i] + [e] == m.files[..i + 1];
      errors := errors + EntryErrors(t, dir, listed, e);
      if e.Entry? {
        valid := valid + [e];
        listed := listed + {e.path};
      }
      i := i + 1;
    }
    assert m.files[..i] == m.files;
    var unhashedErrors, unhashed := ValidateUnhashed(t, dir, m);
    errors := errors + unhashedErrors;
    var unlisted := UnlistedFiles(Sorted(paths, Itself), listed + unhashed);
    errors := errors + unlisted;
    if m.artifactId != JStr(t.digest(Sorted(valid, PathOf))) { errors := errors + [WrongArtifactId]; }
  }

  lemma NoPaths()
    ensures Paths([]) == {}
  {
  }

  lemma PathsExtend(entries: seq<Entry>, e: Entry)
    ensures Paths(entries + [e]) == Paths(entries) + (if e.Entry? then {e.path} else {})
  {
    assert forall x :: x in entries + [e] <==> x in entries || x == e;
  }

  method ValidateUnhashed(t: Tools, dir: Directory, m: Manifest) returns (errors: seq<Error>, paths: set<string>)
    ensures errors == if m.unhashed.None? then [NotAList] else UnhashedErrors(t, dir, m.unhashed.value)
    ensures paths == if m.unhashed.None? then {} else Paths(m.unhashed.value)
  {
    hide UnhashedErrorsOf, Paths;
    errors, paths := [], {};
    NoPaths();
    if m.unhashed.None? { return [NotAList], {}; }
    var entries := m.unhashed.value;
    var i := 0;
    while i < |entries|
      invariant 0 <= i <= |entries| && errors == UnhashedErrors(t, dir, entries[..i]) && paths == Paths(entries[..i])
    {
      assert entries[..i + 1][..i] == entries[..i];
      PathsExtend(entries[..i], entries[i]);
      assert entries[..i] + [entries[i]] == entries[..i + 1];
      errors := errors + UnhashedErrorsOf(t, dir, entries[i]);
      if entries[i].Entry? { paths := paths + {entries[i].path}; }
      i := i + 1;
    }
    assert entries[..i] == entries;
  }

  method UnlistedFiles(paths: seq<string>, known: set<string>) returns (errors: seq<Error>)
    ensures errors == UnlistedErrors(paths, known)
  {
    errors := [];
    var i := 0;
    while i < |paths|
      invariant 0 <= i <= |paths| && errors == UnlistedErrors(paths[..i], known)
    {
      assert paths[..i + 1][..i] == paths[..i];
      if IsPayload(paths[i]) && paths[i] !in known { errors := errors + [Unlisted(paths[i])]; }
      i := i + 1;
    }
    assert paths[..i] == paths;
  }

  // ---- what acceptance means ----

  predicate GoodEntry(t: Tools, dir: Directory, e: Entry) {
    e.Entry? && t.safe(e.path) && e.path in dir && e.sha == JStr(t.hash(dir[e.path]))
  }

  predicate GoodUnhashed(t: Tools, dir: Directory, e: Entry) {
    e.Entry? && e.path == TIMINGS && t.safe(e.path) && e.path in dir &&
    (e.sha == JNull || e.sha == JStr(t.hash(dir[e.path]))) && !WrongSize(e.size, t.size(dir[e.path]))
  }

  predicate DistinctPaths(entries: seq<Entry>) {
    forall i, j | 0 <= i < j < |entries| :: PathOf(entries[i]) != PathOf(entries[j])
  }

  predicate AllGood(t: Tools, dir: Directory, entries: seq<Entry>) {
    forall e :: e in entries ==> GoodEntry(t, dir, e)
  }

  predicate AllGoodUnhashed(t: Tools, dir: Directory, entries: seq<Entry>) {
    forall e :: e in entries ==> GoodUnhashed(t, dir, e)
  }

  /** The table is exact: every listed file is there as hashed, once, and every payload file is listed. */
  predicate Accepted(t: Tools, dir: Directory, m: Manifest) {
    AllGood(t, dir, m.files) && DistinctPaths(m.files) &&
    m.unhashed.Some? && AllGoodUnhashed(t, dir, m.unhashed.value) &&
    (forall p :: p in dir && IsPayload(p) ==> p in Paths(m.files) || p in Paths(m.unhashed.value)) &&
    m.artifactId == JStr(t.digest(Sorted(m.files, PathOf)))
  }

  lemma NoEntryErrors(t: Tools, dir: Directory, listed: set<string>, e: Entry)
    ensures EntryErrors(t, dir, listed, e) == [] <==> GoodEntry(t, dir, e) && e.path !in listed
  {
  }

  lemma NoUnhashedErrorsOf(t: Tools, dir: Directory, e: Entry)
    ensures UnhashedErrorsOf(t, dir, e) == [] <==> GoodUnhashed(t, dir, e)
  {
  }

  lemma AllGoodExtends(t: Tools, dir: Directory, before: seq<Entry>, e: Entry)
    ensures AllGood(t, dir, before + [e]) <==> AllGood(t, dir, before) && GoodEntry(t, dir, e)
    ensures AllGoodUnhashed(t, dir, before + [e]) <==> AllGoodUnhashed(t, dir, before) && GoodUnhashed(t, dir, e)
  {
    hide GoodEntry, GoodUnhashed;
    assert e in before + [e];
    assert forall x :: x in before + [e] <==> x in before || x == e;
  }

  lemma {:induction false} NoTableErrors(t: Tools, dir: Directory, entries: seq<Entry>)
    ensures TableErrors(t, dir, entries) == [] <==> AllGood(t, dir, entries) && DistinctPaths(entries)
    ensures TableErrors(t, dir, entries) == [] ==> ValidEntries(entries) == entries
  {
    hide EntryErrors, DistinctPaths, AllGood, FileErrors;
    if entries != [] {
      var before, e := entries[..|entries| - 1], entries[|entries| - 1];
      NoTableErrors(t, dir, before);
      assert entries == before + [e];
      NoEntryErrors(t, dir, Paths(before), e);
      AllGoodExtends(t, dir, before, e);
      GoodAreEntries(t, dir, before);
      LastIsDistinct(before, e);
    } else {
      NothingToCheck(t, dir);
    }
  }

  lemma NothingToCheck(t: Tools, dir: Directory)
    ensures AllGood(t, dir, []) && DistinctPaths([])
  {
  }

  lemma GoodAreEntries(t: Tools, dir: Directory, entries: seq<Entry>)
    ensures AllGood(t, dir, entries) ==> forall x :: x in entries ==> x.Entry?
  {
    if AllGood(t, dir, entries) {
      forall x | x in entries ensures x.Entry? { assert GoodEntry(t, dir, x); }
    }
  }

  lemma LastIsDistinct(before: seq<Entry>, e: Entry)
    ensures (forall x :: x in before ==> x.Entry?) && e.Entry? ==>
              (DistinctPaths(before + [e]) <==> DistinctPaths(before) && e.path !in Paths(before))
    ensures DistinctPaths(before + [e]) ==> DistinctPaths(before)
  {
    var entries := before + [e];
    if DistinctPaths(entries) {
      forall i, j | 0 <= i < j < |before| ensures PathOf(before[i]) != PathOf(before[j]) {
        assert PathOf(entries[i]) != PathOf(entries[j]);
      }
      forall i | 0 <= i < |before| ensures PathOf(before[i]) != PathOf(e) {
        assert PathOf(entries[i]) != PathOf(entries[|before|]);
      }
    }
    if (forall x :: x in before ==> x.Entry?) && e.Entry? && DistinctPaths(before) && e.path !in Paths(before) {
      forall i | 0 <= i < |before| ensures PathOf(before[i]) != PathOf(e) {
        assert before[i] in before;
      }
    }
  }

  lemma {:induction false} NoUnhashedErrors(t: Tools, dir: Directory, entries: seq<Entry>)
    ensures UnhashedErrors(t, dir, entries) == [] <==> AllGoodUnhashed(t, dir, entries)
  {
    hide UnhashedErrorsOf, GoodUnhashed;
    if entries != [] {
      var before, e := entries[..|entries| - 1], entries[|entries| - 1];
      NoUnhashedErrors(t, dir, before);
      assert entries == before + [e];
      NoUnhashedErrorsOf(t, dir, e);
      AllGoodExtends(t, dir, before, e);
    }
  }

  lemma {:induction false} NoUnlistedErrors(paths: seq<string>, known: set<string>)
    ensures UnlistedErrors(paths, known) == [] <==> forall p :: p in paths && IsPayload(p) ==> p in known
  {
    if paths != [] {
      var before, p := paths[..|paths| - 1], paths[|paths| - 1];
      NoUnlistedErrors(before, known);
      assert paths == before + [p];
      assert forall x :: x in paths <==> x in before || x == p;
    }
  }

  /** No error is reported exactly for an exact table. */
  lemma AcceptedExactlyWhenExact(t: Tools, dir: Directory, paths: seq<string>, m: Manifest)
    requires Lists(paths, dir)
    ensures Errors(t, dir, paths, m) == [] <==> Accepted(t, dir, m)
  {
    hide TableErrors, UnhashedErrors, UnlistedErrors, AllGood, AllGoodUnhashed, DistinctPaths, Sorted, ValidEntries, Paths, IsPayload;
    NoTableErrors(t, dir, m.files);
    var unhashed := if m.unhashed.Some? then m.unhashed.value else [];
    NoUnhashedErrors(t, dir, unhashed);
    NoUnlistedErrors(Sorted(paths, Itself), Paths(m.files) + Paths(unhashed));
    SortedHasTheSame(paths, Itself);
  }

  // ---- the made table is accepted ----

  lemma {:induction false} HashedEntriesAre(t: Tools, dir: Directory, paths: seq<string>, e: Entry)
    requires forall p :: p in paths ==> p in dir
    ensures e in HashedEntries(t, dir, paths) <==>
              e.Entry? && e.path in paths && IsHashed(e.path) && e == EntryFor(t, dir, e.path)
  {
    if paths != [] {
      var before, last := paths[..|paths| - 1], paths[|paths| - 1];
      HashedEntriesAre(t, dir, before, e);
      assert paths == before + [last];
      assert forall x :: x in paths <==> x in before || x == last;
    }
  }

  lemma {:induction false} HashedEntriesDistinct(t: Tools, dir: Directory, paths: seq<string>)
    requires forall p :: p in paths ==> p in dir
    requires forall i, j | 0 <= i < j < |paths| :: paths[i] != paths[j]
    ensures DistinctPaths(HashedEntries(t, dir, paths))
  {
    if paths != [] {
      var before, last := paths[..|paths| - 1], paths[|paths| - 1];
      HashedEntriesDistinct(t, dir, before);
      var made := HashedEntries(t, dir, before);
      forall i | 0 <= i < |made| ensures PathOf(made[i]) != last {
        HashedEntriesAre(t, dir, before, made[i]);
      }
    }
  }

  lemma DistinctIsStable(xs: seq<Entry>, ys: seq<Entry>)
    requires multiset(xs) == multiset(ys) && DistinctPaths(xs)
    ensures DistinctPaths(ys)
  {
    forall i, j | 0 <= i < j < |ys| ensures PathOf(ys[i]) != PathOf(ys[j]) {
      if PathOf(ys[i]) == PathOf(ys[j]) {
        TwoOfOnePath(xs, ys, i, j);
        assert false;
      }
    }
  }

  lemma TwoOfOnePath(xs: seq<Entry>, ys: seq<Entry>, i: nat, j: nat)
    requires i < j < |ys| && PathOf(ys[i]) == PathOf(ys[j]) && multiset(xs) == multiset(ys)
    ensures !DistinctPaths(xs)
  {
    hide PathOf;
    var a, b := ys[i], ys[j];
    assert a in multiset(xs) && b in multiset(xs);
    if a != b {
      var k :| 0 <= k < |xs| && xs[k] == a;
      var l :| 0 <= l < |xs| && xs[l] == b;
      assert PathOf(xs[k]) == PathOf(xs[l]);
    } else {
      assert ys == ys[..i] + [a] + ys[i + 1..j] + [a] + ys[j + 1..];
      var k, l := TwoPositions(xs, a);
      assert PathOf(xs[k]) == PathOf(xs[l]);
    }
  }

  lemma TwoPositions(xs: seq<Entry>, a: Entry) returns (k: nat, l: nat)
    requires multiset(xs)[a] >= 2
    ensures k < l < |xs| && xs[k] == a && xs[l] == a
  {
    var last := |xs| - 1;
    assert xs == xs[..last] + [xs[last]];
    if xs[last] == a {
      assert a in multiset(xs[..last]);
      k :| 0 <= k < last && xs[..last][k] == a;
      l := last;
    } else {
      k, l := TwoPositions(xs[..last], a);
    }
  }

  /** The final directory: the payload the table was made from, plus a manifest and signatures. */
  ghost predicate Completes(final: Directory, dir: Directory) {
    (forall p :: IsPayload(p) ==> (p in final <==> p in dir)) &&
    forall p :: p in dir && IsPayload(p) ==> p in final && final[p] == dir[p]
  }

  lemma MadeEntriesAreGood(t: Tools, dir: Directory, paths: seq<string>, final: Directory, files: seq<Entry>)
    requires Lists(paths, dir) && Completes(final, dir)
    requires forall p :: p in dir && IsPayload(p) ==> t.safe(p)
    requires forall e :: e in files <==> e in HashedEntries(t, dir, paths)
    ensures AllGood(t, final, files)
    ensures forall p :: p in final && IsHashed(p) ==> p in Paths(files)
  {
    forall e | e in files ensures GoodEntry(t, final, e) {
      HashedEntriesAre(t, dir, paths, e);
    }
    forall p | p in final && IsHashed(p) ensures p in Paths(files) {
      HashedEntriesAre(t, dir, paths, EntryFor(t, dir, p));
      assert EntryFor(t, dir, p) in files;
    }
  }

  lemma MadeUnhashedAreGood(t: Tools, dir: Directory, final: Directory)
    requires Completes(final, dir)
    requires forall p :: p in dir && IsPayload(p) ==> t.safe(p)
    ensures AllGoodUnhashed(t, final, UnhashedEntries(t, dir))
    ensures TIMINGS in final ==> TIMINGS in Paths(UnhashedEntries(t, dir))
  {
    TimingsIsPayload();
    if TIMINGS in dir { assert EntryFor(t, dir, TIMINGS) in UnhashedEntries(t, dir); }
  }

  /** Any directory of portably named files gets a table that the validator accepts. */
  lemma MadeTableIsAccepted(t: Tools, dir: Directory, paths: seq<string>, final: Directory)
    requires Lists(paths, dir) && Completes(final, dir)
    requires forall p :: p in dir && IsPayload(p) ==> t.safe(p)
    ensures var files := Sorted(HashedEntries(t, dir, paths), PathOf);
            Accepted(t, final, Manifest(files, Some(UnhashedEntries(t, dir)), JStr(t.digest(files))))
  {
    var made := HashedEntries(t, dir, paths);
    var files := Sorted(made, PathOf);
    SortedIsOrdered(made, PathOf);
    SortedHasTheSame(made, PathOf);
    SortingOrderedChangesNothing(files, PathOf);
    HashedEntriesDistinct(t, dir, paths);
    DistinctIsStable(made, files);
    MadeEntriesAreGood(t, dir, paths, final, files);
    MadeUnhashedAreGood(t, dir, final);
    hide AllGood, AllGoodUnhashed, DistinctPaths, Sorted, HashedEntries, UnhashedEntries, Paths, IsPayload;
  }

  lemma TimingsIsPayload()
    ensures IsPayload(TIMINGS)
  {
    assert TIMINGS[0] == 't' && MANIFEST[0] == 'm' && SIGNATURES[0] == 's';
  }

  // ---- the digest is a commitment ----

  /** The two tables and every two files they both list are told apart by their digests. */
  predicate CollisionFree(t: Tools, dir: Directory, m: Manifest, other: Directory, n: Manifest) {
    (t.digest(Sorted(m.files, PathOf)) == t.digest(Sorted(n.files, PathOf)) ==>
       Sorted(m.files, PathOf) == Sorted(n.files, PathOf)) &&
    forall p | p in dir && p in other :: t.hash(dir[p]) == t.hash(other[p]) ==> dir[p] == other[p]
  }

  lemma UnhashedIsTimings(t: Tools, dir: Directory, entries: seq<Entry>)
    requires AllGoodUnhashed(t, dir, entries)
    ensures Paths(entries) <= {TIMINGS}
  {
    forall e | e in entries ensures e.Entry? && e.path == TIMINGS { assert GoodUnhashed(t, dir, e); }
  }

  /** Two accepted artifacts with one id hold the same hashed files with the same contents. */
  lemma SameIdSameFiles(t: Tools, dir: Directory, m: Manifest, other: Directory, n: Manifest, p: string)
    requires CollisionFree(t, dir, m, other, n)
    requires Accepted(t, dir, m) && Accepted(t, other, n) && m.artifactId == n.artifactId
    requires IsHashed(p) && p in dir
    ensures p in other && other[p] == dir[p]
  {
    assert t.digest(Sorted(m.files, PathOf)) == t.digest(Sorted(n.files, PathOf));
    SortedHasTheSame(m.files, PathOf);
    SortedHasTheSame(n.files, PathOf);
    UnhashedIsTimings(t, dir, m.unhashed.value);
    assert p in Paths(m.files);
    var e :| e in m.files && e.Entry? && e.path == p;
    assert GoodEntry(t, dir, e);
    assert e in Sorted(m.files, PathOf) && e in n.files;
    assert GoodEntry(t, other, e);
  }

  /** The id therefore fixes the set of hashed files and every one of their contents. */
  lemma ArtifactIdIsACommitment(t: Tools, dir: Directory, m: Manifest, other: Directory, n: Manifest)
    requires CollisionFree(t, dir, m, other, n)
    requires Accepted(t, dir, m) && Accepted(t, other, n) && m.artifactId == n.artifactId
    ensures (map p | p in dir && IsHashed(p) :: dir[p]) == (map p | p in other && IsHashed(p) :: other[p])
  {
    forall p | p in dir && IsHashed(p) ensures p in other && other[p] == dir[p] {
      SameIdSameFiles(t, dir, m, other, n, p);
    }
    forall p | p in other && IsHashed(p) ensures p in dir && other[p] == dir[p] {
      SameIdSameFiles(t, other, n, dir, m, p);
    }
  }
}

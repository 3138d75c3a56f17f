/**
 Which files a manifest's table covers, and which error names which fault. Paths and faults are
 written out; nothing here goes through the table's own predicates.
 */
module Coverage {
  import opened Options
  import opened Json
  import opened Ordering
  import opened FileTable

  predicate IsSignature(path: string) {
    |path| >= 11 && path[..11] == "signatures/"
  }

  /** Every path but the manifest, the timings and the signatures. */
  predicate Covered(path: string) {
    path != "manifest.json" && path != "timings/timings.json" && !IsSignature(path)
  }

  lemma CoveredAreHashed(path: string)
    ensures IsPayload(path) <==> path != "manifest.json" && !IsSignature(path)
    ensures IsHashed(path) <==> Covered(path)
  {
    assert SIGNATURES == "signatures/" && |SIGNATURES| == 11;
  }

  /** The results, the full trace and the public replay of an artifact are covered. */
  lemma EvidenceIsCovered()
    ensures IsHashed("scores/score.json") && IsHashed("traces/auditor_trace.jsonl")
    ensures IsHashed("replay/replay_events.jsonl") && !IsHashed("signatures/manifest.sig")
    ensures IsPayload("timings/timings.json") && !IsHashed("timings/timings.json")
  {
    CoveredAreHashed("scores/score.json");
    CoveredAreHashed("traces/auditor_trace.jsonl");
    CoveredAreHashed("replay/replay_events.jsonl");
    CoveredAreHashed("signatures/manifest.sig");
    CoveredAreHashed("timings/timings.json");
    assert "signatures/manifest.sig"[..11] == "signatures/";
    assert "scores/score.json"[1] == 'c' && "traces/auditor_trace.jsonl"[0] == 't'
           && "replay/replay_events.jsonl"[0] == 'r' && "timings/timings.json"[0] == 't'
           && "signatures/"[1] == 'i' && "signatures/"[0] == 's' && "manifest.json"[0] == 'm';
    assert "traces/auditor_trace.jsonl"[1] == 'r' && "timings/timings.json"[1] == 'i';
  }

  /** The entry of a file as the table writer makes it. */
  predicate Records(t: Tools, dir: Directory, e: Entry) {
    e.Entry? && e.path in dir && e.sha == JStr(t.hash(dir[e.path]))
    && e.size == JInt(t.size(dir[e.path])) && e.extra == map[]
  }

  /** The table that is made records the covered files, each once, and nothing else. */
  lemma TableRecordsTheCoveredFiles(t: Tools, dir: Directory, paths: seq<string>)
    requires Lists(paths, dir)
    ensures var table := Sorted(HashedEntries(t, dir, paths), PathOf);
            (forall e :: e in table <==> Records(t, dir, e) && Covered(e.path))
            && DistinctPaths(table)
  {
    hide IsHashed, Covered, Sorted, HashedEntries, DistinctPaths;
    var made := HashedEntries(t, dir, paths);
    SortedIsOrdered(made, PathOf);
    SortedHasTheSame(made, PathOf);
    HashedEntriesDistinct(t, dir, paths);
    DistinctIsStable(made, Sorted(made, PathOf));
    forall e ensures e in made <==> Records(t, dir, e) && Covered(e.path) {
      HashedEntriesAre(t, dir, paths, e);
      if e.Entry? { CoveredAreHashed(e.path); }
    }
  }

  predicate ListedWithHash(t: Tools, dir: Directory, files: seq<Entry>, path: string)
    requires path in dir
  {
    exists e :: e in files && e.Entry? && e.path == path && e.sha == JStr(t.hash(dir[path]))
  }

  /** Without an error, every covered file of the directory is listed with its digest. */
  lemma NoErrorsListEveryCoveredFile(t: Tools, dir: Directory, paths: seq<string>, m: Manifest)
    requires Lists(paths, dir) && Errors(t, dir, paths, m) == []
    ensures forall p | p in dir && Covered(p) :: ListedWithHash(t, dir, m.files, p)
  {
    hide Errors, IsPayload, Covered, Sorted;
    AcceptedExactlyWhenExact(t, dir, paths, m);
    UnhashedIsTimings(t, dir, m.unhashed.value);
    forall p | p in dir && Covered(p) ensures ListedWithHash(t, dir, m.files, p) {
      CoveredAreHashed(p);
      assert p != TIMINGS && p in Paths(m.files);
      var e :| e in m.files && e.Entry? && e.path == p;
      assert GoodEntry(t, dir, e);
    }
  }

  /** Two directories that pass under one id hold the same covered files with the same bytes. */
  lemma OneIdOneEvidence(t: Tools, dir: Directory, paths: seq<string>, m: Manifest,
                         other: Directory, others: seq<string>, n: Manifest)
    requires Lists(paths, dir) && Errors(t, dir, paths, m) == []
    requires Lists(others, other) && Errors(t, other, others, n) == []
    requires CollisionFree(t, dir, m, other, n) && m.artifactId == n.artifactId
    ensures forall p | Covered(p) :: (p in dir <==> p in other) && (p in dir ==> other[p] == dir[p])
  {
    hide Errors, Accepted, Covered, CollisionFree;
    AcceptedExactlyWhenExact(t, dir, paths, m);
    AcceptedExactlyWhenExact(t, other, others, n);
    ArtifactIdIsACommitment(t, dir, m, other, n);
    var left, right := map p | p in dir && IsHashed(p) :: dir[p], map p | p in other && IsHashed(p) :: other[p];
    forall p | Covered(p) ensures (p in dir <==> p in other) && (p in dir ==> other[p] == dir[p]) {
      CoveredAreHashed(p);
      assert p in left <==> p in dir;
      assert p in right <==> p in other;
      assert p in left ==> left[p] == right[p];
    }
  }

  // ----- which error names which fault -----

  predicate Names(entries: seq<Entry>, path: string) {
    exists i | 0 <= i < |entries| :: entries[i].Entry? && entries[i].path == path
  }

  predicate NamesTwice(entries: seq<Entry>, path: string) {
    exists i, j | 0 <= i < j < |entries| ::
      entries[i].Entry? && entries[i].path == path && entries[j].Entry? && entries[j].path == path
  }

  predicate HasGarbage(entries: seq<Entry>) {
    exists i | 0 <= i < |entries| :: entries[i].NotAnEntry?
  }

  /** Some entry of this path stores another digest. */
  predicate WrongSha(entries: seq<Entry>, path: string, sha: string) {
    exists i | 0 <= i < |entries| ::
      entries[i].Entry? && entries[i].path == path && entries[i].sha != JStr(sha)
  }

  predicate WrongOptionalSha(entries: seq<Entry>, path: string, sha: string) {
    exists i | 0 <= i < |entries| ::
      entries[i].Entry? && entries[i].path == path && entries[i].sha != JNull && entries[i].sha != JStr(sha)
  }

  /** An integer other than this one; true counts as one. */
  predicate OtherInteger(stored: Json, n: nat) {
    (stored.JInt? && stored.i != n) || (stored.JBool? && n != if stored.b then 1 else 0)
  }

  predicate WrongInteger(entries: seq<Entry>, path: string, size: nat) {
    exists i | 0 <= i < |entries| ::
      entries[i].Entry? && entries[i].path == path && OtherInteger(entries[i].size, size)
  }

  function Unhashed(m: Manifest): seq<Entry> {
    if m.unhashed.Some? then m.unhashed.value else []
  }

  /** The fault an error stands for. */
  predicate Deserved(t: Tools, dir: Directory, m: Manifest, error: Error) {
    match error
    case InvalidEntry => HasGarbage(m.files)
    case Duplicate(p) => NamesTwice(m.files, p)
    case UnsafePath(p) => !t.safe(p) && (Names(m.files, p) || Names(Unhashed(m), p))
    case MissingFile(p) => t.safe(p) && p !in dir && (Names(m.files, p) || Names(Unhashed(m), p))
    case HashMismatch(p) =>
      t.safe(p) && p in dir
      && (WrongSha(m.files, p, t.hash(dir[p])) || WrongOptionalSha(Unhashed(m), p, t.hash(dir[p])))
    case SizeMismatch(p) => t.safe(p) && p in dir && WrongInteger(Unhashed(m), p, t.size(dir[p]))
    case NotAList => m.unhashed.None?
    case InvalidUnhashed => HasGarbage(Unhashed(m))
    case Unsupported(p) => p != "timings/timings.json" && Names(Unhashed(m), p)
    case Unlisted(p) =>
      p in dir && p != "manifest.json" && !IsSignature(p)
      && !Names(m.files, p) && !Names(Unhashed(m), p)
    case WrongArtifactId => m.artifactId != JStr(t.digest(Sorted(ValidEntries(m.files), PathOf)))
  }

  predicate RaisedBy(t: Tools, dir: Directory, entries: seq<Entry>, error: Error, i: nat) {
    i < |entries| && error in EntryErrors(t, dir, Paths(entries[..i]), entries[i])
  }

  predicate RaisedByUnhashed(t: Tools, dir: Directory, entries: seq<Entry>, error: Error, i: nat) {
    i < |entries| && error in UnhashedErrorsOf(t, dir, entries[i])
  }

  lemma {:induction false} TableErrorsComeFrom(t: Tools, dir: Directory, entries: seq<Entry>, error: Error)
    ensures error in TableErrors(t, dir, entries) <==> exists i: nat :: RaisedBy(t, dir, entries, error, i)
  {
    hide EntryErrors, Paths;
    if entries != [] {
      var last := |entries| - 1;
      TableErrorsComeFrom(t, dir, entries[..last], error);
      forall i: nat | i < last
        ensures RaisedBy(t, dir, entries, error, i) <==> RaisedBy(t, dir, entries[..last], error, i)
      {
        assert entries[..last][..i] == entries[..i];
      }
      if i: nat :| RaisedBy(t, dir, entries[..last], error, i) {
        assert RaisedBy(t, dir, entries, error, i);
      }
      assert RaisedBy(t, dir, entries, error, last)
             <==> error in EntryErrors(t, dir, Paths(entries[..last]), entries[last]);
    }
  }

  lemma {:induction false} UnhashedErrorsComeFrom(t: Tools, dir: Directory, entries: seq<Entry>, error: Error)
    ensures error in UnhashedErrors(t, dir, entries)
            <==> exists i: nat :: RaisedByUnhashed(t, dir, entries, error, i)
  {
    hide UnhashedErrorsOf;
    if entries != [] {
      var last := |entries| - 1;
      UnhashedErrorsComeFrom(t, dir, entries[..last], error);
      if i: nat :| RaisedByUnhashed(t, dir, entries[..last], error, i) {
        assert RaisedByUnhashed(t, dir, entries, error, i);
      }
      forall i: nat | RaisedByUnhashed(t, dir, entries, error, i) && i < last
        ensures RaisedByUnhashed(t, dir, entries[..last], error, i)
      {
      }
      assert RaisedByUnhashed(t, dir, entries, error, last)
             <==> error in UnhashedErrorsOf(t, dir, entries[last]);
    }
  }

  lemma {:induction false} UnlistedAre(paths: seq<string>, known: set<string>, error: Error)
    ensures error in UnlistedErrors(paths, known)
            <==> error.Unlisted? && error.path in paths && error.path != "manifest.json"
                 && !IsSignature(error.path) && error.path !in known
  {
    if paths != [] {
      var last := |paths| - 1;
      UnlistedAre(paths[..last], known, error);
      CoveredAreHashed(paths[last]);
      hide IsPayload, IsSignature;
      assert paths == paths[..last] + [paths[last]];
    }
  }

  lemma PathsAreNamed(entries: seq<Entry>, path: string)
    ensures path in Paths(entries) <==> Names(entries, path)
  {
    if path in Paths(entries) {
      var e :| e in entries && e.Entry? && e.path == path;
      var i :| 0 <= i < |entries| && entries[i] == e;
    }
  }

  lemma SecondNamingIsADuplicate(entries: seq<Entry>, path: string)
    ensures NamesTwice(entries, path)
            <==> exists i: nat :: i < |entries| && entries[i].Entry? && entries[i].path == path
                                  && path in Paths(entries[..i])
  {
    if NamesTwice(entries, path) {
      var i, j :| 0 <= i < j < |entries| && entries[i].Entry? && entries[i].path == path
                  && entries[j].Entry? && entries[j].path == path;
      assert entries[..j][i] == entries[i];
      PathsAreNamed(entries[..j], path);
    }
    if j: nat :| j < |entries| && entries[j].Entry? && entries[j].path == path
                 && path in Paths(entries[..j]) {
      PathsAreNamed(entries[..j], path);
      var i :| 0 <= i < j && entries[..j][i].Entry? && entries[..j][i].path == path;
      assert entries[..j][i] == entries[i];
    }
  }

  /** What an entry of the table can be blamed for. */
  predicate DeservedByFiles(t: Tools, dir: Directory, files: seq<Entry>, error: Error) {
    match error
    case InvalidEntry => HasGarbage(files)
    case Duplicate(p) => NamesTwice(files, p)
    case UnsafePath(p) => !t.safe(p) && Names(files, p)
    case MissingFile(p) => t.safe(p) && p !in dir && Names(files, p)
    case HashMismatch(p) => t.safe(p) && p in dir && WrongSha(files, p, t.hash(dir[p]))
    case _ => false
  }

  predicate DeservedByUnhashed(t: Tools, dir: Directory, entries: seq<Entry>, error: Error) {
    match error
    case InvalidUnhashed => HasGarbage(entries)
    case Unsupported(p) => p != "timings/timings.json" && Names(entries, p)
    case UnsafePath(p) => !t.safe(p) && Names(entries, p)
    case MissingFile(p) => t.safe(p) && p !in dir && Names(entries, p)
    case HashMismatch(p) => t.safe(p) && p in dir && WrongOptionalSha(entries, p, t.hash(dir[p]))
    case SizeMismatch(p) => t.safe(p) && p in dir && WrongInteger(entries, p, t.size(dir[p]))
    case _ => false
  }

  lemma TableErrorsAreDeserved(t: Tools, dir: Directory, files: seq<Entry>, error: Error)
    ensures error in TableErrors(t, dir, files) <==> DeservedByFiles(t, dir, files, error)
  {
    hide TableErrors, RaisedBy, DeservedByFiles;
    TableErrorsComeFrom(t, dir, files, error);
    if DeservedByFiles(t, dir, files, error) {
      var i := FaultyEntry(t, dir, files, error);
    }
    if i: nat :| RaisedBy(t, dir, files, error, i) {
      RaisedIsDeserved(t, dir, files, error, i);
    }
  }

  lemma RaisedIsDeserved(t: Tools, dir: Directory, files: seq<Entry>, error: Error, i: nat)
    requires RaisedBy(t, dir, files, error, i)
    ensures DeservedByFiles(t, dir, files, error)
  {
    hide Paths, NamesTwice;
    if error.Duplicate? {
      SecondNamingIsADuplicate(files, error.path);
    }
  }

  lemma FaultyEntry(t: Tools, dir: Directory, files: seq<Entry>, error: Error) returns (i: nat)
    requires DeservedByFiles(t, dir, files, error)
    ensures RaisedBy(t, dir, files, error, i)
  {
    hide Paths;
    match error
    case InvalidEntry => i :| i < |files| && files[i].NotAnEntry?;
    case Duplicate(p) =>
      SecondNamingIsADuplicate(files, p);
      i :| i < |files| && files[i].Entry? && files[i].path == p && p in Paths(files[..i]);
    case HashMismatch(p) =>
      i :| i < |files| && files[i].Entry? && files[i].path == p && files[i].sha != JStr(t.hash(dir[p]));
    case UnsafePath(p) => i :| i < |files| && files[i].Entry? && files[i].path == p;
    case MissingFile(p) => i :| i < |files| && files[i].Entry? && files[i].path == p;
  }

  lemma UnhashedErrorsAreDeserved(t: Tools, dir: Directory, entries: seq<Entry>, error: Error)
    ensures error in UnhashedErrors(t, dir, entries) <==> DeservedByUnhashed(t, dir, entries, error)
  {
    hide UnhashedErrors, RaisedByUnhashed, DeservedByUnhashed;
    UnhashedErrorsComeFrom(t, dir, entries, error);
    if DeservedByUnhashed(t, dir, entries, error) {
      var i := FaultyUnhashed(t, dir, entries, error);
    }
    if i: nat :| RaisedByUnhashed(t, dir, entries, error, i) {
      RaisedUnhashedIsDeserved(t, dir, entries, error, i);
    }
  }

  lemma RaisedUnhashedIsDeserved(t: Tools, dir: Directory, entries: seq<Entry>, error: Error, i: nat)
    requires RaisedByUnhashed(t, dir, entries, error, i)
    ensures DeservedByUnhashed(t, dir, entries, error)
  {
  }

  lemma FaultyUnhashed(t: Tools, dir: Directory, entries: seq<Entry>, error: Error) returns (i: nat)
    requires DeservedByUnhashed(t, dir, entries, error)
    ensures RaisedByUnhashed(t, dir, entries, error, i)
  {
    match error
    case InvalidUnhashed => i :| i < |entries| && entries[i].NotAnEntry?;
    case HashMismatch(p) =>
      i :| i < |entries| && entries[i].Entry? && entries[i].path == p && entries[i].sha != JNull
           && entries[i].sha != JStr(t.hash(dir[p]));
    case SizeMismatch(p) =>
      i :| i < |entries| && entries[i].Entry? && entries[i].path == p
           && OtherInteger(entries[i].size, t.size(dir[p]));
    case Unsupported(p) => i :| i < |entries| && entries[i].Entry? && entries[i].path == p;
    case UnsafePath(p) => i :| i < |entries| && entries[i].Entry? && entries[i].path == p;
    case MissingFile(p) => i :| i < |entries| && entries[i].Entry? && entries[i].path == p;
  }

  lemma NothingUnhashed(t: Tools, dir: Directory, error: Error)
    ensures !DeservedByUnhashed(t, dir, [], error)
  {
  }

  /** An error is reported exactly when the fault it names is there. */
  lemma ErrorsAreDeserved(t: Tools, dir: Directory, paths: seq<string>, m: Manifest, error: Error)
    requires Lists(paths, dir)
    ensures error in Errors(t, dir, paths, m) <==> Deserved(t, dir, m, error)
  {
    hide TableErrors, UnhashedErrors, UnlistedErrors, Sorted, ValidEntries, Names, NamesTwice,
         HasGarbage, WrongSha, WrongOptionalSha, WrongInteger, Paths, IsSignature;
    TableErrorsAreDeserved(t, dir, m.files, error);
    UnhashedErrorsAreDeserved(t, dir, Unhashed(m), error);
    UnlistedAre(Sorted(paths, Itself), Paths(m.files) + Paths(Unhashed(m)), error);
    SortedHasTheSame(paths, Itself);
    NothingUnhashed(t, dir, error);
    if error.Unlisted? {
      PathsAreNamed(m.files, error.path);
      PathsAreNamed(Unhashed(m), error.path);
    }
  }
}

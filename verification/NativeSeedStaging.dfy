/** Staging of a native runtime at build time: one immutable directory, named by the hash of what is in it. */
module NativeSeedStaging {
  import opened Options
  import opened Ordering
  import opened PosixDirectory
  import opened SeedMarker
  import opened TextLines
  import opened RuntimeManifest
  import opened NativeGeneration
  import opened NativeLauncher

  datatype Source = Source(name: string, node: Node)

  predicate ByName(a: Artifact, b: Artifact) {
    LowerLeq(a.name, b.name)
  }

  predicate SourcesOk(sources: seq<Source>) {
    forall i :: 0 <= i < |sources| ==> SafeFileName(sources[i].name) && sources[i].node.Regular?
  }

  function Read(source: Source): Artifact {
    Artifact(source.name, if source.node.Regular? then source.node.bytes else "")
  }

  /** The sources as artifacts, in the order of the list. */
  function Entries(sources: seq<Source>): seq<Artifact> {
    Sort(ByName, Mapped(Read, sources))
  }

  /** What `verify_generation` compares. */
  predicate MatchesSources(h: Sha, d: Dir, entries: seq<Artifact>) {
    && ReadThrough(d, FILE_LIST).Some? && Lines(ReadThrough(d, FILE_LIST).value) == NamesOf(entries)
    && forall i :: 0 <= i < |entries| ==> SameFile(h, d, entries[i])
  }

  predicate SameFile(h: Sha, d: Dir, entry: Artifact) {
    IsRegular(d, entry.name) && h(d[entry.name].bytes) == h(entry.bytes)
  }

  lemma EntriesAreSorted(sources: seq<Source>)
    ensures Sorted(LowerLeq, NamesOf(Entries(sources)))
  {
    LowerOrder([]);
    SortSorts(ByName, Mapped(Read, sources));
  }

  lemma EntriesAreSafe(sources: seq<Source>)
    requires SourcesOk(sources)
    ensures forall i :: 0 <= i < |Entries(sources)| ==> SafeFileName(Entries(sources)[i].name)
  {
    var read, entries := Mapped(Read, sources), Entries(sources);
    forall i | 0 <= i < |entries|
      ensures SafeFileName(entries[i].name)
    {
      assert entries[i] in multiset(entries);
      assert entries[i] in read;
    }
  }

  /** No two neighbours equal but for case: then no two names at all are. */
  lemma NeighboursDecide(entries: seq<Artifact>)
    requires Sorted(LowerLeq, NamesOf(entries))
    ensures (forall i :: 0 <= i < |entries| - 1 ==> !SameIgnoringCase(entries[i].name, entries[i + 1].name)) <==> Increasing(NamesOf(entries))
  {
    var names := NamesOf(entries);
    assert |names| == |entries|;
    if forall i :: 0 <= i < |entries| - 1 ==> !SameIgnoringCase(entries[i].name, entries[i + 1].name) {
      forall i | 0 <= i < |names| - 1
        ensures !SameIgnoringCase(names[i], names[i + 1])
      {
        assert names[i] == entries[i].name && names[i + 1] == entries[i + 1].name;
      }
      SortedAndDistinctNeighbours(names);
    } else {
      var i :| 0 <= i < |entries| - 1 && SameIgnoringCase(entries[i].name, entries[i + 1].name);
      assert SameIgnoringCase(names[i], names[i + 1]);
    }
  }

  /** What matches its sources hashes to their id. */
  lemma {:induction false} SameDigestsSameList(h: Sha, a: seq<Artifact>, b: seq<Artifact>)
    requires |a| == |b| && forall i :: 0 <= i < |a| ==> a[i].name == b[i].name && h(a[i].bytes) == h(b[i].bytes)
    ensures Listed(h, a) == Listed(h, b)
  {
    if a != [] {
      SameDigestsSameList(h, a[1..], b[1..]);
    }
  }

  lemma MatchingHasTheId(h: Sha, d: Dir, entries: seq<Artifact>)
    requires MatchesSources(h, d, entries) && Stageable(entries) && entries != []
    ensures NativeSeedId(h, d) == Some(GenerationId(h, entries))
  {
    var names := NamesOf(entries);
    AcceptedIffIncreasing(names);
    hide Accepted, Increasing, Lines, SafeFileName;
    forall i | 0 <= i < |names|
      ensures IsRegular(d, names[i]) && h(d[names[i]].bytes) == h(entries[i].bytes)
    {
      assert SameFile(h, d, entries[i]);
    }
    SameDigestsSameList(h, ArtifactsOf(d, names), entries);
  }

  // ---------------------------------------------------------------- the operations

  /** `verify_generation`. */
  method VerifyGeneration(disk: Disk, p: Location, entries: seq<Artifact>) returns (ok: bool)
    requires p in disk.dirs
    modifies disk`dead, disk`faults
    ensures disk.faults >= old(disk.faults)
    ensures ok ==> MatchesSources(disk.h, disk.dirs[p], entries) && disk.faults == old(disk.faults)
    ensures !ok && disk.faults == old(disk.faults) ==> !MatchesSources(disk.h, disk.dirs[p], entries)
  {
    ok := disk.Attempt();
    if !ok { return; }
    var d := disk.dirs[p];
    var text := ReadThrough(d, FILE_LIST);
    if text.None? || Lines(text.value) != NamesOf(entries) { return false; }
    for i := 0 to |entries|
      invariant disk.faults == old(disk.faults)
      invariant forall k :: 0 <= k < i ==> SameFile(disk.h, d, entries[k])
    {
      ok := disk.Attempt();
      if !ok || !SameFile(disk.h, d, entries[i]) { return false; }
    }
    return true;
  }

  /** `write_runtime_file_list`: an existing file is overwritten. */
  method WriteRuntimeFileList(disk: Disk, p: Location, names: seq<string>) returns (ok: bool)
    requires p in disk.dirs
    modifies disk`dirs, disk`dead, disk`faults
    ensures disk.faults >= old(disk.faults) && (!ok ==> disk.faults > old(disk.faults))
    ensures OnlyAt(old(disk.dirs), disk.dirs, p)
    ensures ok ==> disk.dirs[p] == old(disk.dirs)[p][FILE_LIST := Regular(Written(names))] && disk.faults == old(disk.faults)
  {
    OnlyAtSame(disk.dirs, p);
    ok := disk.Attempt();
    if !ok { return; }
    var partial := *;
    disk.dirs := disk.dirs[p := disk.dirs[p][FILE_LIST := Regular(partial)]];
    ok := disk.Attempt();
    if !ok { return; }
    disk.dirs := disk.dirs[p := disk.dirs[p][FILE_LIST := Regular(Written(names))]];
    assert disk.dirs[p] == old(disk.dirs)[p][FILE_LIST := Regular(Written(names))];
    ok := disk.Attempt();
  }

  lemma CopiedMore(entries: seq<Artifact>, i: nat)
    requires i < |entries| && Increasing(NamesOf(entries))
    ensures entries[i].name !in Copied(entries[..i])
    ensures Copied(entries[..i + 1]) == Copied(entries[..i])[entries[i].name := Regular(entries[i].bytes)]
  {
    DistinctNames(entries);
    assert entries[..i + 1][..i] == entries[..i];
  }

  /** Copies every source, then writes the list. */
  method FillSeed(disk: Disk, entries: seq<Artifact>, temporary: Location) returns (ok: bool)
    requires temporary in disk.dirs && disk.dirs[temporary] == map[] && Increasing(NamesOf(entries))
    modifies disk`dirs, disk`dead, disk`faults
    ensures disk.faults >= old(disk.faults) && (!ok ==> disk.faults > old(disk.faults))
    ensures OnlyAt(old(disk.dirs), disk.dirs, temporary)
    ensures ok ==> disk.dirs[temporary] == StagedDir(entries) && disk.faults == old(disk.faults)
  {
    OnlyAtSame(disk.dirs, temporary);
    assert disk.dirs[temporary] == Copied(entries[..0]);
    hide Increasing, OnlyAt;
    for i := 0 to |entries|
      invariant disk.faults == old(disk.faults) && OnlyAt(old(disk.dirs), disk.dirs, temporary) && temporary in disk.dirs
      invariant disk.dirs[temporary] == Copied(entries[..i])
    {
      CopiedMore(entries, i);
      ghost var before := disk.dirs;
      ok := disk.Fill(temporary, entries[i].name, entries[i].bytes);
      OnlyAtAgain(old(disk.dirs), before, disk.dirs, temporary);
      StillThere(before, disk.dirs, temporary);
      if !ok { return; }
    }
    assert entries[..|entries|] == entries;
    ghost var before := disk.dirs;
    ok := WriteRuntimeFileList(disk, temporary, NamesOf(entries));
    OnlyAtAgain(old(disk.dirs), before, disk.dirs, temporary);
  }

  lemma StillThere(before: Dirs, now: Dirs, p: Location)
    requires OnlyAt(before, now, p)
    ensures p in now
  {
  }

  method FillAndPublish(disk: Disk, entries: seq<Artifact>, temporary: Location, target: Location) returns (ok: bool)
    requires temporary in disk.dirs && disk.dirs[temporary] == map[] && target !in disk.dirs && temporary != target
    requires Increasing(NamesOf(entries))
    modifies disk`dirs, disk`dead, disk`faults
    ensures disk.faults >= old(disk.faults) && (!ok ==> disk.faults > old(disk.faults))
    ensures KeptBut(old(disk.dirs), disk.dirs, temporary)
    ensures ok ==> disk.dirs == old(disk.dirs)[target := StagedDir(entries)] - {temporary} && disk.faults == old(disk.faults)
  {
    hide Increasing, StagedDir;
    ok := FillSeed(disk, entries, temporary);
    if !ok { return; }
    ok := disk.Attempt();
    if !ok { return; }
    ok := disk.RenameDir(temporary, target);
    if !ok { return; }
    ok := disk.Attempt();
  }

  method PublishSeed(disk: Disk, entries: seq<Artifact>, id: string) returns (ok: bool)
    requires Seeds(id) !in disk.dirs && IsId(id) && Increasing(NamesOf(entries))
    modifies disk`dirs, disk`counter, disk`dead, disk`faults
    ensures disk.faults >= old(disk.faults) && Kept(old(disk.dirs), disk.dirs)
    ensures ok ==> disk.dirs == old(disk.dirs)[Seeds(id) := StagedDir(entries)] && disk.faults == old(disk.faults)
    ensures ok ==> Seeds(StagingName(id, disk.pid, old(disk.counter))) !in old(disk.dirs)
    ensures !ok && disk.faults == old(disk.faults) ==> Seeds(StagingName(id, disk.pid, old(disk.counter))) in old(disk.dirs)
  {
    hide Increasing, StagedDir, StagingName, IsId, Kept, KeptBut;
    var temporary := Seeds(StagingName(id, disk.pid, disk.counter));
    disk.counter := disk.counter + 1;
    StagingIsNoId(id, disk.pid, disk.counter - 1);
    ghost var before := disk.dirs;
    KeptSelf(before);
    ok := disk.CreateDir(temporary);
    if !ok { return; }
    ok := FillAndPublish(disk, entries, temporary, Seeds(id));
    ghost var filled := disk.dirs;
    if ok {
      TemporaryGone(before, temporary, Seeds(id), StagedDir(entries));
    } else {
      var removed := disk.RemoveDirAll(temporary);
      KeptButTwice(before[temporary := map[]], filled, disk.dirs, temporary);
    }
    KeptButNew(before, disk.dirs, temporary);
  }

  /** Everything that staging needs, when no operation fails. */
  ghost predicate CanStage(disk: Disk, sources: seq<Source>)
    reads disk
  {
    var entries := Entries(sources);
    var id := GenerationId(disk.h, entries);
    && SourcesOk(sources) && Increasing(NamesOf(entries))
    && if Seeds(id) in disk.dirs then MatchesSources(disk.h, disk.dirs[Seeds(id)], entries)
       else Seeds(StagingName(id, disk.pid, disk.counter)) !in disk.dirs
  }

  /** `stage_native_generation`. */
  method StageNativeGeneration(disk: Disk, sources: seq<Source>) returns (id: Option<string>)
    requires IsSha(disk.h)
    modifies disk`dirs, disk`counter, disk`dead, disk`faults
    ensures disk.faults >= old(disk.faults) && Kept(old(disk.dirs), disk.dirs)
    ensures id.Some? ==> old(CanStage(disk, sources)) && id.value == GenerationId(disk.h, Entries(sources)) && Seeds(id.value) in disk.dirs
    ensures id.Some? && Seeds(id.value) !in old(disk.dirs) ==> disk.dirs == old(disk.dirs)[Seeds(id.value) := StagedDir(Entries(sources))]
    ensures id.Some? && ReadableList(Entries(sources)) ==> NativeSeedId(disk.h, disk.dirs[Seeds(id.value)]) == id
    ensures id.None? && disk.faults == old(disk.faults) ==> !old(CanStage(disk, sources))
  {
    hide StagingName, MatchesSources, StagedDir, Increasing, Entries, GenerationId, NativeSeedId, SafeFileName, ReadableList;
    KeptSelf(disk.dirs);
    for i := 0 to |sources|
      invariant disk.faults == old(disk.faults) && disk.dirs == old(disk.dirs) && disk.counter == old(disk.counter)
      invariant forall k :: 0 <= k < i ==> SafeFileName(sources[k].name) && sources[k].node.Regular?
    {
      var ok := disk.Attempt();
      if !ok || !SafeFileName(sources[i].name) || !sources[i].node.Regular? { return None; }
    }
    var entries := Entries(sources);
    EntriesAreSorted(sources);
    EntriesAreSafe(sources);
    NeighboursDecide(entries);
    var i := 1;
    while i < |entries|
      invariant 1 <= i && (i <= |entries| || entries == [])
      invariant forall k :: 0 <= k < i - 1 && k + 1 < |entries| ==> !SameIgnoringCase(entries[k].name, entries[k + 1].name)
    {
      if SameIgnoringCase(entries[i - 1].name, entries[i].name) { return None; }
      i := i + 1;
    }
    id := StageEntries(disk, entries);
  }

  /** Hash, lock, verify or publish. */
  method StageEntries(disk: Disk, entries: seq<Artifact>) returns (id: Option<string>)
    requires IsSha(disk.h) && Stageable(entries)
    modifies disk`dirs, disk`counter, disk`dead, disk`faults
    ensures disk.faults >= old(disk.faults) && Kept(old(disk.dirs), disk.dirs)
    ensures id.Some? ==> id.value == GenerationId(disk.h, entries) && Seeds(id.value) in disk.dirs
    ensures id.Some? && Seeds(id.value) !in old(disk.dirs) ==> disk.dirs == old(disk.dirs)[Seeds(id.value) := StagedDir(entries)]
    ensures id.Some? && ReadableList(entries) ==> NativeSeedId(disk.h, disk.dirs[Seeds(id.value)]) == id
    ensures var i := GenerationId(disk.h, entries);
      var ready := if Seeds(i) in old(disk.dirs) then MatchesSources(disk.h, old(disk.dirs)[Seeds(i)], entries)
                   else Seeds(StagingName(i, disk.pid, old(disk.counter))) !in old(disk.dirs);
      (id.Some? ==> ready) && (id.None? && disk.faults == old(disk.faults) ==> !ready)
  {
    hide StagingName, MatchesSources, StagedDir, NativeSeedId, ReadableList, Kept, Increasing;
    KeptSelf(disk.dirs);
    var ok := disk.Attempt();
    if !ok { return None; }
    var i := GenerationId(disk.h, entries);
    assert IsId(i);
    ok := disk.Attempt();
    if !ok { return None; }
    ok := disk.Attempt();
    if !ok { return None; }
    if Seeds(i) in disk.dirs {
      ok := VerifyGeneration(disk, Seeds(i), entries);
      ReadableIsNotEmpty(entries);
      if ok && entries != [] {
        MatchingHasTheId(disk.h, disk.dirs[Seeds(i)], entries);
      }
    } else {
      ok := PublishSeed(disk, entries, i);
      if ReadableList(entries) {
        BuildAndLaunchAgree(disk.h, entries);
      }
    }
    if !ok { return None; }
    return Some(i);
  }

  lemma ReadableIsNotEmpty(entries: seq<Artifact>)
    ensures ReadableList(entries) ==> entries != []
  {
  }
}

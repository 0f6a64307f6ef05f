/** Activation of a native generation: verify or publish it, then move one pointer, with a crash possible between any two
    operations on the file system. */
module NativeLauncher {
  import opened Options
  import opened PosixDirectory
  import opened SeedMarker
  import opened TextLines
  import opened RuntimeManifest
  import opened NativeGeneration

  const CURRENT_FILE := "codestory-native-current-generation-v1.txt"

  datatype Location = Seeds(name: string) | Generations(name: string)

  type Dirs = map<Location, Dir>

  predicate IsWhite(c: char) {
    c == ' ' || ('\t' <= c <= '\r')
  }

  function Trim(text: string): string {
    if text != "" && IsWhite(text[0]) then Trim(text[1..])
    else if text != "" && IsWhite(text[|text| - 1]) then Trim(text[..|text| - 1])
    else text
  }

  lemma TrimLine(id: string)
    requires IsId(id)
    ensures Trim(id + "\n") == id
  {
    assert (id + "\n")[..|id|] == id;
  }

  /** The generation that a pointer text selects, if it is there and complete. */
  function Pinned(h: Sha, dirs: Dirs, text: string): Option<string> {
    var id := Trim(text);
    if IsId(id) && Generations(id) in dirs && Complete(h, id, dirs[Generations(id)]) then Some(id) else None
  }

  /** The pointer is absent or selects a complete generation. */
  predicate PointerOk(h: Sha, dirs: Dirs, pointer: Option<string>) {
    pointer.Some? ==> Pinned(h, dirs, pointer.value).Some?
  }

  /** The hash tells the candidate from every executable that was published before. */
  predicate NoConfusion(h: Sha, dirs: Dirs, candidate: Option<Node>) {
    forall p :: p in dirs && IsRegular(dirs[p], EXECUTABLE) && candidate.Some? && candidate.value.Regular? ==>
      Apart(h, dirs[p][EXECUTABLE].bytes, candidate.value.bytes)
  }

  ghost predicate Kept(before: Dirs, now: Dirs) {
    forall p :: p in before ==> p in now && now[p] == before[p]
  }

  /** Whatever was there, except perhaps at `p`, still is. */
  ghost predicate KeptBut(before: Dirs, now: Dirs, p: Location) {
    forall q :: q in before && q != p ==> q in now && now[q] == before[q]
  }

  lemma KeptButNew(before: Dirs, now: Dirs, p: Location)
    requires p !in before && KeptBut(before[p := map[]], now, p)
    ensures Kept(before, now)
  {
    assert forall q :: q in before ==> q in before[p := map[]] && before[p := map[]][q] == before[q];
  }

  lemma KeptButTwice(a: Dirs, b: Dirs, c: Dirs, p: Location)
    requires KeptBut(a, b, p) && KeptBut(b, c, p)
    ensures KeptBut(a, c, p)
  {
  }

  /** Nothing but the directory at `p` was touched. */
  ghost predicate OnlyAt(before: Dirs, now: Dirs, p: Location) {
    p in before && p in now && now == before[p := now[p]]
  }

  lemma OnlyAtAgain(a: Dirs, b: Dirs, c: Dirs, p: Location)
    requires OnlyAt(a, b, p) && OnlyAt(b, c, p)
    ensures OnlyAt(a, c, p)
  {
  }

  lemma OnlyAtSame(a: Dirs, p: Location)
    requires p in a
    ensures OnlyAt(a, a, p)
  {
    assert a == a[p := a[p]];
  }

  // ---------------------------------------------------------------- the directory tree

  /** The installation directory as one launcher sees it while it holds the staging lock. Any operation may fail, and any
      may be the last before the process is killed; a killed process changes nothing more. */
  class Disk {
    const h: Sha
    const pid: nat
    var dirs: Dirs
    var candidate: Option<Node>
    var pointer: Option<string>
    var temporaries: map<string, string>
    var counter: nat
    var dead: bool
    ghost var faults: nat

    constructor (h: Sha, pid: nat, dirs: Dirs, candidate: Option<Node>, pointer: Option<string>)
      ensures this.h == h && this.pid == pid && this.dirs == dirs && this.candidate == candidate && this.pointer == pointer
      ensures temporaries == map[] && !dead && faults == 0
    {
      this.h, this.pid, this.dirs, this.candidate, this.pointer := h, pid, dirs, candidate, pointer;
      temporaries, counter, dead, faults := map[], 0, false, 0;
    }

    method Attempt() returns (ok: bool)
      modifies this`dead, this`faults
      ensures ok ==> faults == old(faults)
      ensures !ok ==> faults > old(faults)
    {
      ok := *;
      if dead { ok := false; }
      if !ok {
        faults := faults + 1;
        var killed := *;
        dead := dead || killed;
      }
    }

    method CreateDir(p: Location) returns (ok: bool)
      modifies this`dirs, this`dead, this`faults
      ensures faults >= old(faults)
      ensures ok ==> p !in old(dirs) && dirs == old(dirs)[p := map[]] && faults == old(faults)
      ensures !ok ==> dirs == old(dirs) && (faults == old(faults) ==> p in dirs)
    {
      ok := Attempt();
      if !ok || p in dirs { return false; }
      dirs := dirs[p := map[]];
    }

    /** `copy_verified`, or a hard link: create, fill, compare. What is in the file before the end is anything. */
    method Fill(p: Location, name: string, bytes: string) returns (ok: bool)
      requires p in dirs
      modifies this`dirs, this`dead, this`faults
      ensures faults >= old(faults) && OnlyAt(old(dirs), dirs, p)
      ensures ok ==> name !in old(dirs)[p] && dirs[p] == old(dirs)[p][name := Regular(bytes)] && faults == old(faults)
      ensures !ok && faults == old(faults) ==> name in old(dirs)[p]
    {
      OnlyAtSame(dirs, p);
      ok := Attempt();
      if !ok || name in dirs[p] { return false; }
      var partial := *;
      dirs := dirs[p := dirs[p][name := Regular(partial)]];
      ok := Attempt();
      if !ok { return false; }
      dirs := dirs[p := dirs[p][name := Regular(bytes)]];
      assert dirs[p] == old(dirs)[p][name := Regular(bytes)];
      ok := Attempt();
    }

    /** A directory replaces at most an empty one. */
    method RenameDir(source: Location, target: Location) returns (ok: bool)
      modifies this`dirs, this`dead, this`faults
      ensures faults >= old(faults)
      ensures ok ==> source in old(dirs) && dirs == old(dirs)[target := old(dirs)[source]] - {source} && faults == old(faults)
      ensures ok && target in old(dirs) ==> old(dirs)[target] == map[]
      ensures !ok ==> dirs == old(dirs) && (faults == old(faults) ==> source !in dirs || (target in dirs && dirs[target] != map[]))
    {
      ok := Attempt();
      if !ok || source !in dirs || (target in dirs && dirs[target] != map[]) { return false; }
      dirs := dirs[target := dirs[source]] - {source};
    }

    /** `remove_dir_all` may stop half way. */
    method RemoveDirAll(p: Location) returns (ok: bool)
      modifies this`dirs, this`dead, this`faults
      ensures faults >= old(faults) && (!ok ==> faults > old(faults))
      ensures KeptBut(old(dirs), dirs, p) && dirs.Keys <= old(dirs).Keys
      ensures ok ==> dirs == old(dirs) - {p}
    {
      ok := Attempt();
      if !ok { return; }
      if p in dirs {
        var rest := *;
        dirs := dirs[p := rest];
        ok := Attempt();
        if !ok { return; }
      }
      dirs := dirs - {p};
    }

    /** `write_atomic`: a temporary takes the contents, then the pointer's name. */
    method WriteAtomic(text: string) returns (ok: bool)
      modifies this`pointer, this`temporaries, this`counter, this`dead, this`faults
      ensures faults >= old(faults)
      ensures ok ==> pointer == Some(text) && temporaries == old(temporaries) && faults == old(faults)
      ensures !ok ==> pointer == old(pointer) || pointer == Some(text)
      ensures !ok && faults == old(faults) ==> StagingName(CURRENT_FILE, pid, old(counter)) in old(temporaries)
    {
      var temporary := StagingName(CURRENT_FILE, pid, counter);
      counter := counter + 1;
      ok := Attempt();
      if !ok || temporary in temporaries { return false; }
      var partial := *;
      temporaries := temporaries[temporary := partial];
      ok := WriteThenRename(temporary, text);
      if !ok {
        var removed := Attempt();
        if removed { temporaries := temporaries - {temporary}; }
      }
    }

    method WriteThenRename(temporary: string, text: string) returns (ok: bool)
      requires temporary in temporaries
      modifies this`pointer, this`temporaries, this`dead, this`faults
      ensures faults >= old(faults) && (!ok ==> faults > old(faults))
      ensures ok ==> pointer == Some(text) && temporaries == old(temporaries) - {temporary} && faults == old(faults)
      ensures !ok ==> pointer == old(pointer) || pointer == Some(text)
    {
      ok := Attempt();
      if !ok { return; }
      temporaries := temporaries[temporary := text];
      ok := Attempt();
      if !ok { return; }
      ok := Attempt();
      if !ok { return; }
      pointer := Some(temporaries[temporary]);
      temporaries := temporaries - {temporary};
      ok := Attempt();
    }

    // ---------------------------------------------------------------- reading

    /** `runtime_file_names`. */
    method RuntimeFileNames(p: Location) returns (names: Option<seq<string>>)
      requires p in dirs
      modifies this`dead, this`faults
      ensures faults >= old(faults)
      ensures names.Some? ==> names == ManifestNames(dirs[p]) && faults == old(faults)
      ensures names.None? && faults == old(faults) ==> ManifestNames(dirs[p]).None?
    {
      var ok := Attempt();
      if !ok { return None; }
      names := ManifestNames(dirs[p]);
    }

    /** `native_seed_id`: feeds name and digest of every listed file to the hash. */
    method NativeSeedIdOf(p: Location) returns (seed: Option<string>)
      requires p in dirs
      modifies this`dead, this`faults
      ensures faults >= old(faults)
      ensures seed.Some? ==> seed == NativeSeedId(h, dirs[p]) && faults == old(faults)
      ensures seed.None? && faults == old(faults) ==> NativeSeedId(h, dirs[p]).None?
    {
      var names := RuntimeFileNames(p);
      if names.None? { return None; }
      var list, fed := names.value, SEED_TAG;
      for i := 0 to |list|
        invariant faults == old(faults)
        invariant AllRegular(dirs[p], list[..i]) && fed == ListText(h, ArtifactsOf(dirs[p], list[..i]))
      {
        var ok := Attempt();
        if !ok || !IsRegular(dirs[p], list[i]) { return None; }
        var bytes := dirs[p][list[i]].bytes;
        ListTextStep(h, dirs[p], list, i);
        fed := fed + (list[i] + [NUL] + h(bytes));
      }
      assert list[..|list|] == list;
      return Some(HexText(h(fed)));
    }

    /** `runtime_seed_id`. */
    method RuntimeSeedOf(node: Option<Node>) returns (seed: Option<string>)
      modifies this`dead, this`faults
      ensures faults >= old(faults)
      ensures seed.Some? ==> seed == RuntimeSeed(node) && faults == old(faults)
      ensures seed.None? && faults == old(faults) ==> RuntimeSeed(node).None?
    {
      var ok := Attempt();
      if !ok || node.None? || !node.value.Regular? { return None; }
      seed := SeedIdFromBytes(node.value.bytes);
    }

    /** `verify_complete_generation`. */
    method VerifyCompleteGeneration(p: Location, digest: string) returns (ok: bool)
      requires p in dirs
      modifies this`dead, this`faults
      ensures faults >= old(faults)
      ensures ok ==> Verified(h, dirs[p], digest) && faults == old(faults)
      ensures !ok && faults == old(faults) ==> !Verified(h, dirs[p], digest)
    {
      var seed := NativeSeedIdOf(p);
      if seed.None? { return false; }
      var marker := RuntimeSeedOf(Executable(dirs[p]));
      if marker != seed { return false; }
      ok := Attempt();
      if ok { ok := h(dirs[p][EXECUTABLE].bytes) == digest; }
    }

    /** `pinned_current_runtime`. */
    method PinnedCurrentRuntime() returns (id: Option<string>)
      modifies this`dead, this`faults
      ensures faults >= old(faults)
      ensures id.Some? ==> pointer.Some? && id == Pinned(h, dirs, pointer.value)
      ensures id.None? && faults == old(faults) ==> pointer.None? || Pinned(h, dirs, pointer.value).None?
    {
      var ok := Attempt();
      if !ok || pointer.None? { return None; }
      var text := Trim(pointer.value);
      if !IsId(text) || Generations(text) !in dirs { return None; }
      var d := dirs[Generations(text)];
      var seed := RuntimeSeedOf(Executable(d));
      if seed.None? { return None; }
      ok := Attempt();
      if !ok { return None; }
      var digest := h(d[EXECUTABLE].bytes);
      if FinalId(h, seed.value, digest) != text { return None; }
      ok := VerifyCompleteGeneration(Generations(text), digest);
      if !ok { return None; }
      return Some(text);
    }
  }

  // ---------------------------------------------------------------- publication of a generation

  /** `hard_link_or_copy` for every listed name. */
  method CopySeed(disk: Disk, seed: Location, names: seq<string>, temporary: Location) returns (ok: bool)
    requires seed in disk.dirs && temporary in disk.dirs && seed != temporary && disk.dirs[temporary] == map[]
    modifies disk`dirs, disk`dead, disk`faults
    ensures disk.faults >= old(disk.faults) && OnlyAt(old(disk.dirs), disk.dirs, temporary)
    ensures ok ==> AllRegular(old(disk.dirs)[seed], names) && disk.faults == old(disk.faults)
    ensures ok ==> disk.dirs[temporary] == Selected(old(disk.dirs)[seed], names)
    ensures !ok && disk.faults == old(disk.faults) && Increasing(names) ==> !AllRegular(old(disk.dirs)[seed], names)
  {
    ghost var source := disk.dirs[seed];
    OnlyAtSame(disk.dirs, temporary);
    assert disk.dirs[temporary] == Selected(source, []);
    assert names[..0] == [];
    hide Increasing, Selected;
    for i := 0 to |names|
      invariant disk.faults == old(disk.faults) && OnlyAt(old(disk.dirs), disk.dirs, temporary)
      invariant AllRegular(source, names[..i])
      invariant disk.dirs[temporary] == Selected(source, names[..i])
    {
      SelectedStep(source, names, i);
      ok := disk.Attempt();
      if !ok || !IsRegular(disk.dirs[seed], names[i]) { return false; }
      ghost var before := disk.dirs;
      ok := disk.Fill(temporary, names[i], disk.dirs[seed][names[i]].bytes);
      OnlyAtAgain(old(disk.dirs), before, disk.dirs, temporary);
      if !ok { return false; }
    }
    assert names[..|names|] == names;
    return true;
  }

  lemma SelectedStep(source: Dir, names: seq<string>, i: nat)
    requires i < |names| && AllRegular(source, names[..i])
    ensures Increasing(names) ==> names[i] !in Selected(source, names[..i])
    ensures IsRegular(source, names[i]) ==>
      AllRegular(source, names[..i + 1]) &&
      Selected(source, names[..i + 1]) == Selected(source, names[..i])[names[i] := source[names[i]]]
  {
    assert Increasing(names) ==> forall k :: 0 <= k < i ==> !SameIgnoringCase(names[k], names[i]);
    assert names[..i + 1] == names[..i] + [names[i]];
  }

  /** The runtime files, the executable, the list, in this order. */
  method FillGeneration(disk: Disk, seed: Location, names: seq<string>, bytes: string, temporary: Location) returns (ok: bool)
    requires seed in disk.dirs && temporary in disk.dirs && disk.dirs[temporary] == map[] && seed != temporary
    requires ManifestNames(disk.dirs[seed]) == Some(names)
    modifies disk`dirs, disk`dead, disk`faults
    ensures disk.faults >= old(disk.faults) && OnlyAt(old(disk.dirs), disk.dirs, temporary)
    ensures ok ==> Publishable(old(disk.dirs)[seed]) && disk.faults == old(disk.faults)
    ensures ok ==> disk.dirs[temporary] == Published(old(disk.dirs)[seed], bytes)
    ensures !ok && disk.faults == old(disk.faults) ==> !Publishable(old(disk.dirs)[seed])
  {
    ghost var source, before := disk.dirs[seed], disk.dirs;
    PublishableParts(source, names, bytes);
    hide Publishable, Increasing, AllRegular, Selected, Published, ManifestNames;
    ok := CopySeed(disk, seed, names, temporary);
    if !ok { return; }
    SeedUntouched(before, disk.dirs, temporary, seed);
    hide OnlyAt;
    ghost var copied := disk.dirs;
    ok := disk.Fill(temporary, EXECUTABLE, bytes);
    OnlyAtAgain(before, copied, disk.dirs, temporary);
    if !ok { return; }
    SeedUntouched(before, disk.dirs, temporary, seed);
    var text := ReadThrough(disk.dirs[seed], FILE_LIST);
    ghost var runnable := disk.dirs;
    ok := disk.Fill(temporary, FILE_LIST, text.value);
    OnlyAtAgain(before, runnable, disk.dirs, temporary);
  }

  lemma SeedUntouched(before: Dirs, now: Dirs, temporary: Location, seed: Location)
    requires OnlyAt(before, now, temporary) && seed in before && seed != temporary
    ensures seed in now && now[seed] == before[seed]
  {
  }

  lemma PublishableParts(source: Dir, names: seq<string>, bytes: string)
    requires ManifestNames(source) == Some(names)
    ensures Increasing(names) && ReadThrough(source, FILE_LIST).Some?
    ensures AllRegular(source, names) ==>
      (Publishable(source) <==> EXECUTABLE !in Selected(source, names) && FILE_LIST !in Selected(source, names)[EXECUTABLE := Regular(bytes)])
    ensures Publishable(source) ==>
      && AllRegular(source, names)
      && Published(source, bytes) ==
         Selected(source, names)[EXECUTABLE := Regular(bytes)][FILE_LIST := Regular(ReadThrough(source, FILE_LIST).value)]
  {
    AcceptedIffIncreasing(names);
    hide Accepted, Increasing, Lines;
    if AllRegular(source, names) {
      FilledIn(source, names);
    }
    assert EXECUTABLE != FILE_LIST;
  }

  /** Copies, then renames, then verifies what now stands under the generation's name. */
  method FillAndActivate(disk: Disk, seed: Location, names: seq<string>, bytes: string, temporary: Location, target: Location)
    returns (ok: bool)
    requires seed in disk.dirs && temporary in disk.dirs && disk.dirs[temporary] == map[] && target !in disk.dirs
    requires seed != temporary && temporary != target && ManifestNames(disk.dirs[seed]) == Some(names)
    modifies disk`dirs, disk`dead, disk`faults
    ensures disk.faults >= old(disk.faults)
    ensures ok ==> Publishable(old(disk.dirs)[seed]) && disk.faults == old(disk.faults)
    ensures ok ==> disk.dirs == old(disk.dirs)[target := Published(old(disk.dirs)[seed], bytes)] - {temporary}
    ensures ok ==> Verified(disk.h, Published(old(disk.dirs)[seed], bytes), disk.h(bytes))
    ensures KeptBut(old(disk.dirs), disk.dirs, temporary)
    ensures disk.dirs.Keys <= old(disk.dirs).Keys + {target}
    ensures target in disk.dirs ==> Publishable(old(disk.dirs)[seed]) && disk.dirs[target] == Published(old(disk.dirs)[seed], bytes)
    ensures !ok && disk.faults == old(disk.faults) && Publishable(old(disk.dirs)[seed]) ==>
      && !Verified(disk.h, Published(old(disk.dirs)[seed], bytes), disk.h(bytes))
      && disk.dirs == old(disk.dirs)[target := Published(old(disk.dirs)[seed], bytes)] - {temporary}
  {
    hide Publishable, Verified, NewGeneration, ManifestNames;
    ok := FillGeneration(disk, seed, names, bytes, temporary);
    if !ok { return; }
    ok := disk.Attempt();
    if !ok { return; }
    ok := disk.RenameDir(temporary, target);
    if !ok { return; }
    ok := disk.Attempt();
    if !ok { return; }
    ok := disk.VerifyCompleteGeneration(target, disk.h(bytes));
  }

  lemma TemporaryGone(before: Dirs, temporary: Location, target: Location, d: Dir)
    requires temporary !in before && temporary != target
    ensures before[temporary := map[]][target := d] - {temporary} == before[target := d]
  {
  }

  /** No generation but `id` is new, and that one is what was published. */
  ghost predicate AddsOnly(before: Dirs, now: Dirs, id: string, seed: Dir, bytes: string) {
    forall other :: IsId(other) && Generations(other) in now && Generations(other) !in before ==>
      other == id && Publishable(seed) && now[Generations(other)] == Published(seed, bytes)
  }

  /** Fills, renames, verifies; on failure removes the temporary, if it is still there. */
  method FillOrRemove(disk: Disk, seed: Location, names: seq<string>, bytes: string, temporary: Location, target: Location)
    returns (ok: bool)
    requires seed in disk.dirs && temporary in disk.dirs && disk.dirs[temporary] == map[] && target !in disk.dirs
    requires seed != temporary && temporary != target && ManifestNames(disk.dirs[seed]) == Some(names)
    modifies disk`dirs, disk`dead, disk`faults
    ensures disk.faults >= old(disk.faults)
    ensures ok ==> Publishable(old(disk.dirs)[seed]) && disk.faults == old(disk.faults)
    ensures ok ==> disk.dirs == old(disk.dirs)[target := Published(old(disk.dirs)[seed], bytes)] - {temporary}
    ensures ok ==> Verified(disk.h, Published(old(disk.dirs)[seed], bytes), disk.h(bytes))
    ensures KeptBut(old(disk.dirs), disk.dirs, temporary)
    ensures disk.dirs.Keys <= old(disk.dirs).Keys + {target}
    ensures target in disk.dirs ==> Publishable(old(disk.dirs)[seed]) && disk.dirs[target] == Published(old(disk.dirs)[seed], bytes)
    ensures !ok && disk.faults == old(disk.faults) && Publishable(old(disk.dirs)[seed]) ==>
      && !Verified(disk.h, Published(old(disk.dirs)[seed], bytes), disk.h(bytes))
      && disk.dirs == old(disk.dirs)[target := Published(old(disk.dirs)[seed], bytes)] - {temporary}
  {
    hide Publishable, Verified, Published, ManifestNames;
    ok := FillAndActivate(disk, seed, names, bytes, temporary, target);
    if !ok {
      ghost var filled := disk.dirs;
      var removed := disk.RemoveDirAll(temporary);
      KeptButTwice(old(disk.dirs), filled, disk.dirs, temporary);
    }
  }

  lemma NothingElseIsNew(before: Dirs, now: Dirs, temporary: Location, id: string, seed: Dir, bytes: string)
    requires now.Keys <= before.Keys + {temporary, Generations(id)} && forall other :: IsId(other) ==> Generations(other) != temporary
    requires Generations(id) in now ==> Publishable(seed) && now[Generations(id)] == Published(seed, bytes)
    ensures AddsOnly(before, now, id, seed, bytes)
  {
  }

  lemma StagingIsNoId(id: string, pid: nat, counter: nat)
    requires IsId(id)
    ensures StagingName(id, pid, counter) != id
  {
    StagedUnderNoId(id, pid, counter);
  }

  lemma StagedUnderNoId(name: string, pid: nat, counter: nat)
    ensures forall other :: IsId(other) ==> Generations(other) != Generations(StagingName(name, pid, counter))
  {
    assert StagingName(name, pid, counter)[0] == '.';
    assert !IsHexDigit('.');
  }

  method PublishThrough(disk: Disk, seed: Location, names: seq<string>, bytes: string, id: string, temporary: Location) returns (ok: bool)
    requires seed in disk.dirs && Generations(id) !in disk.dirs && IsId(id) && ManifestNames(disk.dirs[seed]) == Some(names)
    requires forall other :: IsId(other) ==> Generations(other) != temporary
    modifies disk`dirs, disk`dead, disk`faults
    ensures disk.faults >= old(disk.faults)
    ensures Kept(old(disk.dirs), disk.dirs) && AddsOnly(old(disk.dirs), disk.dirs, id, old(disk.dirs)[seed], bytes)
    ensures ok ==> Publishable(old(disk.dirs)[seed]) && disk.faults == old(disk.faults) && temporary !in old(disk.dirs)
    ensures ok ==> disk.dirs == old(disk.dirs)[Generations(id) := Published(old(disk.dirs)[seed], bytes)]
    ensures ok ==> Verified(disk.h, Published(old(disk.dirs)[seed], bytes), disk.h(bytes))
    ensures !ok && disk.faults == old(disk.faults) ==>
      || temporary in old(disk.dirs)
      || !Publishable(old(disk.dirs)[seed])
      || (!Verified(disk.h, Published(old(disk.dirs)[seed], bytes), disk.h(bytes)) &&
          disk.dirs == old(disk.dirs)[Generations(id) := Published(old(disk.dirs)[seed], bytes)])
  {
    hide Publishable, Verified, Published, ManifestNames, Kept, KeptBut, AddsOnly;
    ghost var before := disk.dirs;
    NothingNew(before, id, before[seed], bytes);
    assert temporary != Generations(id);
    hide IsId;
    ok := disk.CreateDir(temporary);
    if !ok { return; }
    NewDirectory(before, temporary, seed);
    ok := FillOrRemove(disk, seed, names, bytes, temporary, Generations(id));
    TemporaryGone(before, temporary, Generations(id), if ok || Publishable(before[seed]) then Published(before[seed], bytes) else map[]);
    KeptButNew(before, disk.dirs, temporary);
    NothingElseIsNew(before, disk.dirs, temporary, id, before[seed], bytes);
  }

  /** `publish_complete_generation`. Whatever happens, nothing that was there before is touched, and what is new under a
      generation's name is what was to be published; a publication that does not verify stays there. */
  method PublishCompleteGeneration(disk: Disk, seed: Location, bytes: string, id: string) returns (ok: bool)
    requires seed in disk.dirs && Generations(id) !in disk.dirs && IsId(id)
    modifies disk`dirs, disk`counter, disk`dead, disk`faults
    ensures disk.faults >= old(disk.faults)
    ensures Kept(old(disk.dirs), disk.dirs) && AddsOnly(old(disk.dirs), disk.dirs, id, old(disk.dirs)[seed], bytes)
    ensures ok ==> Publishable(old(disk.dirs)[seed]) && disk.faults == old(disk.faults) && Generations(StagingName(id, disk.pid, old(disk.counter))) !in old(disk.dirs)
    ensures ok ==> disk.dirs == old(disk.dirs)[Generations(id) := Published(old(disk.dirs)[seed], bytes)]
    ensures ok ==> Verified(disk.h, Published(old(disk.dirs)[seed], bytes), disk.h(bytes))
    ensures !ok && disk.faults == old(disk.faults) ==>
      || Generations(StagingName(id, disk.pid, old(disk.counter))) in old(disk.dirs)
      || !Publishable(old(disk.dirs)[seed])
      || (!Verified(disk.h, Published(old(disk.dirs)[seed], bytes), disk.h(bytes)) &&
          disk.dirs == old(disk.dirs)[Generations(id) := Published(old(disk.dirs)[seed], bytes)])
  {
    var names := disk.RuntimeFileNames(seed);
    NotWithoutNames(disk.dirs[seed]);
    hide Publishable, Verified, Published, ManifestNames, StagingName, IsId, Kept, AddsOnly;
    NothingNew(disk.dirs, id, disk.dirs[seed], bytes);
    if names.None? {
      return false;
    }
    var temporary := Generations(StagingName(id, disk.pid, disk.counter));
    StagedUnderNoId(id, disk.pid, disk.counter);
    disk.counter := disk.counter + 1;
    ok := PublishThrough(disk, seed, names.value, bytes, id, temporary);
  }

  lemma NothingNew(dirs: Dirs, id: string, seed: Dir, bytes: string)
    ensures Kept(dirs, dirs) && AddsOnly(dirs, dirs, id, seed, bytes)
  {
  }

  lemma NotWithoutNames(seed: Dir)
    ensures ManifestNames(seed).None? ==> !Publishable(seed)
  {
  }

  lemma NewDirectory(before: Dirs, temporary: Location, seed: Location)
    requires temporary !in before && seed in before
    ensures seed != temporary && before[temporary := map[]][seed] == before[seed] && before[temporary := map[]][temporary] == map[]
  {
  }

  // ---------------------------------------------------------------- activation

  /** The generation of this candidate is there and verifies, or can be made from the seed. */
  predicate Ready(h: Sha, dirs: Dirs, seed: Location, bytes: string, id: string, temporary: Location)
    requires seed in dirs
  {
    if Generations(id) in dirs then Verified(h, dirs[Generations(id)], h(bytes))
    else temporary !in dirs && Publishable(dirs[seed]) && Verified(h, Published(dirs[seed], bytes), h(bytes))
  }

  lemma VerifiedIsComplete(h: Sha, d: Dir, seed: string, bytes: string)
    requires Verified(h, d, h(bytes)) && SeedId(bytes) == Some(seed)
    requires IsRegular(d, EXECUTABLE) ==> Apart(h, d[EXECUTABLE].bytes, bytes)
    ensures Complete(h, FinalId(h, seed, h(bytes)), d)
  {
  }

  /** Every generation is complete under its own name. */
  predicate Sound(h: Sha, dirs: Dirs) {
    forall p :: p in dirs && p.Generations? && IsId(p.name) ==> Complete(h, p.name, dirs[p])
  }

  /** Every seed directory that can be published has the id it is named after. */
  predicate Honest(h: Sha, dirs: Dirs) {
    forall p :: p in dirs && p.Seeds? && Publishable(dirs[p]) ==> NativeSeedId(h, dirs[p]) == Some(p.name)
  }

  lemma SoundKept(h: Sha, before: Dirs, now: Dirs, seed: string, bytes: string)
    requires Seeds(seed) in before && SeedId(bytes) == Some(seed) && Kept(before, now)
    requires AddsOnly(before, now, FinalId(h, seed, h(bytes)), before[Seeds(seed)], bytes)
    ensures Sound(h, before) && Honest(h, before) ==> Sound(h, now)
  {
    if Sound(h, before) && Honest(h, before) {
      hide IsId, Complete, FinalId, Publishable, Published, NativeSeedId;
      forall p | p in now && p.Generations? && IsId(p.name)
        ensures Complete(h, p.name, now[p])
      {
        if p !in before {
          assert p == Generations(p.name);
          assert Seeds(seed) in before;
          PublishedIsComplete(h, before[Seeds(seed)], seed, bytes);
        }
      }
    }
  }

  /** What stands under the generation's name is not what the candidate needs. */
  predicate Spoiled(h: Sha, dirs: Dirs, id: string, bytes: string) {
    Generations(id) in dirs && !Verified(h, dirs[Generations(id)], h(bytes))
  }

  method EnsureGeneration(disk: Disk, seed: string, bytes: string, id: string) returns (ok: bool)
    requires Seeds(seed) in disk.dirs && SeedId(bytes) == Some(seed) && id == FinalId(disk.h, seed, disk.h(bytes)) && IsId(id)
    modifies disk`dirs, disk`counter, disk`dead, disk`faults
    ensures disk.faults >= old(disk.faults) && Kept(old(disk.dirs), disk.dirs)
    ensures ok && NoConfusion(disk.h, old(disk.dirs), Some(Regular(bytes))) ==>
      Generations(id) in disk.dirs && Complete(disk.h, id, disk.dirs[Generations(id)])
    ensures var temporary := Generations(StagingName(id, disk.pid, old(disk.counter)));
      var ready := Ready(disk.h, old(disk.dirs), Seeds(seed), bytes, id, temporary);
      (ok ==> ready && disk.faults == old(disk.faults)) && (!ok && disk.faults == old(disk.faults) ==> !ready)
    ensures Sound(disk.h, old(disk.dirs)) && Honest(disk.h, old(disk.dirs)) ==> Sound(disk.h, disk.dirs)
    ensures var temporary := Generations(StagingName(id, disk.pid, old(disk.counter)));
      !ok && disk.faults == old(disk.faults) && Publishable(old(disk.dirs)[Seeds(seed)]) && temporary !in old(disk.dirs) ==>
        Spoiled(disk.h, disk.dirs, id, bytes)
    ensures ok ==> Generations(id) in disk.dirs && Verified(disk.h, disk.dirs[Generations(id)], disk.h(bytes))
    ensures ok ==> WithGeneration(disk.h, old(disk.dirs), disk.dirs, seed, bytes)
  {
    hide Verified, Publishable, Published, StagingName, Complete, FinalId, IsId, Sound, Honest, AddsOnly;
    ghost var before := disk.dirs;
    if Generations(id) in disk.dirs {
      ok := disk.VerifyCompleteGeneration(Generations(id), disk.h(bytes));
      if ok && NoConfusion(disk.h, before, Some(Regular(bytes))) {
        VerifiedIsComplete(disk.h, before[Generations(id)], seed, bytes);
      }
    } else {
      ok := PublishCompleteGeneration(disk, Seeds(seed), bytes, id);
      SoundKept(disk.h, before, disk.dirs, seed, bytes);
      if ok {
        PublishedKeepsTheSeed(disk.h, before[Seeds(seed)], bytes);
        VerifiedIsComplete(disk.h, Published(before[Seeds(seed)], bytes), seed, bytes);
      }
    }
  }

  /** The candidate's generation was there, or was added as copied from the seed directory; that is all. */
  predicate WithGeneration(h: Sha, before: Dirs, now: Dirs, seed: string, bytes: string) {
    var id := FinalId(h, seed, h(bytes));
    if Generations(id) in before then now == before
    else Seeds(seed) in before && Publishable(before[Seeds(seed)]) && now == before[Generations(id) := Published(before[Seeds(seed)], bytes)]
  }

  /** Everything that activation needs, when no operation fails. */
  predicate Activatable(h: Sha, disk: Disk)
    reads disk
  {
    if disk.candidate.None? then
      disk.pointer.Some? && Pinned(h, disk.dirs, disk.pointer.value).Some?
    else
      var seed := RuntimeSeed(disk.candidate);
      && seed.Some? && Seeds(seed.value) in disk.dirs
      && (var bytes := disk.candidate.value.bytes;
          var id := FinalId(h, seed.value, h(bytes));
          && Ready(h, disk.dirs, Seeds(seed.value), bytes, id, Generations(StagingName(id, disk.pid, disk.counter))))
  }

  /** The part of `prepare_runtime_at` behind the checks of candidate and seed directory. */
  method ActivateCandidate(disk: Disk, seed: string, bytes: string) returns (r: Option<string>)
    requires IsSha(disk.h) && Seeds(seed) in disk.dirs && SeedId(bytes) == Some(seed)
    modifies disk`dirs, disk`pointer, disk`temporaries, disk`counter, disk`dead, disk`faults
    ensures disk.faults >= old(disk.faults) && Kept(old(disk.dirs), disk.dirs)
    ensures NoConfusion(disk.h, old(disk.dirs), Some(Regular(bytes))) && PointerOk(disk.h, old(disk.dirs), old(disk.pointer)) ==>
      PointerOk(disk.h, disk.dirs, disk.pointer)
    ensures NoConfusion(disk.h, old(disk.dirs), Some(Regular(bytes))) && r.Some? ==>
      disk.pointer.Some? && Pinned(disk.h, disk.dirs, disk.pointer.value) == r
    ensures r.Some? ==> disk.temporaries == old(disk.temporaries)
    ensures var id := FinalId(disk.h, seed, disk.h(bytes));
      var ready := Ready(disk.h, old(disk.dirs), Seeds(seed), bytes, id, Generations(StagingName(id, disk.pid, old(disk.counter))));
      && (r.Some? ==> ready && r == Some(id) && Generations(id) in disk.dirs && Verified(disk.h, disk.dirs[Generations(id)], disk.h(bytes)))
      && (r.None? && disk.faults == old(disk.faults) && old(disk.temporaries) == map[] ==> !ready)
    ensures r.Some? ==> WithGeneration(disk.h, old(disk.dirs), disk.dirs, seed, bytes)
    ensures Sound(disk.h, old(disk.dirs)) && Honest(disk.h, old(disk.dirs)) ==> Sound(disk.h, disk.dirs)
    ensures var id := FinalId(disk.h, seed, disk.h(bytes));
      var temporary := Generations(StagingName(id, disk.pid, old(disk.counter)));
      (r.None? && disk.faults == old(disk.faults) && old(disk.temporaries) == map[]) &&
      (Publishable(old(disk.dirs)[Seeds(seed)]) && temporary !in old(disk.dirs)) ==>
        Spoiled(disk.h, disk.dirs, id, bytes)
  {
    hide Ready, Pinned, PointerOk, StagingName, NoConfusion, Kept, FinalId, Complete, Verified, Published, SeedId, IsId, Sound, Honest,
      Publishable, Spoiled, WithGeneration;
    ghost var dirs, pointer := disk.dirs, disk.pointer;
    KeptSelf(dirs);
    var ok := disk.Attempt();
    if !ok { return None; }
    var id := FinalId(disk.h, seed, disk.h(bytes));
    FinalIdIsAnId(disk.h, seed, disk.h(bytes));
    ok := disk.Attempt();
    if !ok { return None; }
    ok := EnsureGeneration(disk, seed, bytes, id);
    ghost var now := disk.dirs;
    PointerStaysOk(disk.h, dirs, now, pointer);
    if !ok { return None; }
    ok := disk.WriteAtomic(id + "\n");
    PinnedByLine(disk.h, now, id);
    if !ok { return None; }
    return Some(id);
  }

  lemma PointerStaysOk(h: Sha, before: Dirs, now: Dirs, pointer: Option<string>)
    requires Kept(before, now)
    ensures PointerOk(h, before, pointer) ==> PointerOk(h, now, pointer)
  {
  }

  /** The id of the generation that belongs to a candidate. */
  function CandidateId(h: Sha, candidate: Option<Node>): (id: Option<string>)
    ensures id.Some? ==> candidate.Some? && candidate.value.Regular? && RuntimeSeed(candidate).Some?
  {
    var seed := RuntimeSeed(candidate);
    if seed.None? then None else Some(FinalId(h, seed.value, h(candidate.value.bytes)))
  }

  /** The candidate's seed directory is there and can be copied beside it, and the name to copy it to is free. */
  predicate Copyable(h: Sha, disk: Disk)
    reads disk
  {
    var id := CandidateId(h, disk.candidate);
    && id.Some? && Seeds(RuntimeSeed(disk.candidate).value) in disk.dirs
    && Publishable(disk.dirs[Seeds(RuntimeSeed(disk.candidate).value)])
    && Generations(StagingName(id.value, disk.pid, disk.counter)) !in disk.dirs
  }

  /** `prepare_runtime_at`. The answer is the id of the generation whose executable is to be started. */
  method PrepareRuntimeAt(disk: Disk) returns (r: Option<string>)
    requires IsSha(disk.h)
    modifies disk`dirs, disk`pointer, disk`temporaries, disk`counter, disk`dead, disk`faults
    ensures disk.faults >= old(disk.faults) && Kept(old(disk.dirs), disk.dirs)
    ensures NoConfusion(disk.h, old(disk.dirs), disk.candidate) && PointerOk(disk.h, old(disk.dirs), old(disk.pointer)) ==>
      PointerOk(disk.h, disk.dirs, disk.pointer)
    ensures NoConfusion(disk.h, old(disk.dirs), disk.candidate) && r.Some? ==>
      disk.pointer.Some? && Pinned(disk.h, disk.dirs, disk.pointer.value) == r
    ensures disk.candidate.None? ==> disk.dirs == old(disk.dirs) && disk.pointer == old(disk.pointer)
    ensures r.Some? ==> disk.temporaries == old(disk.temporaries)
    ensures r.Some? ==> old(Activatable(disk.h, disk)) && Generations(r.value) in disk.dirs
    ensures r.Some? && disk.candidate.Some? ==>
      disk.candidate.value.Regular? && Verified(disk.h, disk.dirs[Generations(r.value)], disk.h(disk.candidate.value.bytes))
    ensures r.None? && disk.faults == old(disk.faults) && (disk.candidate.None? || old(disk.temporaries) == map[]) ==>
      !old(Activatable(disk.h, disk))
    ensures r.Some? && disk.candidate.Some? ==>
      && r == CandidateId(disk.h, disk.candidate)
      && WithGeneration(disk.h, old(disk.dirs), disk.dirs, RuntimeSeed(disk.candidate).value, disk.candidate.value.bytes)
    ensures Sound(disk.h, old(disk.dirs)) && Honest(disk.h, old(disk.dirs)) ==> Sound(disk.h, disk.dirs)
    ensures r.None? && disk.faults == old(disk.faults) && old(disk.temporaries == map[] && Copyable(disk.h, disk)) ==>
      Spoiled(disk.h, disk.dirs, CandidateId(disk.h, disk.candidate).value, disk.candidate.value.bytes)
  {
    hide Ready, Pinned, StagingName, NoConfusion, RuntimeSeed, Kept, FinalId, Sound, Honest, Publishable, Spoiled, WithGeneration;
    KeptSelf(disk.dirs);
    var ok := disk.Attempt();
    if !ok { return None; }
    ok := disk.Attempt();
    if !ok { return None; }
    if disk.candidate.None? {
      r := disk.PinnedCurrentRuntime();
      PinnedIsThere(disk.h, disk.dirs, disk.pointer);
      return;
    }
    var seed := disk.RuntimeSeedOf(disk.candidate);
    if seed.None? || Seeds(seed.value) !in disk.dirs { return None; }
    IsARegularFile(disk.candidate);
    assert disk.candidate == Some(Regular(disk.candidate.value.bytes));
    r := ActivateCandidate(disk, seed.value, disk.candidate.value.bytes);
  }

  lemma PinnedIsThere(h: Sha, dirs: Dirs, pointer: Option<string>)
    ensures pointer.Some? && Pinned(h, dirs, pointer.value).Some? ==> Generations(Pinned(h, dirs, pointer.value).value) in dirs
  {
  }

  lemma KeptSelf(dirs: Dirs)
    ensures Kept(dirs, dirs)
  {
  }

  lemma IsARegularFile(node: Option<Node>)
    requires RuntimeSeed(node).Some?
    ensures node.Some? && node.value.Regular? && SeedId(node.value.bytes) == RuntimeSeed(node)
  {
  }

  lemma PinnedByLine(h: Sha, dirs: Dirs, id: string)
    requires IsId(id)
    ensures Generations(id) in dirs && Complete(h, id, dirs[Generations(id)]) ==>
      Pinned(h, dirs, id + "\n") == Some(id) && PointerOk(h, dirs, Some(id + "\n"))
  {
    TrimLine(id);
  }

  // ---------------------------------------------------------------- many activations

  predicate GenerationsKept(before: Dirs, now: Dirs) {
    forall p :: p in before && p.Generations? ==> p in now && now[p] == before[p]
  }

  lemma PinnedDespiteSeeds(h: Sha, before: Dirs, now: Dirs, pointer: Option<string>)
    requires GenerationsKept(before, now) && PointerOk(h, before, pointer)
    ensures PointerOk(h, now, pointer)
  {
  }

  /** Activations one after the other, each by a new process, each failing or killed anywhere. Between them the candidate
      may be replaced or removed and seed directories and leftovers may come and go; generations stay. */
  method ActivationHistory(disk: Disk, rounds: nat)
    requires IsSha(disk.h) && PointerOk(disk.h, disk.dirs, disk.pointer)
    modifies disk
    ensures PointerOk(disk.h, disk.dirs, disk.pointer)
  {
    hide *;
    for round := 0 to rounds
      invariant PointerOk(disk.h, disk.dirs, disk.pointer)
    {
      var dirs: Dirs := *;
      var candidate := *;
      var temporaries := *;
      if GenerationsKept(disk.dirs, dirs) && NoConfusion(disk.h, dirs, candidate) {
        PinnedDespiteSeeds(disk.h, disk.dirs, dirs, disk.pointer);
        disk.dirs, disk.candidate, disk.temporaries := dirs, candidate, temporaries;
        disk.counter, disk.dead := 0, false;
        var r := PrepareRuntimeAt(disk);
      }
    }
  }

  /** After an activation the candidate is not needed any more: without it the same executable is started. */
  method ActivateThenRemoveCandidate(disk: Disk) returns (first: Option<string>, second: Option<string>)
    requires IsSha(disk.h) && NoConfusion(disk.h, disk.dirs, disk.candidate)
    modifies disk
    ensures second.Some? ==> second == first
    ensures first.Some? && disk.faults == old(disk.faults) ==> second == first
  {
    hide NoConfusion, Pinned, Verified, Kept;
    first := PrepareRuntimeAt(disk);
    if first.None? { return first, None; }
    disk.candidate := None;
    NothingToConfuse(disk.h, disk.dirs);
    second := PrepareRuntimeAt(disk);
  }

  lemma NothingToConfuse(h: Sha, dirs: Dirs)
    ensures NoConfusion(h, dirs, None)
  {
  }

  /** An executable built with a staged directory can be activated: the marker it prints, the directory that staging wrote
      and the id that the launcher computes fit together. */
  lemma BuiltCandidateIsActivatable(h: Sha, disk: Disk, artifacts: seq<Artifact>, pre: string, post: string)
    requires IsSha(h) && Stageable(artifacts) && ReadableList(artifacts)
    requires EXECUTABLE !in NamesOf(artifacts) && FILE_LIST !in NamesOf(artifacts)
    requires !Occurs(pre) && !Occurs(post)
    requires var id := GenerationId(h, artifacts);
      var bytes := pre + Marker(id) + post;
      && disk.candidate == Some(Regular(bytes))
      && Seeds(id) in disk.dirs && disk.dirs[Seeds(id)] == StagedDir(artifacts)
      && Generations(FinalId(h, id, h(bytes))) !in disk.dirs
      && Generations(StagingName(FinalId(h, id, h(bytes)), disk.pid, disk.counter)) !in disk.dirs
    ensures Activatable(h, disk)
  {
    var id := GenerationId(h, artifacts);
    PrintedMarkerIsRead(pre, id, post);
    StagedSeedCompletes(h, artifacts, pre + Marker(id) + post);
    hide StagingName, Marker, SeedId, Publishable, Published, StagedDir, Verified, NativeSeedId, Occurs, Stageable, ReadableList;
  }

  lemma FilledIn(source: Dir, names: seq<string>)
    requires AllRegular(source, names)
    ensures forall name :: name in Selected(source, names) <==> name in names
  {
  }

  lemma ListTextStep(h: Sha, d: Dir, names: seq<string>, i: nat)
    requires i < |names| && AllRegular(d, names[..i]) && IsRegular(d, names[i])
    ensures AllRegular(d, names[..i + 1])
    ensures ListText(h, ArtifactsOf(d, names[..i + 1])) ==
      ListText(h, ArtifactsOf(d, names[..i])) + (names[i] + [NUL] + h(d[names[i]].bytes))
  {
    var front, last := ArtifactsOf(d, names[..i]), Artifact(names[i], d[names[i]].bytes);
    assert ArtifactsOf(d, names[..i + 1]) == front + [last];
    ListedSnoc(h, front, last);
  }

  lemma {:induction false} ListedSnoc(h: Sha, front: seq<Artifact>, last: Artifact)
    ensures Listed(h, front + [last]) == Listed(h, front) + (last.name + [NUL] + h(last.bytes))
  {
    if front == [] {
      assert Listed(h, [last]) == last.name + [NUL] + (h(last.bytes) + "");
    } else {
      assert (front + [last])[1..] == front[1..] + [last];
      ListedSnoc(h, front[1..], last);
    }
  }
}

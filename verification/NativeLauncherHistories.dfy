/** Activations over time: a sound tree stays sound, takes every candidate, and only a publication from a seed directory that
    is not what its name says can block one. */
module NativeLauncherHistories {
  import opened Options
  import opened PosixDirectory
  import opened SeedMarker
  import opened NativeGeneration
  import opened NativeLauncher

  /** The hash tells the candidate's generation from those that stand in the tree. */
  ghost predicate ToldApartFrom(h: Sha, dirs: Dirs, seed: string, bytes: string) {
    forall p :: p in dirs && RuntimeSeed(Executable(dirs[p])).Some? ==>
      Apart(h, FinalText(RuntimeSeed(Executable(dirs[p])).value, h(dirs[p][EXECUTABLE].bytes)), FinalText(seed, h(bytes)))
  }

  lemma SeedsAreIds(bytes: string)
    requires SeedId(bytes).Some?
    ensures IsId(SeedId(bytes).value)
  {
  }

  /** In a sound tree the branch for an existing generation that does not verify is dead. */
  lemma ExistingVerifies(h: Sha, dirs: Dirs, seed: string, bytes: string)
    requires ByteSha(h) && Sound(h, dirs) && SeedId(bytes) == Some(seed) && ToldApartFrom(h, dirs, seed, bytes)
    requires Generations(FinalId(h, seed, h(bytes))) in dirs
    ensures Verified(h, dirs[Generations(FinalId(h, seed, h(bytes)))], h(bytes))
    ensures !Spoiled(h, dirs, FinalId(h, seed, h(bytes)), bytes)
  {
    var id := FinalId(h, seed, h(bytes));
    var d := dirs[Generations(id)];
    FinalIdIsAnId(h, seed, h(bytes));
    assert Complete(h, id, d);
    var other := RuntimeSeed(Executable(d)).value;
    SeedsAreIds(bytes);
    SeedsAreIds(d[EXECUTABLE].bytes);
    hide Verified, FinalId, FinalText, ByteSha, Sound, SeedId;
    FinalIdInjective(h, other, h(d[EXECUTABLE].bytes), seed, h(bytes));
  }

  /** In a sound tree with honest seed directories a candidate can be activated exactly if its seed directory is there, and its
      generation stands already or can be copied together. */
  lemma SoundTreeActivatesIff(h: Sha, disk: Disk, seed: string, bytes: string)
    requires ByteSha(h) && Sound(h, disk.dirs) && Honest(h, disk.dirs)
    requires disk.candidate == Some(Regular(bytes)) && SeedId(bytes) == Some(seed) && ToldApartFrom(h, disk.dirs, seed, bytes)
    ensures Activatable(h, disk) <==>
      Seeds(seed) in disk.dirs && (Generations(FinalId(h, seed, h(bytes))) in disk.dirs || Copyable(h, disk))
  {
    var id := FinalId(h, seed, h(bytes));
    if Generations(id) in disk.dirs {
      ExistingVerifies(h, disk.dirs, seed, bytes);
    } else if Seeds(seed) in disk.dirs && Publishable(disk.dirs[Seeds(seed)]) {
      PublishedIsComplete(h, disk.dirs[Seeds(seed)], seed, bytes);
    }
    hide Verified, FinalId, Publishable, Published, SeedId, Sound, NativeSeedId;
  }

  /** Executables of different bytes have different generations. */
  lemma DifferentExecutablesDiffer(h: Sha, seed: string, bytes: string, other: string, more: string)
    requires ByteSha(h) && SeedId(bytes) == Some(seed) && SeedId(more) == Some(other) && bytes != more
    requires Apart(h, bytes, more) && Apart(h, FinalText(seed, h(bytes)), FinalText(other, h(more)))
    ensures FinalId(h, seed, h(bytes)) != FinalId(h, other, h(more))
  {
    SeedsAreIds(bytes);
    SeedsAreIds(more);
    if FinalId(h, seed, h(bytes)) == FinalId(h, other, h(more)) {
      FinalIdInjective(h, seed, h(bytes), other, h(more));
    }
  }

  /** Between activations seed directories and leftovers may come and go; generations are neither touched nor made. */
  predicate GenerationsUntouched(before: Dirs, now: Dirs) {
    && (forall p :: p in before && p.Generations? && IsId(p.name) ==> p in now && now[p] == before[p])
    && (forall p :: p in now && p.Generations? && IsId(p.name) ==> p in before)
  }

  lemma SoundDespiteSeeds(h: Sha, before: Dirs, now: Dirs)
    requires Sound(h, before) && GenerationsUntouched(before, now)
    ensures Sound(h, now)
  {
    hide Complete, IsId;
  }

  /** Over any number of activations of any candidates, each failing or killed anywhere, every generation stays complete under its
      own name, as long as seed directories are what their names say. */
  method SoundHistory(disk: Disk, rounds: nat)
    requires IsSha(disk.h) && Sound(disk.h, disk.dirs)
    modifies disk
    ensures Sound(disk.h, disk.dirs)
  {
    hide *;
    for round := 0 to rounds
      invariant Sound(disk.h, disk.dirs)
    {
      var dirs: Dirs := *;
      var candidate := *;
      var temporaries := *;
      if GenerationsUntouched(disk.dirs, dirs) && Honest(disk.h, dirs) {
        SoundDespiteSeeds(disk.h, disk.dirs, dirs);
        disk.dirs, disk.candidate, disk.temporaries := dirs, candidate, temporaries;
        disk.counter, disk.dead := 0, false;
        var r := PrepareRuntimeAt(disk);
      }
    }
  }

  /** No leftover of this process stands in the way of a copy. */
  ghost predicate NoLeftovers(dirs: Dirs, pid: nat) {
    forall id, k: nat :: Generations(StagingName(id, pid, k)) !in dirs
  }

  /** What an activation leaves is fit for the next candidate of the same seed. */
  lemma FitForTheNext(h: Sha, before: Dirs, now: Dirs, pid: nat, seed: string, bytes: string, more: string)
    requires IsSha(h) && WithGeneration(h, before, now, seed, bytes) && Honest(h, before) && NoLeftovers(before, pid)
    requires SeedId(bytes) == Some(seed) && Seeds(seed) in before && Publishable(before[Seeds(seed)])
    requires ToldApartFrom(h, before, seed, more) && Apart(h, FinalText(seed, h(bytes)), FinalText(seed, h(more)))
    ensures Honest(h, now) && NoLeftovers(now, pid) && Seeds(seed) in now && Publishable(now[Seeds(seed)])
    ensures ToldApartFrom(h, now, seed, more)
  {
    var id := FinalId(h, seed, h(bytes));
    FinalIdIsAnId(h, seed, h(bytes));
    PublishedKeepsTheSeed(h, before[Seeds(seed)], bytes);
    hide Publishable, Published, NativeSeedId, FinalId, FinalText, SeedId, IsId;
    forall other, k: nat
      ensures Generations(StagingName(other, pid, k)) !in now
    {
      StagedUnderNoId(other, pid, k);
    }
  }

  /** An upgrade of the executable alone: the second candidate gets a generation of its own, beside the first. */
  method ActivateTwoCandidates(disk: Disk, seed: string, bytes: string, more: string) returns (first: Option<string>, second: Option<string>)
    requires ByteSha(disk.h) && Sound(disk.h, disk.dirs) && Honest(disk.h, disk.dirs) && disk.temporaries == map[]
    requires disk.candidate == Some(Regular(bytes)) && SeedId(bytes) == SeedId(more) == Some(seed) && bytes != more
    requires Seeds(seed) in disk.dirs && Publishable(disk.dirs[Seeds(seed)]) && NoLeftovers(disk.dirs, disk.pid)
    requires ToldApartFrom(disk.h, disk.dirs, seed, bytes) && ToldApartFrom(disk.h, disk.dirs, seed, more)
    requires Apart(disk.h, bytes, more) && Apart(disk.h, FinalText(seed, disk.h(bytes)), FinalText(seed, disk.h(more)))
    modifies disk
    ensures disk.faults == old(disk.faults) ==> first.Some? && second.Some?
    ensures second.Some? ==> first.Some? && first != second && Sound(disk.h, disk.dirs)
    ensures second.Some? ==> Generations(first.value) in disk.dirs && Verified(disk.h, disk.dirs[Generations(first.value)], disk.h(bytes))
    ensures second.Some? ==> Generations(second.value) in disk.dirs && Verified(disk.h, disk.dirs[Generations(second.value)], disk.h(more))
  {
    hide Verified, Publishable, Sound, Honest, SeedId, IsId, FinalText, NoConfusion, Pinned, Spoiled, Ready;
    ghost var before := disk.dirs;
    SoundTreeActivatesIff(disk.h, disk, seed, bytes);
    first := PrepareRuntimeAt(disk);
    if first.None? { return first, None; }
    FitForTheNext(disk.h, before, disk.dirs, disk.pid, seed, bytes, more);
    disk.candidate := Some(Regular(more));
    SoundTreeActivatesIff(disk.h, disk, seed, more);
    DifferentExecutablesDiffer(disk.h, seed, bytes, seed, more);
    second := PrepareRuntimeAt(disk);
  }

  lemma DishonestIsNotReady(h: Sha, disk: Disk)
    requires Copyable(h, disk) && Generations(CandidateId(h, disk.candidate).value) !in disk.dirs
    requires var seed := RuntimeSeed(disk.candidate).value; NativeSeedId(h, disk.dirs[Seeds(seed)]) != Some(seed)
    ensures !Activatable(h, disk)
  {
    PublishedKeepsTheSeed(h, disk.dirs[Seeds(RuntimeSeed(disk.candidate).value)], disk.candidate.value.bytes);
    hide Publishable, Published, NativeSeedId, FinalId, StagingName, SeedId;
  }

  /** A seed directory that is not what its name says can be copied, but what is copied does not verify, and stays. If nothing
      disturbed that, the candidate is refused for ever, even when the seed directory is mended. */
  method ActivateFromDishonestSeed(disk: Disk, mended: Dirs) returns (first: Option<string>, ghost undisturbed: bool, second: Option<string>)
    requires IsSha(disk.h) && disk.temporaries == map[] && Copyable(disk.h, disk)
    requires var seed := RuntimeSeed(disk.candidate).value; NativeSeedId(disk.h, disk.dirs[Seeds(seed)]) != Some(seed)
    requires Generations(CandidateId(disk.h, disk.candidate).value) !in disk.dirs
    modifies disk
    ensures first.None? && (undisturbed ==> second.None?)
    ensures disk.faults == old(disk.faults) ==> undisturbed
  {
    hide Verified, Publishable, Published, Sound, Honest, FinalId, NoConfusion, Pinned, NativeSeedId, RuntimeSeed, Activatable;
    DishonestIsNotReady(disk.h, disk);
    first := PrepareRuntimeAt(disk);
    undisturbed := disk.faults == old(disk.faults);
    if GenerationsUntouched(disk.dirs, mended) {
      CandidateIdIsAnId(disk.h, disk.candidate);
      disk.dirs := mended;
    }
    second := PrepareRuntimeAt(disk);
  }

  lemma CandidateIdIsAnId(h: Sha, candidate: Option<Node>)
    requires IsSha(h) && CandidateId(h, candidate).Some?
    ensures IsId(CandidateId(h, candidate).value)
  {
    FinalIdIsAnId(h, RuntimeSeed(candidate).value, h(candidate.value.bytes));
  }
}

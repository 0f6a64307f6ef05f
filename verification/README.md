# CodeStory protocols in Dafny

CodeStory coordinates processes through files: a refresh lock with a heartbeat, a build that replaces many files or none, an
embedding server that exists once per user, native runtimes that are staged, published and pinned, a model file that is staged
once, a cache whose key must not depend on where a checkout lives, a source packet that must fit a budget, and an event bus.
This project models these parts and proves what each of them is for. `dafny verify dfyconfig.toml` checks everything.

Two forms are used. Where several processes or threads interleave, the component is a step system: a `World`, a `Step` for every
system call or atomic action, a total `Apply`, the states `Reachable` by any number of steps, one inductive invariant, and
theorems about reachable states and single steps. Where one caller changes things in order, the component is imperative: a class
with the mutated fields, methods with loops, and pure specification functions about which lemmas are proved. In imperative parts
every file operation may fail for outside reasons; the ghost counter `faults` counts such failures, so that a contract can also
say exactly when an operation succeeds if nothing outside fails.

Safety alone would also hold of code that never does anything. So for every operation of a step system there is a theorem that
says to which world a call leads when it runs alone and nothing fails, field by field and for every starting world
(`*Alone.dfy`, `DigestCacheCalls.dfy`, `EventBusRuns.dfy`); these theorems do not use the step functions' own predicates.

| component | files |
|---|---|
| local refresh lock, status and heartbeat | `LocalRefresh.dfy`, `LocalRefreshSafety.dfy`, `LocalRefreshTheorems.dfy`, `LocalRefreshAlone.dfy` |
| transactional publication of runtime files | `PosixDirectory.dfy`, `Publication.dfy`, `NativeStaging.dfy` |
| server election and digest cache | `ServerElection.dfy`, `ServerElectionAlone.dfy`, `Framing.dfy`, `DigestCache.dfy`, `DigestCacheCalls.dfy` |
| native generations: staging, marker, list, launcher | `SeedMarker.dfy`, `RuntimeManifest.dfy`, `NativeGeneration.dfy`, `NativeSeedStaging.dfy`, `NativeLauncher.dfy`, `NativeLauncherHistories.dfy` |
| artifact cache key | `Fnv.dfy`, `Paths.dfy`, `ArtifactCacheKey.dfy`, `ArtifactCacheKeyTheorems.dfy`, `ArtifactCacheKeyFields.dfy` |
| explore source packet | `SourceSlices.dfy`, `SourcePacket.dfy`, `SourceCollection.dfy`, `SourceCoverage.dfy` |
| model staging, event fanout | `ModelStaging.dfy`, `ModelStagingAlone.dfy`, `EventBus.dfy`, `EventBusRuns.dfy` |
| shared vocabulary | `Options.dfy`, `Decimals.dfy`, `Hexadecimal.dfy`, `Ordering.dfy`, `TextLines.dfy` |

## Hypotheses

- The refresh guard and the server's lifetime authority are mutexes that the operating system releases when their holder dies.
- A process probe reports `GoneOrReused` only for incarnations that are gone, and a dead incarnation takes no more steps.
- `strict` in `LocalRefresh.Enabled`: no process acquires twice in one millisecond. The owner token is `pid:milliseconds` only;
  `SameMillisecondBreaksOwnership` is a run that breaks the ownership law without this hypothesis.
- A live handle's lock file stays parseable; one that cannot be parsed is reclaimed by age alone (local_refresh_status.rs:608).
- Hash functions are parameters. `CollisionFree` (digest cache) says that a function on all texts has no collisions. The launcher,
  whose digests have 32 bytes, needs less: `NoConfusion` says that the hash tells the present candidate from the executables
  published before, and `Apart` says it of two named texts.
- `Quiet` (digest cache): a metadata key never stands for two contents, and a key seen before does not come back to a file while
  that file is being digested. That keys never stand for two contents is not enough by itself: `RestoredStampsBreakTheDigest`.
- Texts are byte texts: characters stand for the bytes 0 to 255. File names in the runtime list are ASCII.

## What the code does not do

The models follow the code; these lemmas say where it does less than a reader may expect, and exactly when.

- A server that dies between binding its socket and restricting its mode (embedding_server_transport.rs:1405-1407) leaves an entry
  that every later server refuses to remove: `ServerElection.CrashBeforeRestrictingBlocks`. With the authority free, a new server
  can go on to listen exactly if the entry is absent or restricted: `StaleSocketBlocksIffUnrestricted`.
- `AlreadyOwned` does not mean that a server exists (`ServerElection.AlreadyOwnedWithoutAServer`); it does exactly if no client is
  probing at that moment (`AlreadyOwnedIffNoProbe`), and the same holds of `OwnerUnresponsive` and `Connected`
  (`BusyAnswersIffNoProbe`). A client that found no authority file may answer `NoOwner` although a server took the lock meanwhile
  (`NoOwnerDespiteAServer`).
- A dead refresh owner blocks its successors as long as another process has its pid and no start identity, or an equal one, was
  recorded, and no longer: `LocalRefreshTheorems.AcquirerRecoversIff`. `DeadOwnerBlocks` is a run to such a state.
- Staging a library whose destination already is a link to the same inode leaves the temporary link behind, because `rename`
  between two links of one inode does nothing and succeeds: `NativeStaging.SharedInodeLeavesItsTemporary`, at a concrete input
  `StagingOneLibraryTwice`. `StageSharedLibraries` states this as an equivalence.
- A generation is published under its name before it is verified (native_launcher.rs:160-164). If the seed directory is not what
  its name says, the publication fails and the unverifiable directory stays: the candidate is refused for ever, even when the seed
  directory is mended (`NativeLauncherHistories.ActivateFromDishonestSeed`). With honest seed directories this never happens:
  every generation stays complete under its own name (`SoundHistory`), and `SoundTreeActivatesIff` says what a candidate then needs.
- A snippet's range leaves out its own line if more context was asked for in front of it than one range may have:
  `SourceCoverage.SnippetShowsItsLineIff`.
- A capture whose file is rewritten while it is hashed may return a wrong digest although it ends with its first metadata key
  (`DigestCache.RestoredStampsBreakTheDigest`). Wherever its reads fall, the digest is certain to be right exactly if nobody wrote
  other content to the file meanwhile (`CertainIffContentKept`): writing the same bytes does no harm, and writing others does even
  if they are taken back.
- Staging accepts names with line breaks, and a source named like the list itself, for which the launcher finds another id or
  none: `NativeGeneration.AgreementNeedsAReadableList`, at a concrete input `LineBreakIsNotRead`. `BuildAndLaunchAgree` is the
  other half.
- The fields of the cache key are not framed. `ArtifactCacheKeyTheorems.FieldsAreNotFramed` says, for any row of its fields,
  exactly when other contents of these fields feed the same bytes and give the same key; `NeighboursAreNotFramed` says it of any
  two neighbours, `PathAndSourceAreNotFramed` and `IncludeListsAreNotFramed` in the terms of two such pairs. A backslash in a name
  is keyed like a separator (`ArtifactCacheKeyFields.BackslashIsKeyedAsSlash`).
- A relocated tree gets no key exactly when a flag that is no path happens to contain the text of the new root:
  `ArtifactCacheKeyTheorems.RelocationKeepsTheKey`, at a concrete root and flag `RelocatedIntoItsFlag`.

## Model

| member | source | states |
|---|---|---|
| LocalRefreshTheorems.SingleFlight | crates/codestory-cli/src/local_refresh_status.rs:233-310 | in every reachable state at most one live process has a handle, and the lock file names exactly that handle's token, pid, start identity, start time and project |
| LocalRefreshTheorems.LiveLockRemovedOnlyByItsOwnDrop | crates/codestory-cli/src/local_refresh_status.rs:160-175 | while a handle is live, the only step that changes its lock file is the removal in its own drop; reclaim, other acquirers, crashes and pid reuse never do |
| LocalRefreshTheorems.DropRemovesOnlyItsOwnLock | crates/codestory-cli/src/local_refresh_status.rs:160-175 | a drop about to remove the lock file faces the file its own acquisition wrote, and no other handle is live |
| LocalRefreshTheorems.SecondCreateFindsNoLock | crates/codestory-cli/src/local_refresh_status.rs:290-307 | after a successful reclaim the second creation finds no lock file, so its `AlreadyExists` branch is dead |
| LocalRefreshTheorems.StatusWriterOwnsTheLock | crates/codestory-cli/src/local_refresh_status.rs:193-215 | whenever the status file changes, the lock file names the writer, the writer made that file, and no other handle is live, so a paused renewal never overwrites a replacement owner; the file then says in every field what the writer was given, or only its update time moved |
| LocalRefreshTheorems.RenewalKeepsTerminalStatus | crates/codestory-cli/src/local_refresh_status.rs:400-430 | a renewal whose write succeeds moves `updatedAt` to its time, and no renewal changes anything else, nor any but a refreshing status |
| LocalRefreshTheorems.ReaderReportsTheOwner | crates/codestory-cli/src/local_refresh_status.rs:611-652 | an unguarded reader that returns a tokened status, while a handle is live, returns the status of that handle's owner |
| LocalRefreshTheorems.AcquirerRecoversIff | crates/codestory-cli/src/local_refresh_status.rs:280-310 | an acquirer that found a lock file and probes its owner can come to a live handle by its own steps exactly if no running process has that pid with no, or the same, start identity recorded |
| LocalRefreshTheorems.DeadOwnerBlocks | crates/codestory-cli/src/local_refresh_status.rs:280-310 | in a reachable state an owner has crashed without a recorded start identity, its pid was given to another process, and none of the next acquirer's own steps leads to a handle |
| LocalRefreshTheorems.SameMillisecondBreaksOwnership | crates/codestory-cli/src/local_refresh_status.rs:246 | without the millisecond hypothesis there is a run in which the heartbeat of a closed handle is about to write under a second handle's lock |
| LocalRefreshTheorems.StepsKeepInv | crates/codestory-cli/src/local_refresh_status.rs:193-310 | the invariant holds after every sequence of steps of any number of processes |
| LocalRefreshAlone.TryAcquireAlone | crates/codestory-cli/src/local_refresh_status.rs:233-310 | for every world with a free guard: an attempt that runs alone obtains a handle exactly if there is no lock file, or no refresh runs and its owner is gone or it is unreadable and old; then just the lock file changed, naming its own tuple; else nothing changed |
| LocalRefreshAlone.ReadAlone | crates/codestory-cli/src/local_refresh_status.rs:611-652 | for every world: a reader changes nothing and returns the status exactly if it is fresh, refreshing, of this project, of an owner not gone, and in agreement with the lock file in every owner field |
| LocalRefreshAlone.WriteAlone | crates/codestory-cli/src/local_refresh_status.rs:193-215 | a status write that runs alone stores the given status, phase, project and reason with its time and its owner, field by field, exactly if the lock file names that owner; else it changes nothing |
| LocalRefreshAlone.WriteStoresWhatWasSaid | crates/codestory-cli/src/local_refresh_status.rs:193-215 | whatever happens between the steps of a status write: when its write succeeds, the file holds the arguments of that very call, the time of the step and the owner fields of its handle, which the lock file names |
| LocalRefreshAlone.RenewAlone | crates/codestory-cli/src/local_refresh_status.rs:400-430 | a heartbeat that runs alone moves the update time exactly if lock and status name its owner, project and phase and the status is refreshing; nothing else changes |
| LocalRefreshAlone.DropAlone | crates/codestory-cli/src/local_refresh_status.rs:160-175 | a drop that runs alone closes its handle and removes the lock file exactly if that has its token |
| LocalRefreshAlone.RunsAreRuns | crates/codestory-cli/src/local_refresh_status.rs:160-310 | these runs are runs of the protocol in which only that call moves, and they end |
| LocalRefreshSafety.StepKeepsInv | crates/codestory-cli/src/local_refresh_status.rs:160-310 | every single step (guard, create, write, probe, reclaim, read, renew, drop, crash, spawn) keeps the invariant |
| LocalRefreshSafety.LiveOwnerIsNotGone | crates/codestory-cli/src/local_refresh_status.rs:599-609 | a truthful probe never finds the owner of a live handle gone, so its lock is not stale |
| LocalRefreshSafety.TokenInjective | crates/codestory-cli/src/local_refresh_status.rs:246 | equal tokens mean equal pid and equal start time |
| Publication.UndoOne | crates/codestory-llama-sys/native_staging.rs:663-691 | one restore undoes one replacement exactly, using up the backup unless staged file and destination were one inode |
| Publication.UndoAll | crates/codestory-llama-sys/native_staging.rs:607-629 | restoring a published batch in reverse order gives back every entry; of the staging names exactly those of one-inode pairs stay |
| Publication.PublishedAt | crates/codestory-llama-sys/native_staging.rs:499-533 | after a published batch every destination holds its staged entry and every staged name is gone, unless both were one inode |
| Publication.PublishedElsewhere | crates/codestory-llama-sys/native_staging.rs:499-533 | a published batch changes no name that is neither a staged name nor a destination |
| PosixDirectory.ClashShrinksTaken | crates/codestory-llama-sys/native_staging.rs:457-467 | each clash of a staging name uses up one existing name, so the search for a free one ends |
| PosixDirectory.StagingNameInjective | crates/codestory-llama-sys/native_staging.rs:457-467 | different counters give different staging names |
| PosixDirectory.FileSystem.CreateUniqueHardLink | crates/codestory-llama-sys/native_staging.rs:446-455 | ends with a staging name that did not exist, linked to the source's inode, or changes nothing |
| PosixDirectory.FileSystem.CreateUniqueSymlink | crates/codestory-llama-sys/native_staging.rs:708-720 | ends with a symbolic link under a staging name that did not exist, or changes nothing |
| PosixDirectory.FileSystem.ReplaceFile | crates/codestory-llama-sys/native_staging.rs:722-725 | a replacement is a POSIX rename or changes nothing |
| NativeStaging.CaptureOne | crates/codestory-llama-sys/native_staging.rs:636-661 | the snapshot says what stands at the destination, a file being kept alive by a fresh backup link |
| NativeStaging.RestoreOne | crates/codestory-llama-sys/native_staging.rs:663-691 | a successful restore leaves what the snapshot says |
| NativeStaging.Rollback | crates/codestory-llama-sys/native_staging.rs:607-629 | restores the published destinations in reverse and syncs their directories; every restore or sync it counts as failed was refused by the environment |
| NativeStaging.Abort | crates/codestory-llama-sys/native_staging.rs:513-531 | rolls back, then drops snapshots and unpublished replacements; no failure is reported that was not one |
| NativeStaging.SyncDestinationDirectories | crates/codestory-llama-sys/native_staging.rs:535-548 | succeeds only if the directory of every destination was synced, each once |
| NativeStaging.AbortRestoresEverything | crates/codestory-llama-sys/native_staging.rs:513-531 | at every failure position, provided restores succeed, the directory is as before capture, up to what cleanup could not remove |
| NativeStaging.PublishAll | crates/codestory-llama-sys/native_staging.rs:499-533 | for every batch: duplicates are refused before anything changes; on success every destination is its staged inode; on any failure with successful restores every outside entry is as before; nothing staged remains except what cleanup lost and one-inode pairs; success means that every destination's directory was synced after its replacement; a rollback counts no more failed restores than operations failed after the first, so one failure is always undone completely |
| NativeStaging.StageSharedLibraries | crates/codestory-llama-sys/native_staging.rs:260-337 | all or nothing over the whole call including preparation; without outside failures it succeeds exactly for acceptable items; after success a staging name remains exactly if some destination already was its source's inode; if exactly one operation fails, the directories are exactly as before |
| NativeStaging.SharedInodeLeavesItsTemporary | crates/codestory-llama-sys/native_staging.rs:572-592 | staging a source over its own link leaves the temporary link in the directory |
| NativeStaging.StagingOneLibraryTwice | crates/codestory-llama-sys/native_staging.rs:572-592 | one library already linked into its destination: preparing and publishing leaves the staged link |
| ServerElection.OneAuthority | crates/codestory-cli/src/embedding_server_transport.rs:1392-1434 | at most one server holds the lifetime authority, and whoever listens has its own, restricted entry in the socket directory |
| ServerElection.EntryRemovedOnlyByItsServer | crates/codestory-cli/src/embedding_server_transport.rs:1164-1180 | the entry of a serving server is removed by no step but its own destructor's, even if inode numbers are reused; before that only the server itself restricts its mode |
| ServerElection.DestructorUnlinksItsOwn | crates/codestory-cli/src/embedding_server_transport.rs:1164-1180 | the destructor unlinks the entry that its own server bound |
| ServerElection.NoOwnerMeansNoServer | crates/codestory-cli/src/embedding_server_transport.rs:1380-1390 | `NoOwner` is answered out of a probe while no server holds the authority, or by a client that found no authority file |
| ServerElection.NoFileMeansNoServer | crates/codestory-cli/src/embedding_server_transport.rs:1308 | when a client finds no authority file, no server runs at all at that moment |
| ServerElection.NoOwnerDespiteAServer | crates/codestory-cli/src/embedding_server_transport.rs:1381-1383 | a run in which such a client answers `NoOwner` after a server took the lock |
| ServerElection.ConnectionReachesTheAuthority | crates/codestory-cli/src/embedding_server_transport.rs:1315-1322 | a connection reaches the server that holds the authority |
| ServerElection.UnlockFirstLosesTheSuccessorsSocket | crates/codestory-cli/src/embedding_server_transport.rs:1164-1180 | if the destructor unlocked before it unlinked, a run would remove the socket of a listening successor |
| ServerElection.AlreadyOwnedIffNoProbe | crates/codestory-cli/src/embedding_server_transport.rs:1397-1399 | whenever a server reports `AlreadyOwned`, a server holds the authority exactly if no client's probe does |
| ServerElection.AlreadyOwnedWithoutAServer | crates/codestory-cli/src/embedding_server_transport.rs:1397-1399 | a run in which a server reports `AlreadyOwned` while only a client's probe holds the lock |
| ServerElection.BusyAnswersIffNoProbe | crates/codestory-cli/src/embedding_server_transport.rs:1380-1390 | whenever a client answers `OwnerUnresponsive` or `Connected`, a server holds the authority exactly if no other client's probe does |
| ServerElection.WhoHoldsTheLock | crates/codestory-cli/src/embedding_server_transport.rs:2209-2231 | the lock is free exactly if neither a server nor a probe holds it, and never both do |
| ServerElection.StaleSocketBlocksIffUnrestricted | crates/codestory-cli/src/embedding_server_transport.rs:2273-2299 | in every reachable state with the authority free, a new server can go on to listen exactly if the socket entry is absent or its mode is restricted |
| ServerElection.CrashBeforeRestrictingBlocks | crates/codestory-cli/src/embedding_server_transport.rs:1405-1408 | a run in which a server dies between binding and restricting its socket, after which no server ever listens |
| ServerElection.StepKeepsInv | crates/codestory-cli/src/embedding_server_transport.rs:1304-1434 | every step of servers, clients, probes and crashes keeps the invariant |
| ServerElectionAlone.AskAlone | crates/codestory-cli/src/embedding_server_transport.rs:1304-1390 | for every world: a client that asks alone changes nothing and gets exactly the answer that authority file, lock, socket entry and the server behind it determine |
| ServerElectionAlone.ListenerIsFound | crates/codestory-cli/src/embedding_server_transport.rs:1338-1361 | in every reachable world a client that asks alone is connected to the server that listens |
| ServerElectionAlone.AnswersAlone | crates/codestory-cli/src/embedding_server_transport.rs:1304-1390 | in every reachable world: connected to a server exactly if it serves behind a restricted entry, `NoOwner` exactly if neither a server nor a probe holds the lock, an error exactly at an unrestricted entry |
| ServerElectionAlone.ConnectsIffServing | crates/codestory-cli/src/embedding_server_transport.rs:1315-1322 | however the others move: a connection is made exactly to a server whose socket is open |
| ServerElectionAlone.ClassifiedIffLocked | crates/codestory-cli/src/embedding_server_transport.rs:1338-1390 | however the others move: `Connected` exactly if a connection was made, and `OwnerUnresponsive` exactly if none was, while the lock is held; else `NoOwner` |
| ServerElectionAlone.StartAlone | crates/codestory-cli/src/embedding_server_transport.rs:1392-1441 | for every world: a server that starts alone listens at its own restricted entry with the lock, or reports `AlreadyOwned`, or gives up at an unrestricted entry, exactly as lock and entry determine |
| ServerElectionAlone.DropAlone | crates/codestory-cli/src/embedding_server_transport.rs:1164-1180 | a listening server whose destructor runs alone leaves neither entry nor lock, and touches nothing else |
| Framing.FramedInjective | crates/codestory-cli/src/embedding_server_transport.rs:798-805 | length-prefixed framing loses nothing: different field lists hash different bytes |
| Framing.LittleEndianInjective | crates/codestory-llama-sys/build.rs:714-722 | the eight length bytes determine the length |
| DigestCache.MatchingRecordIsOfThisKey | crates/codestory-cli/src/embedding_server_transport.rs:708-721 | a stored attestation matches exactly the file identity it was made for |
| DigestCache.ReturnedDigestIsTheHash | crates/codestory-cli/src/embedding_server_transport.rs:102-132 | over all runs of rewriting, replacing, capturing and publishing, a digest that a capture returns, hashed or read from the store, is the hash of what the file holds at that moment |
| DigestCache.CacheAgreesWithAFreshHash | crates/codestory-cli/src/embedding_server_transport.rs:708-757 | a matching attestation holds the digest that hashing afresh would give |
| DigestCache.RestoredStampsBreakTheDigest | crates/codestory-cli/src/embedding_server_transport.rs:111-125 | if stamps may come back during a capture, a run returns a wrong digest although no key ever stood for two contents, for every hash that tells the two texts of the run apart |
| DigestCache.CertainIffContentKept | crates/codestory-cli/src/embedding_server_transport.rs:791-796 | for every run of the others while a call hashes its file piece by piece: however its reads fall between their steps, the digest is certain to be the hash of what the file then holds exactly if no step wrote other content to it |
| DigestCache.StepKeepsInv | crates/codestory-cli/src/embedding_server_transport.rs:102-132 | every step, including the publication at spawn, keeps the cache coherent |
| DigestCacheCalls.SpawnPassesIff | crates/codestory-cli/src/embedding_server_transport.rs:212-249 | whatever the others do in between: a spawn attempt goes on to publish and spawn exactly if the client may spawn and the file it opened at the path has the captured metadata at both looks; else it fails |
| DigestCacheCalls.SpawnedFileHasTheDigest | crates/codestory-cli/src/embedding_server_transport.rs:228-249 | what is then published and spawned has the captured metadata and the captured digest |
| DigestCacheCalls.HitIff | crates/codestory-cli/src/embedding_server_transport.rs:115-119 | a record is used instead of hashing exactly by an observer, and exactly if it was made for the inspected file |
| DigestCacheCalls.CaptureAlone | crates/codestory-cli/src/embedding_server_transport.rs:102-132 | a capture that runs alone ends with the current path's metadata and the recorded digest for an observer with a matching record, else the hash of the content |
| DigestCacheCalls.PublishedThenObserved | crates/codestory-cli/src/embedding_server_transport.rs:723-736 | after a publication an observer of the unchanged path gets the published digest |
| DigestCacheCalls.StoreRecordsWhatWasCaptured | crates/codestory-cli/src/embedding_server_transport.rs:723-736 | only a publication changes the store, and it records the captured metadata and digest |
| SeedMarker.SeedIdFromBytes | crates/codestory-cli/src/native_launcher.rs:256-280 | the scan finds an id exactly if the bytes are something, the marker of that id, something, with no second prefix anywhere |
| SeedMarker.ScanFindsTheMarker | crates/codestory-cli/src/native_launcher.rs:256-280 | the same equivalence for the function that the loop computes |
| SeedMarker.NothingStraddles | crates/codestory-cli/src/native_runtime_layout.rs:1-2 | no occurrence of the prefix overlaps a border of a printed marker or starts inside its id |
| SeedMarker.PrintedMarkerIsRead | crates/codestory-llama-sys/build.rs:111-112 | a marker printed between bytes without the prefix is read back as its id |
| SeedMarker.EmptyIdIsRefused | crates/codestory-llama-sys/build.rs:110-112 | the marker of a build without a native runtime is accepted by no scan |
| RuntimeManifest.ListRoundTrip | crates/codestory-llama-sys/native_staging.rs:198-206 | a written list reads back as it was exactly if it is not empty, no name holds a line feed and none ends with a carriage return |
| RuntimeManifest.AcceptedIffIncreasing | crates/codestory-cli/src/native_launcher.rs:211-233 | the launcher accepts a list exactly if it is not empty, every name is safe, and names increase ignoring case without two equal but for case |
| RuntimeManifest.SafeFileNameIff | crates/codestory-cli/src/native_launcher.rs:235-240 | letter by letter, which names are safe |
| RuntimeManifest.SafeNameStaysInside | crates/codestory-cli/src/native_launcher.rs:235-240 | a safe name joined to a directory is one component below it |
| NativeGeneration.BuildAndLaunchAgree | crates/codestory-llama-sys/native_staging.rs:33-67 | the list that staging writes is accepted and read back, and the launcher computes for the staged directory the id that the build computed for its sources |
| NativeGeneration.AgreementNeedsAReadableList | crates/codestory-cli/src/native_launcher.rs:197-209 | the converse: the two ids agree only if the list can be read back and does not list itself with other content |
| NativeGeneration.LineBreakIsNotRead | crates/codestory-llama-sys/native_staging.rs:184-206 | one file named `a`, line feed, `b` is staged, and the launcher finds no id for the staged directory |
| NativeGeneration.SameIdSameFiles | crates/codestory-llama-sys/native_staging.rs:121-130 | one generation id stands for one list of names with one digest each, unless the two listings collide |
| NativeGeneration.ListedInjective | crates/codestory-llama-sys/native_staging.rs:121-130 | name, NUL, digest: the listing that is hashed determines names and digests |
| NativeGeneration.FinalIdInjective | crates/codestory-cli/src/native_launcher.rs:123-130 | a generation id determines seed id and executable digest, if the hash tells the two tagged texts apart |
| NativeGeneration.PublishedIsComplete | crates/codestory-cli/src/native_launcher.rs:132-195 | what is published from a seed directory with its own id and an executable with that id is complete under the id computed from both |
| NativeGeneration.PublishedKeepsTheSeed | crates/codestory-cli/src/native_launcher.rs:132-170 | a published generation has the seed id of the seed directory and the candidate's bytes as executable |
| NativeGeneration.StagedSeedCompletes | crates/codestory-cli/src/native_launcher.rs:132-170 | a staged directory together with an executable that carries its id makes a complete generation |
| NativeSeedStaging.StageNativeGeneration | crates/codestory-llama-sys/native_staging.rs:33-119 | changes no existing directory; succeeds only, and without failures or crashes always, when sources are safe, regular, distinct but for case, and an existing directory matches; the launcher then computes the same id for every readable list |
| NativeSeedStaging.StageEntries | crates/codestory-llama-sys/native_staging.rs:69-112 | verify what exists, else publish by one rename; nothing but the named directory appears |
| NativeSeedStaging.VerifyGeneration | crates/codestory-llama-sys/native_staging.rs:132-161 | accepts exactly a directory whose list is the sources' names and whose files have the sources' digests |
| NativeSeedStaging.FillSeed | crates/codestory-llama-sys/native_staging.rs:84-92 | the temporary ends with every source and the list, or the call failed and touched nothing else |
| NativeSeedStaging.MatchingHasTheId | crates/codestory-llama-sys/native_staging.rs:132-161 | what passes that verification has, for the launcher, the sources' id |
| NativeSeedStaging.NeighboursDecide | crates/codestory-llama-sys/native_staging.rs:59-67 | comparing neighbours after sorting finds duplicates ignoring case anywhere |
| NativeLauncher.PrepareRuntimeAt | crates/codestory-cli/src/native_launcher.rs:39-86 | cut anywhere, the pointer is absent or names a complete generation if it was before; every earlier directory is kept; success pins the answered generation, which holds the candidate's digest; without failures or crashes it succeeds exactly when activatable; the answer is the id of the candidate's seed and digest; a sound tree with honest seed directories stays sound at every crash point |
| NativeLauncher.ActivateCandidate | crates/codestory-cli/src/native_launcher.rs:68-86 | the same for the part behind the candidate checks |
| NativeLauncher.PublishCompleteGeneration | crates/codestory-cli/src/native_launcher.rs:132-170 | on success exactly the generation directory is new and it verifies; in every other outcome nothing earlier is touched; what is new under a generation's name is exactly what was to be published, even when its verification failed |
| NativeLauncher.FillGeneration | crates/codestory-cli/src/native_launcher.rs:152-160 | the temporary ends as seed files, candidate and list, or the call failed and touched nothing else |
| NativeLauncher.Disk.WriteAtomic | crates/codestory-cli/src/native_launcher.rs:345-370 | the pointer is its old or its new text, never a part; after success no temporary is left |
| NativeLauncher.Disk.PinnedCurrentRuntime | crates/codestory-cli/src/native_launcher.rs:88-121 | answers only a generation whose list, files, executable and id agree, and answers it whenever nothing fails |
| NativeLauncher.Disk.VerifyCompleteGeneration | crates/codestory-cli/src/native_launcher.rs:172-195 | accepts exactly what is verified: regular files, seed id equal to the executable's marker, expected executable digest |
| NativeLauncher.Disk.NativeSeedIdOf | crates/codestory-cli/src/native_launcher.rs:197-209 | the loop over the listed files computes the seed id of the directory |
| NativeLauncher.ActivationHistory | crates/codestory-cli/src/native_launcher.rs:39-121 | over any number of activations by different processes, each failing or killed anywhere, with candidate and seeds changing in between, the pointer stays absent or complete |
| NativeLauncher.ActivateThenRemoveCandidate | crates/codestory-cli/src/native_launcher.rs:48-60 | after a successful activation the candidate may go: a later activation answers the same generation |
| NativeLauncher.BuiltCandidateIsActivatable | crates/codestory-cli/src/native_launcher.rs:39-86 | an executable that prints the id of a staged directory, between bytes without the prefix, can be activated with it |
| NativeLauncher.VerifiedIsComplete | crates/codestory-cli/src/native_launcher.rs:172-195 | what verifies against the candidate's digest is complete under the id computed from the candidate |
| NativeLauncherHistories.SoundTreeActivatesIff | crates/codestory-cli/src/native_launcher.rs:39-86 | in a sound tree with honest seed directories a candidate can be activated exactly if its seed directory is there and its generation stands already or can be copied together |
| NativeLauncherHistories.ExistingVerifies | crates/codestory-cli/src/native_launcher.rs:73-74 | in a sound tree the branch for an existing generation that does not verify is dead |
| NativeLauncherHistories.DifferentExecutablesDiffer | crates/codestory-cli/src/native_launcher.rs:61-66 | executables of different bytes have different generations |
| NativeLauncherHistories.SoundHistory | crates/codestory-cli/src/native_launcher.rs:39-170 | over any number of activations of any candidates, each cut anywhere, every generation stays complete under its own name |
| NativeLauncherHistories.ActivateTwoCandidates | crates/codestory-cli/src/native_launcher.rs:39-86 | an upgrade of the executable alone: if nothing fails both candidates are activated, under different ids, and both generations stand |
| NativeLauncherHistories.ActivateFromDishonestSeed | crates/codestory-cli/src/native_launcher.rs:144-170 | a candidate whose seed directory has another id is refused, and refused again after the seed directory was mended |
| Fnv.OneByteChangesTheState | crates/codestory-indexer/src/cache.rs:348-353 | from one state, texts that differ in exactly one byte lead to different states |
| Fnv.MixInjective | crates/codestory-indexer/src/cache.rs:348-353 | mixing the same bytes into different states gives different states |
| Fnv.MixConcat | crates/codestory-indexer/src/cache.rs:348-353 | mixing is a fold: piece by piece or all at once |
| Fnv.TimesUndone | crates/codestory-indexer/src/cache.rs:11-12 | multiplying by the FNV prime modulo 2^64 is undone by multiplying with 0xce965057aff6957b |
| Fnv.XorInjective | crates/codestory-indexer/src/cache.rs:350 | exclusive or keeps apart one operand exactly as it keeps apart the other |
| ArtifactCacheKey.Hasher.MixBytes | crates/codestory-indexer/src/cache.rs:348-353 | the loop computes the fold |
| ArtifactCacheKey.CollectPaths | crates/codestory-indexer/src/cache.rs:187-191 | the collecting loop answers the portable forms of all paths, or nothing if one is not portable |
| ArtifactCacheKey.CollectFlags | crates/codestory-indexer/src/cache.rs:218-222 | the same for flags |
| ArtifactCacheKey.Hasher.MixPaths | crates/codestory-indexer/src/cache.rs:187-205 | fails exactly if some path is not portable, else mixes the sorted portable forms |
| ArtifactCacheKey.Hasher.MixCompilationInfo | crates/codestory-indexer/src/cache.rs:170-228 | fails exactly if some path or flag is not portable, else feeds the bytes of the specification |
| ArtifactCacheKey.BuildIndexArtifactCacheKey | crates/codestory-indexer/src/cache.rs:127-148 | the key is the version and the hash of all fields, or none if something is not portable |
| ArtifactCacheKeyTheorems.RelocationKeepsTheKey | crates/codestory-indexer/src/cache.rs:170-254 | for all absolute roots and compile descriptions written relative to the root, a relocated tree gets the same key, or none exactly if a flag that is no path contains the new root |
| ArtifactCacheKeyTheorems.RelocatedIntoItsFlag | crates/codestory-indexer/src/cache.rs:246-249 | with the flag `-I/b`, a tree has a key in `/a` and none in `/b` |
| ArtifactCacheKeyTheorems.OrderDoesNotMatter | crates/codestory-indexer/src/cache.rs:187-226 | permuting include paths, system include paths, other flags and the traversal of defines changes neither key nor refusal |
| ArtifactCacheKeyTheorems.OneByteChangesTheKey | crates/codestory-indexer/src/cache.rs:127-148 | two sources that differ in exactly one byte never share a key |
| ArtifactCacheKeyTheorems.FieldsAreNotFramed | crates/codestory-indexer/src/cache.rs:127-228 | all requests whose fields agree but for a row of them feed the same bytes exactly if the rows run together to the same bytes, and share a key exactly if the hash states behind the rows agree |
| ArtifactCacheKeyTheorems.NeighboursAreNotFramed | crates/codestory-indexer/src/cache.rs:127-228 | the same for any two neighbouring fields: source and language, system includes and defines, defines and flags, and every other pair |
| ArtifactCacheKeyTheorems.PathAndSourceAreNotFramed | crates/codestory-indexer/src/cache.rs:139-140 | requests that differ in path and source alone feed the same bytes exactly if path and source run together to the same bytes, and share a key exactly if the hash states behind the source agree |
| ArtifactCacheKeyTheorems.IncludeListsAreNotFramed | crates/codestory-indexer/src/cache.rs:187-205 | descriptions that differ in the two include lists alone feed the same bytes exactly if the two sorted lists run together to the same bytes, and share a key exactly if the states behind them agree |
| ArtifactCacheKeyTheorems.PathRunsIntoSource | crates/codestory-indexer/src/cache.rs:139-140 | in particular, moving bytes from the end of the path to the start of the source keeps the key |
| ArtifactCacheKeyTheorems.IncludeKindIsNotKeyed | crates/codestory-indexer/src/cache.rs:187-205 | in particular, include and system include paths are keyed alike |
| ArtifactCacheKeyFields.LanguageIsKeyed | crates/codestory-indexer/src/cache.rs:141-142 | another language name or graph query feeds other bytes, and one other letter always gives another key |
| ArtifactCacheKeyFields.TagsAndSwitchesAreKeyed | crates/codestory-indexer/src/cache.rs:143-145 | the same for the tags query, none and empty included; each of the two switches always changes the key |
| ArtifactCacheKeyFields.CachePathIsKeyed | crates/codestory-indexer/src/cache.rs:139 | the same for the cached file's portable path, up to the kind of slash |
| ArtifactCacheKeyFields.FileIsKeyed | crates/codestory-indexer/src/cache.rs:180 | the same for the compiled file |
| ArtifactCacheKeyFields.DirectoryIsKeyed | crates/codestory-indexer/src/cache.rs:181-184 | the same for the working directory |
| ArtifactCacheKeyFields.StandardIsKeyed | crates/codestory-indexer/src/cache.rs:185 | different standards, and none, feed different bytes |
| ArtifactCacheKeyFields.DescriptionIsKeyed | crates/codestory-indexer/src/cache.rs:175-179 | a request without a compile description feeds other bytes than one with any |
| ArtifactCacheKeyFields.DefineValueIsKeyed | crates/codestory-indexer/src/cache.rs:207-216 | another value of one define, or none, feeds other bytes, and one other letter always gives another key |
| ArtifactCacheKeyFields.IncludeIsKeyed | crates/codestory-indexer/src/cache.rs:187-195 | an include path that is changed and keeps its place in the order: other bytes, and for one other letter another key |
| ArtifactCacheKeyFields.SystemIncludeIsKeyed | crates/codestory-indexer/src/cache.rs:197-205 | the same for a system include path |
| ArtifactCacheKeyFields.FlagIsKeyed | crates/codestory-indexer/src/cache.rs:218-226 | the same for the portable form of a flag |
| ArtifactCacheKeyFields.ChangedFlagIsHashed | crates/codestory-indexer/src/cache.rs:218-226 | a flag changed in one letter feeds other bytes wherever it is sorted to |
| ArtifactCacheKeyFields.ChangedIncludeIsHashed | crates/codestory-indexer/src/cache.rs:187-205 | the same for an include path of either kind |
| ArtifactCacheKeyFields.ChangedDefineIsHashed | crates/codestory-indexer/src/cache.rs:207-216 | the same for the name of a define |
| ArtifactCacheKeyFields.PortableFlagsDiffer | crates/codestory-indexer/src/cache.rs:237-254 | portable forms tell flags apart, except absolute paths to one place; a path never looks like a plain flag |
| ArtifactCacheKeyFields.PlainFlagIsKeyedIff | crates/codestory-indexer/src/cache.rs:237-294 | a flag that is no path is keyed exactly if, letter by letter, no absolute path and not the root can be seen in it |
| ArtifactCacheKeyFields.BackslashIsKeyedAsSlash | crates/codestory-indexer/src/cache.rs:296-300 | two names that differ in the kind of slash have one key |
| Paths.IndexArtifactCachePath | crates/codestory-indexer/src/cache.rs:150-168 | the pushing loop answers the joined ordinary names, a dot if there are none, nothing if another component occurs |
| Paths.JoinedIsRelative | crates/codestory-indexer/src/cache.rs:150-168 | a path inside the root and the same path written relative to the root have one portable form |
| Paths.AbsolutePortable | crates/codestory-indexer/src/cache.rs:151-163 | an absolute path is portable exactly if it is the root followed by ordinary names |
| Paths.CachePathIsStable | crates/codestory-indexer/src/cache.rs:296-300 | making a portable path portable again changes nothing, so mixing it cannot fail |
| SourceSlices.MergeSourceSlices | crates/codestory-cli/src/explore.rs:857-872 | for sorted ranges with start <= end: merged ranges are at least four lines apart in start against end, begin and end with an input, contain no three uncovered lines in a row, house every input, and carry each label of their inputs once |
| SourceSlices.MergeIsRight | crates/codestory-cli/src/explore.rs:857-872 | the same by induction over the inputs |
| SourceSlices.MergeIsUnique | crates/codestory-cli/src/explore.rs:857-872 | that description has one solution: ranges and labels are determined by the inputs |
| SourceSlices.CollectionOrderDoesNotMatter | crates/codestory-cli/src/explore.rs:540-541 | sorting then merging gives the same ranges and labels for every order of collection |
| SourceSlices.RangesAreBridges | crates/codestory-cli/src/explore.rs:857-872 | a line is in some merged range exactly if an input covers it or two inputs at most three lines apart surround it |
| SourcePacket.ReadNumberedSourceSlice | crates/codestory-cli/src/explore.rs:874-907 | truncates exactly if the numbered lines exceed the cap, and then shows the longest run of them, from the first on, that fits the cap, and the notice |
| SourcePacket.ShownLines | crates/codestory-cli/src/explore.rs:889-905 | the shown text of a range is every line of it, once and in order, each behind its own right-aligned number; nothing else |
| SourcePacket.RenderFile | crates/codestory-cli/src/explore.rs:539-589 | shows the file's merged ranges in order with their gap notes, each exactly as far as what is left of both budgets allows, and leaves none out before a budget is used up; within both budgets plus one notice; if not marked truncated, all of them completely |
| SourcePacket.BuildSourcePacket | crates/codestory-cli/src/explore.rs:536-597 | every file as `RenderFile` shows it under the total left by the files before; per file at most `max_chars_per_file` + 41 bytes and at most `max_total_chars` + 41 in all; a packet not marked truncated shows every file completely; a marked one has a reason |
| SourcePacket.EveryGapIsAnnounced | crates/codestory-cli/src/explore.rs:554-562 | between two shown ranges there always is an omission, and the note names its first and last line |
| SourceCollection.BuildExploreSourcePacket | crates/codestory-cli/src/explore.rs:476-638 | the two bounds and no silent truncation for everything that nodes, companions, snippet and related hits collected, without further hypotheses; truncated or not, the files are the first ones in path order, each shown under what is left of the budget |
| SourceCollection.CollectedIsSound | crates/codestory-cli/src/explore.rs:640-790 | collected files are among the related files, and collected ranges are ranges if the nodes' own lines are |
| SourceCollection.CollectedRangesAreWellFormed | crates/codestory-cli/src/explore.rs:668-671 | only a node whose end line precedes its start line brings in a reversed range |
| SourceCollection.Collector.CollectCompanion | crates/codestory-cli/src/explore.rs:689-751 | the search over companion files has the specified effect |
| SourceCollection.Collector.CollectHits | crates/codestory-cli/src/explore.rs:753-790 | the loop over related hits has the specified effect |
| SourceCollection.InPathOrder | crates/codestory-cli/src/explore.rs:539 | the files of the ordered map, each once, in path order |
| SourceCoverage.EveryNodeIsCollected | crates/codestory-cli/src/explore.rs:640-687 | each of the nodes that are looked at brings in a range of its file from its first to its last line or the limit, under its name |
| SourceCoverage.EveryHitIsCollected | crates/codestory-cli/src/explore.rs:753-797 | each of the first six hits brings in the lines around its own, or the packet has as many files as it may have |
| SourceCoverage.OnlyTheFirstAreLookedAt | crates/codestory-cli/src/explore.rs:489-494 | nodes and hits behind the limits change nothing |
| SourceCoverage.CompanionDecided | crates/codestory-cli/src/explore.rs:689-751 | the first companion that is a file and is collected, too late, or names the declaration decides: it is noted, or brings in a range for each of its first two matching lines |
| SourceCoverage.SnippetShowsItsLineIff | crates/codestory-cli/src/explore.rs:507-521 | the snippet's range holds its own line exactly if no more context was asked for in front of it than one range may have |
| SourceCoverage.CollectedLinesAreShown | crates/codestory-cli/src/explore.rs:536-597 | a packet that is not truncated shows every line of every collected range behind its number |
| SourceCoverage.NodesAreShown | crates/codestory-cli/src/explore.rs:476-597 | a packet that is not truncated shows the line on which any of its nodes begins |
| ModelStaging.DestinationIsAbsentForeignOrGood | crates/codestory-llama-sys/model_staging.rs:43-126 | at every moment of every interleaving the destination is absent, another publisher's, or a regular file of the expected size and digest |
| ModelStaging.ForeignDestinationIsUntouched | crates/codestory-llama-sys/model_staging.rs:92-112 | what another create-only publisher put at the destination is never changed or removed |
| ModelStaging.SuccessMeansTheFileIsThere | crates/codestory-llama-sys/model_staging.rs:113-120 | after success by publication the call's own file is at the destination, valid, and stays |
| ModelStaging.NoDoublePublication | crates/codestory-llama-sys/model_staging.rs:103-112 | at no time do two publications exist that were not withdrawn, whether their calls succeeded, failed afterwards or died |
| ModelStaging.AcceptedFileIsValid | crates/codestory-llama-sys/model_staging.rs:54-66 | success by acceptance means the expected digest was read; the file whose size was checked, if still there, is valid |
| ModelStaging.CleanupRemovesTheTemporary | crates/codestory-llama-sys/model_staging.rs:119-125 | a call that ends without a failing removal removed exactly its own temporary |
| ModelStaging.StepKeepsInv | crates/codestory-llama-sys/model_staging.rs:43-149 | every operation of every call, every death and every foreign publication keeps the invariant |
| ModelStaging.PartialNameInjective | crates/codestory-llama-sys/model_staging.rs:136-137 | attempts have different temporary names |
| ModelStagingAlone.StageOnAbsent | crates/codestory-llama-sys/model_staging.rs:43-126 | for every world with an absent destination: a call that runs alone publishes good content in a new inode and leaves no temporary, exactly if one of its 32 names is free; other content leaves no name |
| ModelStagingAlone.StageOnExisting | crates/codestory-llama-sys/model_staging.rs:54-66 | what stands at the destination stays; the call accepts it exactly if it is a regular file of the expected size and digest |
| EventBus.OpenStreamIsASegment | crates/codestory-contracts/src/events.rs:45-59 | an open subscriber was sent exactly the events from its joining to the worker's position: contiguous, in order, none twice |
| EventBus.LaterEventsArrive | crates/codestory-contracts/src/events.rs:61-71 | every event published after `receiver` returned and already processed is in the stream at its place |
| EventBus.ClosedStreamIsASegment | crates/codestory-contracts/src/events.rs:50-56 | the stream of a subscriber that left is a contiguous segment from its joining on that holds every event processed before it left |
| EventBus.EventsBeforeLeavingArrive | crates/codestory-contracts/src/events.rs:50-71 | every event published after `receiver` returned and processed before the subscriber left was sent to it, at its place |
| EventBus.OpenSubscribersAreRetained | crates/codestory-contracts/src/events.rs:53 | retaining drops no open subscriber |
| EventBus.ComingAndGoingAffectsNobodyElse | crates/codestory-contracts/src/events.rs:28-31 | erase from any run everything about one subscriber: what remains is a run, and it sends everybody else exactly the same events |
| EventBus.RunWithout | crates/codestory-contracts/src/events.rs:45-72 | the same from every state of the bus, by simulation of each step |
| EventBus.StepKeepsInv | crates/codestory-contracts/src/events.rs:45-72 | every step of publishers, worker and subscribers keeps the invariant |
| EventBusRuns.LogIsPublished | crates/codestory-contracts/src/events.rs:69-71 | the log is what the run's publishing steps published, in order |
| EventBusRuns.SubscriberGetsAll | crates/codestory-contracts/src/events.rs:50-71 | once the worker caught up, a subscriber that has not left received everything published after it joined, in order and once, behind some of the last events before |
| EventBusRuns.WorkerCatchesUp | crates/codestory-contracts/src/events.rs:50-56 | from every state the worker alone catches up, whoever left |
| EventBusRuns.EveryEventArrives | crates/codestory-contracts/src/events.rs:50-71 | so after any run the worker alone brings every staying subscriber all that was published since it joined |
| EventBusRuns.WhoLeftIsDropped | crates/codestory-contracts/src/events.rs:53 | the first turn that begins after a subscriber left drops it for good |

## Left out

- All Windows code (pipes, SIDs, DACLs, `ReplaceFileW`, `MoveFileExW`), system call wrappers, clocks, permission and peer checks other than the socket's mode: only the outcomes of system calls are modelled.
- Hash functions, JSON, TOML, `fs4` locks, crossbeam channels and process probing are parameters or abstract steps.
- Power loss: `fsync` may fail but moves nothing, and only process crashes are modelled; for `PublishAll` it is tracked which replacements were synced.
- NativeStaging.PublishAll: after a failed restore only the frame is stated, because the snapshot's drop then deletes the backup link (native_staging.rs:693-699).
- NativeStaging.StageSharedLibraries: starts from resolved sources; library name checks, `prepare_preexisting_build_support_link` and `prepare_runtime_copy` would only add other ways to prepare a replacement, which `PublishAll` covers.
- NativeStaging.AbortRestoresEverything: cleanup that fails is collected in `lost`, not repaired.
- LocalRefreshSafety.LiveOwnerIsNotGone: the age test for unparseable lock files is an outside decision of the reclaiming step.
- LocalRefreshTheorems.ReaderReportsTheOwner: a status without a token, written by other versions, is returned on the probe alone and is not tied to a lock.
- `cleanup_stale_local_refresh_state` and `wait_for_local_refresh_lock` serve the repository's own checks only.
- ServerElection.NoOwnerMeansNoServer: accepting connections, peer authentication and the length of time budgets are not modelled; a missing runtime directory, an exhausted budget and a refused connection are one outcome, `NobodyAnswers`.
- ServerElection.StaleSocketBlocksIffUnrestricted: of ownership and type checks only the mode of the socket entry is modelled; nobody removes entries by hand.
- DigestCache.ReturnedDigestIsTheHash: time stamps are natural numbers; the constant fields of an attestation (schema, platform, version, namespace, self-digest) are equal in all records of one store and left out, as is the test that a stored digest is 64 hexadecimal digits. One read call sees the file at one moment, and a write replaces the whole content.
- DigestCacheCalls.SpawnPassesIff: the start of the child process, which checks its own digest again, is left out.
- ArtifactCacheKeyFields.FlagIsKeyed: if the changed flag sorts to another place only the bytes are known to differ (`ChangedFlagIsHashed`); whether a 64-bit hash then differs cannot be said in general. The same holds of include paths and of define names.
- RuntimeManifest.AcceptedIffIncreasing: ASCII case only; for other letters lower-case sorting and the ASCII comparison of duplicates disagree.
- NativeLauncher.PrepareRuntimeAt: the candidate does not change while one activation holds the lock, and seed files are never rewritten in place, so hard links and copies are the same by value.
- NativeLauncher.PublishCompleteGeneration: leftovers of crashed activations stay; nothing reads them, but their names can make a later `create_dir` fail, which the condition `Ready` says.
- NativeSeedStaging.StageNativeGeneration: the branch for a directory that appears between the existence check and the rename is left out, since the staging lock excludes it; canonicalization of sources is left out; the sources do not change between hashing and copying.
- ArtifactCacheKey.BuildIndexArtifactCacheKey: texts that are not UTF-8 (lossy conversion) and Windows path prefixes are left out; so is the sibling key for structural artifacts, which has the same form.
- SourcePacket.ReadNumberedSourceSlice: line numbers do not wrap at 2^32 lines.
- SourcePacket.BuildSourcePacket: notes and display paths of the output are left out.
- SourceCollection.BuildExploreSourcePacket: node details, companion files on disk and matching lines are inputs; how a raw path becomes a project-relative one is left out.
- ModelStaging.DestinationIsAbsentForeignOrGood: other publishers only create; nobody else removes or rewrites entries. A copy writes its content in one step, a death during it leaving an empty temporary.
- ModelStaging.AcceptedFileIsValid: if the accepted file was withdrawn between the size check and the digest, only the digest is stated.
- EventBus.OpenStreamIsASegment: a poisoned mutex and the end of the worker when all senders are gone are left out; so is what receivers do with their channel.
- Configuration, rendering, command lines, HTTP and readiness tables: plumbing without state to protect.

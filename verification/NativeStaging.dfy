/** Transactional publication of staged runtime files: prepare, snapshot, replace one by one, roll back in reverse. */
module NativeStaging {
  import opened Options
  import opened PosixDirectory
  import opened Publication

  datatype PreparedReplacement = PreparedReplacement(temporary: Option<Path>, destination: Path)

  /** `RolledBack` carries the number of failed restores and whether syncing the restored directories failed. */
  datatype Outcome = Done | DuplicateDestination | NotCaptured | RolledBack(restoreErrors: nat, syncError: bool)

  // ---------------------------------------------------------------- specification

  ghost predicate AllStaged(prepared: seq<PreparedReplacement>) {
    forall i :: 0 <= i < |prepared| ==> prepared[i].temporary.Some?
  }

  ghost function MovesOf(prepared: seq<PreparedReplacement>): (moves: seq<Move>)
    requires AllStaged(prepared)
    ensures |moves| == |prepared|
    ensures forall i :: 0 <= i < |moves| ==> moves[i] == Move(prepared[i].temporary.value, prepared[i].destination)
  {
    seq(|prepared|, i requires 0 <= i < |prepared| => Move(prepared[i].temporary.value, prepared[i].destination))
  }

  /** The staged names that a drop of the replacements still has to remove. */
  function StillStaged(prepared: seq<PreparedReplacement>): set<Path> {
    set i | 0 <= i < |prepared| && prepared[i].temporary.Some? :: prepared[i].temporary.value
  }

  /** What anybody outside the staging protocol can see is unchanged, except perhaps at `except`. */
  ghost predicate SameOutside(e: Entries, r: Entries, except: set<Path>) {
    forall p :: !IsStaging(p) && p !in except ==> Lookup(r, p) == Lookup(e, p)
  }

  function Dests(moves: seq<Move>): set<Path> {
    set i | 0 <= i < |moves| :: moves[i].dest
  }

  ghost predicate NoDirectory(e: Entries, paths: set<Path>) {
    forall p :: p in paths && p in e ==> !e[p].Directory?
  }

  /** `sync_destination_directories`: every destination's directory, each once. */
  method SyncDestinationDirectories(fs: FileSystem, dests: seq<Path>) returns (ok: bool)
    modifies fs`faults, fs`unsynced
    ensures fs.unsynced <= old(fs.unsynced)
    ensures ok ==> fs.faults == old(fs.faults) && forall p, i :: p in fs.unsynced && 0 <= i < |dests| ==> p.dir != dests[i].dir
    ensures !ok ==> fs.faults > old(fs.faults)
  {
    var directories: set<string> := {};
    for i := 0 to |dests|
      invariant fs.faults == old(fs.faults) && fs.unsynced <= old(fs.unsynced)
      invariant forall p :: p in fs.unsynced ==> p.dir !in directories
      invariant forall k :: 0 <= k < i ==> dests[k].dir in directories
    {
      if dests[i].dir !in directories {
        directories := directories + {dests[i].dir};
        ok := fs.SyncParent(dests[i]);
        if !ok { return; }
      }
    }
    return true;
  }

  // ---------------------------------------------------------------- best-effort cleanup

  /** `Drop for DestinationSnapshot`, over the whole transaction. `lost` is what could not be removed. */
  method DropSnapshots(fs: FileSystem, snaps: seq<Snapshot>) returns (ghost lost: set<Path>)
    modifies fs`entries, fs`faults, fs`unsynced
    ensures fs.faults >= old(fs.faults) && fs.unsynced <= old(fs.unsynced) + Backups(snaps)
    ensures fs.faults == old(fs.faults) && NoDirectory(old(fs.entries), Backups(snaps)) ==> lost == {}
    ensures lost <= Backups(snaps)
    ensures fs.entries == old(fs.entries) - (Backups(snaps) - lost)
  {
    lost := {};
    ghost var e0 := fs.entries;
    for i := 0 to |snaps|
      invariant fs.faults >= old(fs.faults) && fs.unsynced <= old(fs.unsynced) + Backups(snaps)
      invariant fs.faults == old(fs.faults) && NoDirectory(e0, Backups(snaps)) ==> lost == {}
      invariant lost <= Backups(snaps[..i])
      invariant fs.entries == e0 - (Backups(snaps[..i]) - lost)
    {
      BackupsStep(snaps, i);
      if snaps[i].previous.WasFile? {
        var r := fs.RemoveFile(snaps[i].previous.backup);
        if r.Refused? { lost := lost + {snaps[i].previous.backup}; } else { lost := lost - {snaps[i].previous.backup}; }
      }
    }
    assert snaps[..|snaps|] == snaps;
  }

  lemma BackupsStep(snaps: seq<Snapshot>, i: nat)
    requires i < |snaps|
    ensures Backups(snaps[..i + 1]) == Backups(snaps[..i]) + BackupOf(snaps[i])
  {
    var longer, shorter := snaps[..i + 1], snaps[..i];
    forall p | p in Backups(longer) ensures p in Backups(shorter) + BackupOf(snaps[i]) {
      var k :| 0 <= k < |longer| && longer[k].previous.WasFile? && longer[k].previous.backup == p;
      if k < i { assert shorter[k] == longer[k]; }
    }
    forall p | p in Backups(shorter) ensures p in Backups(longer) {
      var k :| 0 <= k < |shorter| && shorter[k].previous.WasFile? && shorter[k].previous.backup == p;
      assert longer[k] == shorter[k];
    }
    if snaps[i].previous.WasFile? { assert longer[i] == snaps[i]; }
  }

  /** `Drop for PreparedReplacement`, over the whole batch. */
  method DropPrepared(fs: FileSystem, prepared: seq<PreparedReplacement>) returns (ghost lost: set<Path>)
    modifies fs`entries, fs`faults, fs`unsynced
    ensures fs.faults >= old(fs.faults) && fs.unsynced <= old(fs.unsynced) + StillStaged(prepared)
    ensures fs.faults == old(fs.faults) && NoDirectory(old(fs.entries), StillStaged(prepared)) ==> lost == {}
    ensures lost <= StillStaged(prepared)
    ensures fs.entries == old(fs.entries) - (StillStaged(prepared) - lost)
  {
    lost := {};
    ghost var e0 := fs.entries;
    for i := 0 to |prepared|
      invariant fs.faults >= old(fs.faults) && fs.unsynced <= old(fs.unsynced) + StillStaged(prepared)
      invariant fs.faults == old(fs.faults) && NoDirectory(e0, StillStaged(prepared)) ==> lost == {}
      invariant lost <= StillStaged(prepared[..i])
      invariant fs.entries == e0 - (StillStaged(prepared[..i]) - lost)
    {
      StagedStep(prepared, i);
      if prepared[i].temporary.Some? {
        var r := fs.RemoveFile(prepared[i].temporary.value);
        if r.Refused? { lost := lost + {prepared[i].temporary.value}; } else { lost := lost - {prepared[i].temporary.value}; }
      }
    }
    assert prepared[..|prepared|] == prepared;
  }

  lemma StagedStep(prepared: seq<PreparedReplacement>, i: nat)
    requires i < |prepared|
    ensures StillStaged(prepared[..i + 1]) ==
            StillStaged(prepared[..i]) + if prepared[i].temporary.Some? then {prepared[i].temporary.value} else {}
  {
    var longer, shorter := prepared[..i + 1], prepared[..i];
    forall p | p in StillStaged(longer) ensures p in StillStaged(shorter) || prepared[i].temporary == Some(p) {
      var k :| 0 <= k < |longer| && longer[k].temporary.Some? && longer[k].temporary.value == p;
      if k < i { assert shorter[k] == longer[k]; }
    }
    forall p | p in StillStaged(shorter) ensures p in StillStaged(longer) {
      var k :| 0 <= k < |shorter| && shorter[k].temporary.Some? && shorter[k].temporary.value == p;
      assert longer[k] == shorter[k];
    }
    if prepared[i].temporary.Some? { assert longer[i] == prepared[i]; }
  }

  // ---------------------------------------------------------------- snapshots

  /** `DestinationSnapshot::capture`. */
  method CaptureOne(fs: FileSystem, destination: Path) returns (s: Option<Snapshot>)
    requires !IsStaging(destination)
    modifies fs
    ensures fs.faults >= old(fs.faults)
    ensures s.None? && fs.faults == old(fs.faults) ==> Lookup(fs.entries, destination) == Some(Directory)
    ensures s.None? ==> fs.entries == old(fs.entries)
    ensures fs.unsynced == old(fs.unsynced) && (s.Some? ==> fs.faults == old(fs.faults))
    ensures s.Some? ==> Snapshots(fs.entries, destination, s.value) && BackupOf(s.value) !! old(fs.entries).Keys
    ensures s.Some? ==> fs.entries - BackupOf(s.value) == old(fs.entries)
  {
    if destination !in fs.entries {
      return Some(Snapshot(destination, WasAbsent));
    }
    match fs.entries[destination] {
      case Symlink(target) =>
        return Some(Snapshot(destination, WasSymlink(target)));
      case File(_) =>
        var backup := fs.CreateUniqueHardLink(destination, destination);
        if backup.None? { return None; }
        return Some(Snapshot(destination, WasFile(backup.value)));
      case Directory =>
        return None;
    }
  }

  /** One more snapshot beside the earlier ones. */
  lemma CapturedGrows(e: Entries, r: Entries, moves: seq<Move>, snaps: seq<Snapshot>, s: Snapshot)
    requires Batch(e, moves) && Captured(e, moves, snaps) && |snaps| < |moves|
    requires Snapshots(r, moves[|snaps|].dest, s) && BackupOf(s) !! e.Keys && r - BackupOf(s) == e
    ensures Captured(r, moves, snaps + [s])
  {
    var longer := snaps + [s];
    forall i | 0 <= i < |longer| ensures Snapshots(r, moves[i].dest, longer[i]) {
      if i < |snaps| {
        assert Snapshots(e, moves[i].dest, snaps[i]);
        assert longer[i] == snaps[i];
      }
    }
    forall i | 0 <= i < |snaps| && snaps[i].previous.WasFile? ensures snaps[i].previous.backup in e {
      assert Snapshots(e, moves[i].dest, snaps[i]);
    }
  }

  /** `PublicationTransaction::capture`: on a failure the snapshots taken so far are dropped. */
  method CaptureAll(fs: FileSystem, ghost moves: seq<Move>, dests: seq<Path>) returns (ok: bool, snaps: seq<Snapshot>, ghost lost: set<Path>)
    requires Batch(fs.entries, moves) && |dests| == |moves| && forall i :: 0 <= i < |dests| ==> dests[i] == moves[i].dest
    modifies fs
    ensures fs.faults >= old(fs.faults)
    ensures !ok && fs.faults == old(fs.faults) ==> exists i :: 0 <= i < |dests| && Lookup(old(fs.entries), dests[i]) == Some(Directory)
    ensures ok ==> fs.faults == old(fs.faults) && fs.unsynced == old(fs.unsynced)
    ensures !ok ==> forall p :: p in fs.unsynced ==> p in old(fs.unsynced) || IsStaging(p)
    ensures !ok && NoDirectory(old(fs.entries), Dests(moves)) ==> fs.faults > old(fs.faults) && (fs.faults == old(fs.faults) + 1 ==> lost == {})
    ensures ok ==> |snaps| == |moves| && Captured(fs.entries, moves, snaps) && lost == {}
    ensures ok ==> Backups(snaps) !! old(fs.entries).Keys && fs.entries - Backups(snaps) == old(fs.entries)
    ensures !ok ==> fs.entries - lost == old(fs.entries) && lost !! old(fs.entries).Keys && forall p :: p in lost ==> IsStaging(p)
  {
    snaps, lost := [], {};
    ghost var e0 := fs.entries;
    for i := 0 to |dests|
      invariant fs.faults == old(fs.faults) && fs.unsynced == old(fs.unsynced)
      invariant |snaps| == i && Captured(fs.entries, moves, snaps) && Batch(fs.entries, moves) && lost == {}
      invariant Backups(snaps) !! e0.Keys && fs.entries - Backups(snaps) == e0
      invariant forall p :: p in Backups(snaps) ==> IsStaging(p)
    {
      ghost var e := fs.entries;
      var s := CaptureOne(fs, dests[i]);
      if s.None? {
        assert Lookup(e, dests[i]) == Some(Directory) ==> Lookup(e0, dests[i]) == Some(Directory);
        assert moves[i].dest in Dests(moves);
        CapturedBackupsAreFiles(e, moves, snaps);
        lost := DropSnapshots(fs, snaps);
        return false, [], lost;
      }
      CapturedGrows(e, fs.entries, moves, snaps, s.value);
      BackupsStep(snaps + [s.value], i);
      assert (snaps + [s.value])[..i] == snaps && (snaps + [s.value])[..i + 1] == snaps + [s.value];
      snaps := snaps + [s.value];
    }
    return true, snaps, {};
  }

  lemma CapturedBackupsAreFiles(e: Entries, moves: seq<Move>, snaps: seq<Snapshot>)
    requires Captured(e, moves, snaps)
    ensures NoDirectory(e, Backups(snaps))
  {
    forall p | p in Backups(snaps) && p in e ensures !e[p].Directory? {
      var i :| 0 <= i < |snaps| && snaps[i].previous.WasFile? && snaps[i].previous.backup == p;
      assert Snapshots(e, moves[i].dest, snaps[i]);
    }
  }

  // ---------------------------------------------------------------- rollback

  /** No name became a directory. */
  ghost predicate NoNewDirectory(e: Entries, r: Entries) {
    forall p :: p in r && r[p].Directory? ==> p in e && e[p].Directory?
  }

  /** Every entry but the snapshot's own names is still there. */
  ghost predicate OthersStay(e: Entries, r: Entries, s: Snapshot) {
    forall p :: p in e && p != s.destination && p !in BackupOf(s) ==> p in r && r[p] == e[p]
  }

  /** Nothing but the environment can refuse to restore the snapshot. */
  predicate CanRestore(e: Entries, s: Snapshot) {
    && (s.destination in e ==> !e[s.destination].Directory?)
    && (s.previous.WasFile? ==> s.previous.backup in e && e[s.previous.backup].File?)
  }

  /** `DestinationSnapshot::restore`: a restored file snapshot no longer owns its backup. */
  method RestoreOne(fs: FileSystem, s: Snapshot) returns (after: Snapshot, ok: bool)
    requires !IsStaging(s.destination) && (s.previous.WasFile? ==> IsStaging(s.previous.backup))
    modifies fs
    ensures fs.faults >= old(fs.faults)
    ensures ok ==> fs.entries == Restored(old(fs.entries), s)
    ensures !ok ==> SameOutside(old(fs.entries), fs.entries, {})
    ensures !ok && fs.faults == old(fs.faults) ==> !CanRestore(old(fs.entries), s)
    ensures NoNewDirectory(old(fs.entries), fs.entries) && OthersStay(old(fs.entries), fs.entries, s)
    ensures forall p :: p in fs.unsynced ==> p in old(fs.unsynced) || p == s.destination || IsStaging(p)
    ensures SameOutside(old(fs.entries), fs.entries, {s.destination})
    ensures after == if ok && s.previous.WasFile? then s.(previous := WasAbsent) else s
  {
    match s.previous {
      case WasAbsent =>
        var r := fs.RemoveFile(s.destination);
        return s, !r.Refused?;
      case WasFile(backup) =>
        ok := fs.ReplaceFile(backup, s.destination);
        return if ok then s.(previous := WasAbsent) else s, ok;
      case WasSymlink(target) =>
        var temporary := fs.CreateUniqueSymlink(target, s.destination);
        if temporary.None? { return s, false; }
        ok := fs.ReplaceFile(temporary.value, s.destination);
        if !ok {
          var _ := fs.RemoveFile(temporary.value);
        }
        return s, ok;
    }
  }

  /** The snapshot after its restore succeeded. */
  function Settled(s: Snapshot): Snapshot {
    if s.previous.WasFile? then s.(previous := WasAbsent) else s
  }

  ghost predicate Undoable(snaps: seq<Snapshot>) {
    forall i :: 0 <= i < |snaps| ==>
      !IsStaging(snaps[i].destination) && (snaps[i].previous.WasFile? ==> IsStaging(snaps[i].previous.backup))
  }

  function DestinationsOf(snaps: seq<Snapshot>): set<Path> {
    set i | 0 <= i < |snaps| :: snaps[i].destination
  }

  lemma SameOutsideRefl(e: Entries, except: set<Path>)
    ensures SameOutside(e, e, except)
  {
  }

  lemma SameOutsideTrans(e0: Entries, e: Entries, r: Entries, snaps: seq<Snapshot>, k: nat)
    requires k < |snaps| && SameOutside(e0, e, DestinationsOf(snaps)) && SameOutside(e, r, {snaps[k].destination})
    ensures SameOutside(e0, r, DestinationsOf(snaps))
  {
    assert snaps[k].destination in DestinationsOf(snaps);
  }

  ghost predicate Restorable(e: Entries, snaps: seq<Snapshot>) {
    && (forall i :: 0 <= i < |snaps| ==> CanRestore(e, snaps[i]))
    && (forall i, j :: 0 <= i < j < |snaps| && snaps[i].previous.WasFile? ==> snaps[i].previous.backup !in BackupOf(snaps[j]))
  }

  lemma StillRestorable(e: Entries, r: Entries, snaps: seq<Snapshot>, k: nat)
    requires k < |snaps| && Undoable(snaps) && Restorable(e, snaps[..k + 1]) && NoNewDirectory(e, r) && OthersStay(e, r, snaps[k])
    ensures Restorable(r, snaps[..k])
  {
    var longer, shorter := snaps[..k + 1], snaps[..k];
    forall i | 0 <= i < k ensures CanRestore(r, shorter[i]) {
      assert longer[i] == shorter[i] == snaps[i] && CanRestore(e, longer[i]) && longer[k] == snaps[k];
    }
    forall i, j | 0 <= i < j < k && shorter[i].previous.WasFile? ensures shorter[i].previous.backup !in BackupOf(shorter[j]) {
      assert longer[i] == shorter[i] && longer[j] == shorter[j];
    }
  }

  function SyncFault(syncError: bool): nat {
    if syncError then 1 else 0
  }

  /** `PublicationTransaction::rollback`: every published destination, the last first, whatever fails on the way. */
  method Rollback(fs: FileSystem, snaps: seq<Snapshot>, published: nat)
    returns (after: seq<Snapshot>, restoreErrors: nat, syncError: bool)
    requires published <= |snaps| && Undoable(snaps)
    modifies fs
    ensures fs.faults >= old(fs.faults)
    ensures Restorable(old(fs.entries), snaps[..published]) ==> restoreErrors + SyncFault(syncError) <= fs.faults - old(fs.faults)
    ensures NoNewDirectory(old(fs.entries), fs.entries)
    ensures forall p :: p in fs.unsynced ==> p in old(fs.unsynced) || p in DestinationsOf(snaps[..published]) || IsStaging(p)
    ensures !syncError ==> forall p :: p in fs.unsynced ==> p !in DestinationsOf(snaps[..published])
    ensures |after| == |snaps|
    ensures SameOutside(old(fs.entries), fs.entries, DestinationsOf(snaps))
    ensures restoreErrors == 0 ==> fs.entries == RestoredAll(old(fs.entries), snaps[..published])
    ensures restoreErrors == 0 ==>
              forall i :: 0 <= i < |snaps| ==> after[i] == if i < published then Settled(snaps[i]) else snaps[i]
    ensures forall i :: 0 <= i < |snaps| ==> after[i] == snaps[i] || after[i] == Settled(snaps[i])
  {
    hide SameOutside, Restored, NoNewDirectory, OthersStay, Restorable, CanRestore, IsStaging;
    ghost var e0 := fs.entries;
    SameOutsideRefl(e0, DestinationsOf(snaps));
    NoNewDirectoryRefl(e0);
    after, restoreErrors := snaps, 0;
    var k := published;
    while k > 0
      invariant 0 <= k <= published && |after| == |snaps| && fs.faults >= old(fs.faults)
      invariant Restorable(e0, snaps[..published]) ==> Restorable(fs.entries, snaps[..k]) && restoreErrors <= fs.faults - old(fs.faults)
      invariant NoNewDirectory(e0, fs.entries)
      invariant forall p :: p in fs.unsynced ==> p in old(fs.unsynced) || p in DestinationsOf(snaps[..published]) || IsStaging(p)
      invariant SameOutside(e0, fs.entries, DestinationsOf(snaps))
      invariant restoreErrors == 0 ==> RestoredAll(fs.entries, snaps[..k]) == RestoredAll(e0, snaps[..published])
      invariant forall i :: 0 <= i < k || published <= i < |snaps| ==> after[i] == snaps[i]
      invariant restoreErrors == 0 ==> forall i :: k <= i < published ==> after[i] == Settled(snaps[i])
      invariant forall i :: 0 <= i < |snaps| ==> after[i] == snaps[i] || after[i] == Settled(snaps[i])
    {
      k := k - 1;
      ghost var e := fs.entries;
      var s, ok := RestoreOne(fs, after[k]);
      after := after[k := s];
      if !ok { restoreErrors := restoreErrors + 1; }
      assert snaps[..k + 1][..k] == snaps[..k];
      SameOutsideTrans(e0, e, fs.entries, snaps, k);
      NoNewDirectoryTrans(e0, e, fs.entries);
      RestorableNow(e, snaps, k);
      if Restorable(e, snaps[..k + 1]) { StillRestorable(e, fs.entries, snaps, k); }
      assert snaps[..published][k] == snaps[k];
    }
    var dests := DestinationList(snaps[..published]);
    var synced := SyncDestinationDirectories(fs, dests);
    syncError := !synced;
  }

  lemma NoNewDirectoryRefl(e: Entries)
    ensures NoNewDirectory(e, e)
  {
  }

  lemma NoNewDirectoryTrans(e0: Entries, e: Entries, r: Entries)
    requires NoNewDirectory(e0, e) && NoNewDirectory(e, r)
    ensures NoNewDirectory(e0, r)
  {
  }

  lemma RestorableNow(e: Entries, snaps: seq<Snapshot>, k: nat)
    requires k < |snaps|
    ensures Restorable(e, snaps[..k + 1]) ==> CanRestore(e, snaps[k])
  {
    assert snaps[..k + 1][k] == snaps[k];
  }

  function DestinationList(snaps: seq<Snapshot>): (dests: seq<Path>)
    ensures |dests| == |snaps| && forall i :: 0 <= i < |dests| ==> dests[i] == snaps[i].destination
  {
    seq(|snaps|, i requires 0 <= i < |snaps| => snaps[i].destination)
  }

  // ---------------------------------------------------------------- the transaction

  /** Every way out after the first replacement: roll back, then drop the snapshots and the replacements. */
  method Abort(fs: FileSystem, snaps: seq<Snapshot>, staged: seq<PreparedReplacement>, published: nat)
    returns (outcome: Outcome, ghost lost: set<Path>)
    requires published <= |snaps| && Undoable(snaps)
    requires forall p :: p in StillStaged(staged) ==> IsStaging(p)
    requires Restorable(fs.entries, snaps[..published]) && NoDirectory(fs.entries, Backups(snaps) + StillStaged(staged))
    modifies fs
    ensures outcome.RolledBack? && outcome.restoreErrors + SyncFault(outcome.syncError) <= fs.faults - old(fs.faults)
    ensures fs.faults == old(fs.faults) ==> lost == {}
    ensures forall p :: p in fs.unsynced ==> p in old(fs.unsynced) || p in DestinationsOf(snaps[..published]) || IsStaging(p)
    ensures !outcome.syncError ==> forall p :: p in fs.unsynced && p in DestinationsOf(snaps[..published]) ==> IsStaging(p)
    ensures forall p :: p in lost ==> IsStaging(p)
    ensures SameOutside(old(fs.entries), fs.entries, DestinationsOf(snaps))
    ensures outcome.restoreErrors == 0 ==>
              && lost <= BackupsFrom(snaps, published) + StillStaged(staged)
              && fs.entries - lost == RestoredAll(old(fs.entries), snaps[..published])
                                      - (BackupsFrom(snaps, published) + StillStaged(staged)) - lost
  {
    hide NoNewDirectory, Restorable, NoDirectory, SameOutside, IsStaging, RestoredAll, Settled, DestinationsOf;
    ghost var before, names := fs.entries, Backups(snaps) + StillStaged(staged);
    var after, errors, syncError := Rollback(fs, snaps, published);
    ghost var restored := fs.entries;
    BackupsOnly(snaps, after);
    StillNoDirectory(before, restored, names);
    FewerNames(restored, {}, names, Backups(after));
    BackupsAreStaging(snaps, after, published, errors);
    assert restored - {} == restored;
    ghost var l1 := DropSnapshots(fs, after);
    FewerNames(restored, Backups(after) - l1, names, StillStaged(staged));
    SameOutsideLess(before, restored, DestinationsOf(snaps), Backups(after) - l1);
    ghost var l2 := DropPrepared(fs, staged);
    SameOutsideLess(before, restored - (Backups(after) - l1), DestinationsOf(snaps), StillStaged(staged) - l2);
    return RolledBack(errors, syncError), l1 + l2;
  }

  lemma SameOutsideLess(e: Entries, r: Entries, except: set<Path>, gone: set<Path>)
    requires SameOutside(e, r, except) && forall p :: p in gone ==> IsStaging(p)
    ensures SameOutside(e, r - gone, except)
  {
  }

  lemma FewerNames(e: Entries, gone: set<Path>, all: set<Path>, fewer: set<Path>)
    requires NoDirectory(e, all) && fewer <= all
    ensures NoDirectory(e - gone, fewer)
  {
  }

  lemma StillNoDirectory(e: Entries, r: Entries, paths: set<Path>)
    requires NoNewDirectory(e, r) && NoDirectory(e, paths)
    ensures NoDirectory(r, paths)
  {
  }

  lemma BackupsOnly(snaps: seq<Snapshot>, after: seq<Snapshot>)
    requires |after| == |snaps| && forall i :: 0 <= i < |snaps| ==> after[i] == snaps[i] || after[i] == Settled(snaps[i])
    ensures Backups(after) <= Backups(snaps)
  {
    forall p | p in Backups(after) ensures p in Backups(snaps) {
      var i :| 0 <= i < |after| && after[i].previous.WasFile? && after[i].previous.backup == p;
      assert after[i] == snaps[i];
    }
  }

  /** Backups of the snapshots that were never published, hence never restored. */
  function BackupsFrom(snaps: seq<Snapshot>, published: nat): set<Path> {
    set i | published <= i < |snaps| && snaps[i].previous.WasFile? :: snaps[i].previous.backup
  }

  lemma BackupsAreStaging(snaps: seq<Snapshot>, after: seq<Snapshot>, published: nat, errors: nat)
    requires published <= |snaps| == |after| && Undoable(snaps)
    requires forall i :: 0 <= i < |snaps| ==> after[i] == snaps[i] || after[i] == Settled(snaps[i])
    requires errors == 0 ==> forall i :: 0 <= i < |snaps| ==> after[i] == if i < published then Settled(snaps[i]) else snaps[i]
    ensures forall p :: p in Backups(after) ==> IsStaging(p)
    ensures errors == 0 ==> Backups(after) == BackupsFrom(snaps, published)
  {
    if errors == 0 {
      forall p ensures p in Backups(after) <==> p in BackupsFrom(snaps, published) {
        if p in Backups(after) {
          var i :| 0 <= i < |after| && after[i].previous.WasFile? && after[i].previous.backup == p;
          assert after[i] == snaps[i];
        }
        if p in BackupsFrom(snaps, published) {
          var i :| published <= i < |snaps| && snaps[i].previous.WasFile? && snaps[i].previous.backup == p;
          assert after[i] == snaps[i];
        }
      }
    }
  }

  /** Without aliases a rolled-back prefix consumes all its staged names and backups. */
  lemma {:induction false} NoAliasConsumesAll(e: Entries, moves: seq<Move>, snaps: seq<Snapshot>)
    requires |moves| == |snaps| && NoAlias(e, moves)
    ensures AllConsumed(e, moves, snaps) == Temps(moves) + Backups(snaps)
    decreases |moves|
  {
    if moves != [] {
      var n := |moves| - 1;
      NoAliasConsumesAll(e, moves[..n], snaps[..n]);
      assert moves[..n + 1] == moves && snaps[..n + 1] == snaps;
      TempsStep(moves, n);
      BackupsStep(snaps, n);
    }
  }

  lemma TempsStep(moves: seq<Move>, i: nat)
    requires i < |moves|
    ensures Temps(moves[..i + 1]) == Temps(moves[..i]) + {moves[i].temp}
  {
    var longer, shorter := moves[..i + 1], moves[..i];
    forall p | p in Temps(longer) ensures p in Temps(shorter) || p == moves[i].temp {
      var k :| 0 <= k < |longer| && longer[k].temp == p;
      if k < i { assert shorter[k] == longer[k]; }
    }
    forall p | p in Temps(shorter) ensures p in Temps(longer) {
      var k :| 0 <= k < |shorter| && shorter[k].temp == p;
      assert longer[k] == shorter[k];
    }
    assert longer[i] == moves[i];
  }

  lemma CapturedFront(e: Entries, moves: seq<Move>, snaps: seq<Snapshot>, k: nat)
    requires Batch(e, moves) && Captured(e, moves, snaps) && k <= |moves| == |snaps|
    ensures Batch(e, moves[..k]) && Captured(e, moves[..k], snaps[..k])
    ensures DistinctDests(moves) ==> DistinctDests(moves[..k])
  {
    forall i | 0 <= i < k ensures Snapshots(e, moves[..k][i].dest, snaps[..k][i]) { assert Snapshots(e, moves[i].dest, snaps[i]); }
  }

  /** Only staged names and backups are ever consumed. */
  lemma {:induction false} ConsumedWithin(e: Entries, moves: seq<Move>, snaps: seq<Snapshot>)
    requires |moves| == |snaps|
    ensures AllConsumed(e, moves, snaps) <= Temps(moves) + Backups(snaps)
    decreases |moves|
  {
    if moves != [] {
      var n := |moves| - 1;
      ConsumedWithin(e, moves[..n], snaps[..n]);
      assert moves[..n + 1] == moves && snaps[..n + 1] == snaps;
      TempsStep(moves, n);
      BackupsStep(snaps, n);
    }
  }

  lemma BackupsSplit(snaps: seq<Snapshot>, k: nat)
    requires k <= |snaps|
    ensures Backups(snaps) == Backups(snaps[..k]) + BackupsFrom(snaps, k)
  {
    var front := snaps[..k];
    forall p | p in Backups(snaps) ensures p in Backups(front) + BackupsFrom(snaps, k) {
      var i :| 0 <= i < |snaps| && snaps[i].previous.WasFile? && snaps[i].previous.backup == p;
      if i < k { assert front[i] == snaps[i]; }
    }
    forall p | p in Backups(front) ensures p in Backups(snaps) {
      var i :| 0 <= i < |front| && front[i].previous.WasFile? && front[i].previous.backup == p;
      assert snaps[i] == front[i];
    }
  }

  /** The batch with its first `k` replacements published: their `temporary` fields are empty. */
  ghost predicate StagedAfter(prepared: seq<PreparedReplacement>, staged: seq<PreparedReplacement>, k: nat) {
    && k <= |prepared| == |staged|
    && forall i :: 0 <= i < |prepared| ==>
         staged[i] == if i < k then PreparedReplacement(None, prepared[i].destination) else prepared[i]
  }

  lemma TempsSplit(prepared: seq<PreparedReplacement>, staged: seq<PreparedReplacement>, k: nat)
    requires AllStaged(prepared) && StagedAfter(prepared, staged, k)
    ensures Temps(MovesOf(prepared)) == Temps(MovesOf(prepared)[..k]) + StillStaged(staged)
  {
    var moves := MovesOf(prepared);
    var front := moves[..k];
    forall p | p in Temps(moves) ensures p in Temps(front) + StillStaged(staged) {
      var i :| 0 <= i < |moves| && moves[i].temp == p;
      if i < k { assert front[i] == moves[i]; } else { assert staged[i] == prepared[i]; }
    }
    forall p | p in Temps(front) ensures p in Temps(moves) {
      var i :| 0 <= i < |front| && front[i].temp == p;
      assert moves[i] == front[i];
    }
    forall p | p in StillStaged(staged) ensures p in Temps(moves) {
      var i :| 0 <= i < |staged| && staged[i].temporary.Some? && staged[i].temporary.value == p;
      assert moves[i].temp == p;
    }
  }

  /** What an aborted transaction leaves, in terms of the directory before the call. */
  lemma AbortRestoresEverything(e0: Entries, e1: Entries, prepared: seq<PreparedReplacement>, staged: seq<PreparedReplacement>,
                                snaps: seq<Snapshot>, k: nat, r: Entries, lost: set<Path>)
    requires AllStaged(prepared) && StagedAfter(prepared, staged, k)
    requires Batch(e0, MovesOf(prepared)) && Batch(e1, MovesOf(prepared)) && DistinctDests(MovesOf(prepared))
    requires |snaps| == |prepared| && Captured(e1, MovesOf(prepared), snaps)
    requires Backups(snaps) !! e0.Keys && e1 - Backups(snaps) == e0
    requires lost <= BackupsFrom(snaps, k) + StillStaged(staged)
    requires r - lost == RestoredAll(Published(e1, MovesOf(prepared)[..k]), snaps[..k])
                         - (BackupsFrom(snaps, k) + StillStaged(staged)) - lost
    ensures SameOutside(e0, r, {})
    ensures NoAlias(e0, MovesOf(prepared)) ==> r - lost == e0 - Temps(MovesOf(prepared))
  {
    hide Captured, Batch, DistinctDests, IsStaging, NoAlias, Published, RestoredAll, SameOutside;
    var moves := MovesOf(prepared);
    CapturedFront(e1, moves, snaps, k);
    UndoAll(e1, moves[..k], snaps[..k]);
    ConsumedWithin(e1, moves[..k], snaps[..k]);
    TempsSplit(prepared, staged, k);
    BackupsSplit(snaps, k);
    TempsAreStaging(e0, moves);
    BackupNamesAreStaging(e1, moves, snaps);
    var consumed, rest := AllConsumed(e1, moves[..k], snaps[..k]), BackupsFrom(snaps, k) + StillStaged(staged);
    if NoAlias(e0, moves) {
      PrefixConsumesAll(e0, e1, moves, snaps, k);
      assert consumed + rest == Backups(snaps) + Temps(moves);
    }
    TakenAway(e0, e1, Backups(snaps), Temps(moves), consumed, rest, lost, r);
  }

  lemma PrefixConsumesAll(e0: Entries, e1: Entries, moves: seq<Move>, snaps: seq<Snapshot>, k: nat)
    requires Batch(e0, moves) && Batch(e1, moves) && |snaps| == |moves| && k <= |moves| && Captured(e1, moves, snaps)
    requires Backups(snaps) !! e0.Keys && e1 - Backups(snaps) == e0 && NoAlias(e0, moves)
    ensures AllConsumed(e1, moves[..k], snaps[..k]) == Temps(moves[..k]) + Backups(snaps[..k])
  {
    forall i | 0 <= i < k ensures !Aliased(e1, moves[..k][i]) { NotAliasedLater(e0, e1, moves, snaps, i); }
    NoAliasConsumesAll(e1, moves[..k], snaps[..k]);
  }

  /** Entries and names only: what is left when `consumed` and `rest` go from a directory that had gained `backups`. */
  lemma TakenAway(e0: Entries, e1: Entries, backups: set<Path>, temps: set<Path>, consumed: set<Path>, rest: set<Path>,
                  lost: set<Path>, r: Entries)
    requires e1 - backups == e0 && lost <= rest && rest <= backups + temps && consumed <= backups + temps
    requires forall p :: p in backups + temps ==> IsStaging(p)
    requires r - lost == e1 - consumed - rest - lost
    ensures SameOutside(e0, r, {})
    ensures consumed + rest == backups + temps ==> r - lost == e0 - temps
  {
    forall p | !IsStaging(p) ensures Lookup(r, p) == Lookup(e0, p) {
      assert p !in lost && p !in consumed && p !in rest && p !in backups;
      assert Lookup(r, p) == Lookup(r - lost, p) == Lookup(e1, p) == Lookup(e1 - backups, p);
    }
    if consumed + rest == backups + temps {
      assert e1 - consumed - rest - lost == e1 - (consumed + rest);
      assert e1 - (backups + temps) == (e1 - backups) - temps;
    }
  }

  lemma TempsAreStaging(e: Entries, moves: seq<Move>)
    requires Batch(e, moves)
    ensures forall p :: p in Temps(moves) ==> IsStaging(p)
  {
  }

  lemma BackupNamesAreStaging(e: Entries, moves: seq<Move>, snaps: seq<Snapshot>)
    requires Captured(e, moves, snaps)
    ensures forall p :: p in Backups(snaps) ==> IsStaging(p)
  {
    forall p | p in Backups(snaps) ensures IsStaging(p) {
      var i :| 0 <= i < |snaps| && snaps[i].previous.WasFile? && snaps[i].previous.backup == p;
      assert Snapshots(e, moves[i].dest, snaps[i]);
    }
  }

  lemma NotAliasedLater(e0: Entries, e1: Entries, moves: seq<Move>, snaps: seq<Snapshot>, i: nat)
    requires Batch(e0, moves) && Backups(snaps) !! e0.Keys && e1 - Backups(snaps) == e0
    requires Captured(e1, moves, snaps) && i < |moves| && !Aliased(e0, moves[i])
    ensures !Aliased(e1, moves[i])
  {
    BackupNamesAreStaging(e1, moves, snaps);
    assert IsStaging(moves[i].temp) && !IsStaging(moves[i].dest);
  }

  /** The destinations, unless one occurs twice. */
  method DestinationsOnce(prepared: seq<PreparedReplacement>) returns (dests: Option<seq<Path>>)
    requires AllStaged(prepared)
    ensures dests.None? <==> !DistinctDests(MovesOf(prepared))
    ensures dests.Some? ==> |dests.value| == |prepared| && forall i :: 0 <= i < |prepared| ==> dests.value[i] == MovesOf(prepared)[i].dest
  {
    ghost var moves := MovesOf(prepared);
    var done: seq<Path> := [];
    for i := 0 to |prepared|
      invariant |done| == i
      invariant forall j :: 0 <= j < i ==> done[j] == moves[j].dest
      invariant forall j, k :: 0 <= j < k < i ==> moves[j].dest != moves[k].dest
    {
      if prepared[i].destination in done {
        return None;
      }
      done := done + [prepared[i].destination];
    }
    return Some(done);
  }

  /** `publish_all_with`. On success every destination names its staged inode; on any failure every entry outside the
      staging names is as before, unless a restore failed, and then only destinations may differ. Nothing staged stays,
      up to what best-effort cleanup lost and to staged files that already were their destination. */
  method PublishAll(fs: FileSystem, prepared: seq<PreparedReplacement>) returns (outcome: Outcome, ghost lost: set<Path>)
    requires AllStaged(prepared) && Batch(fs.entries, MovesOf(prepared))
    modifies fs
    ensures fs.faults >= old(fs.faults)
    ensures fs.faults == old(fs.faults) && DistinctDests(MovesOf(prepared)) && NoDirectory(old(fs.entries), Dests(MovesOf(prepared))) ==>
              outcome.Done? && lost == {}
    ensures forall p :: p in lost ==> IsStaging(p)
    ensures SameOutside(old(fs.entries), fs.entries, Dests(MovesOf(prepared)))
    ensures outcome.Done? ==> DistinctDests(MovesOf(prepared))
    ensures outcome.Done? ==> fs.entries - lost == Published(old(fs.entries), MovesOf(prepared)) && lost !! old(fs.entries).Keys
    ensures outcome.DuplicateDestination? <==> !DistinctDests(MovesOf(prepared))
    ensures outcome.DuplicateDestination? || outcome.NotCaptured? ==> fs.entries - lost == old(fs.entries) - Temps(MovesOf(prepared))
    ensures !outcome.Done? && (outcome.RolledBack? ==> outcome.restoreErrors == 0) ==> SameOutside(old(fs.entries), fs.entries, {})
    ensures outcome.RolledBack? && outcome.restoreErrors == 0 && NoAlias(old(fs.entries), MovesOf(prepared)) ==>
              fs.entries - lost == old(fs.entries) - Temps(MovesOf(prepared))
    ensures outcome.RolledBack? ==> outcome.restoreErrors + SyncFault(outcome.syncError) < fs.faults - old(fs.faults)
    ensures outcome.NotCaptured? || outcome.RolledBack? ==>
              fs.faults == old(fs.faults) + 1 && NoDirectory(old(fs.entries), Dests(MovesOf(prepared))) ==> lost == {}
    ensures outcome.Done? ==> forall p :: p in fs.unsynced ==> p !in Dests(MovesOf(prepared))
    ensures outcome.RolledBack? && !outcome.syncError ==> forall p :: p in fs.unsynced && p in Dests(MovesOf(prepared)) ==> p in old(fs.unsynced)
  {
    hide Captured, NoAlias, NoDirectory, SameOutside;
    ghost var moves, e0 := MovesOf(prepared), fs.entries;
    StagedAreFiles(e0, prepared);
    SameOutsideRefl(e0, Dests(moves));
    SameOutsideRefl(e0, {});
    DestsAreNotStaging(e0, moves);
    TempsAreStaging(e0, moves);
    StagedIsTemps(prepared);
    var dests := DestinationsOnce(prepared);
    hide Batch, DistinctDests, IsStaging, Published;
    if dests.None? {
      lost := DropPrepared(fs, prepared);
      SameOutsideLess(e0, e0, Dests(moves), StillStaged(prepared) - lost);
      SameOutsideLess(e0, e0, {}, StillStaged(prepared) - lost);
      return DuplicateDestination, lost;
    }
    var captured, snaps;
    captured, snaps, lost := CaptureAll(fs, moves, dests.value);
    if !captured {
      ghost var kept := fs.entries;
      KeptBesides(e0, kept, lost, StillStaged(prepared), Dests(moves));
      ghost var more := DropPrepared(fs, prepared);
      SameOutsideLess(e0, kept, Dests(moves), StillStaged(prepared) - more);
      SameOutsideLess(e0, kept, {}, StillStaged(prepared) - more);
      return NotCaptured, lost + more;
    }
    outcome, lost := PublishCaptured(fs, prepared, snaps, e0);
  }

  /** What an abort needs: nothing but the environment can refuse to restore, and no name to be dropped is a directory. */
  lemma AbortIsPossible(e1: Entries, prepared: seq<PreparedReplacement>, staged: seq<PreparedReplacement>, snaps: seq<Snapshot>, k: nat)
    requires AllStaged(prepared) && StagedAfter(prepared, staged, k) && Batch(e1, MovesOf(prepared)) && DistinctDests(MovesOf(prepared))
    requires |snaps| == |prepared| && Captured(e1, MovesOf(prepared), snaps)
    ensures var r := Published(e1, MovesOf(prepared)[..k]); Restorable(r, snaps[..k]) && NoDirectory(r, Backups(snaps) + StillStaged(staged))
  {
    var moves := MovesOf(prepared);
    var r, front := Published(e1, moves[..k]), snaps[..k];
    CapturedFront(e1, moves, snaps, k);
    forall i | 0 <= i < |snaps| && snaps[i].previous.WasFile?
      ensures Lookup(r, snaps[i].previous.backup) == Lookup(e1, snaps[i].previous.backup)
      ensures snaps[i].previous.backup in e1 && e1[snaps[i].previous.backup].File?
    {
      BackupStays(e1, moves, snaps, k, i);
    }
    forall i | 0 <= i < k ensures CanRestore(r, front[i]) {
      assert front[i] == snaps[i] && moves[..k][i] == moves[i] && Snapshots(e1, moves[i].dest, snaps[i]);
      PublishedAt(e1, moves[..k], i);
    }
    forall i | k <= i < |moves| ensures Lookup(r, moves[i].temp) == Lookup(e1, moves[i].temp) {
      forall j | 0 <= j < k ensures moves[i].temp != moves[..k][j].temp && moves[i].temp != moves[..k][j].dest {
        assert moves[..k][j] == moves[j] && IsStaging(moves[i].temp);
      }
      PublishedElsewhere(e1, moves[..k], moves[i].temp);
    }
  }

  lemma BackupStays(e1: Entries, moves: seq<Move>, snaps: seq<Snapshot>, k: nat, i: nat)
    requires Batch(e1, moves) && Captured(e1, moves, snaps) && k <= |moves| && i < |snaps| && snaps[i].previous.WasFile?
    ensures Lookup(Published(e1, moves[..k]), snaps[i].previous.backup) == Lookup(e1, snaps[i].previous.backup)
    ensures snaps[i].previous.backup in e1 && e1[snaps[i].previous.backup].File?
  {
    assert Snapshots(e1, moves[i].dest, snaps[i]);
    var p := snaps[i].previous.backup;
    forall j | 0 <= j < k ensures p != moves[..k][j].temp && p != moves[..k][j].dest {
      assert moves[..k][j] == moves[j] && !IsStaging(moves[j].dest);
    }
    PublishedElsewhere(e1, moves[..k], p);
  }

  lemma StagedAreFiles(e: Entries, prepared: seq<PreparedReplacement>)
    requires AllStaged(prepared) && Batch(e, MovesOf(prepared))
    ensures NoDirectory(e, StillStaged(prepared))
  {
    StagedIsTemps(prepared);
  }

  lemma KeptBesides(e0: Entries, e: Entries, lost: set<Path>, staged: set<Path>, except: set<Path>)
    requires e - lost == e0 && lost !! e0.Keys && forall p :: p in lost ==> IsStaging(p)
    requires NoDirectory(e0, staged) && staged <= e0.Keys
    ensures NoDirectory(e, staged) && SameOutside(e0, e, except) && SameOutside(e0, e, {})
  {
    assert forall p :: p in e0 ==> p in e && e[p] == e0[p];
    forall p | !IsStaging(p) ensures Lookup(e, p) == Lookup(e0, p) {
      assert p !in lost;
      assert Lookup(e - lost, p) == Lookup(e, p);
    }
  }

  lemma FrontDests(moves: seq<Move>, snaps: seq<Snapshot>, k: nat)
    requires k <= |moves| == |snaps| && forall i :: 0 <= i < |snaps| ==> snaps[i].destination == moves[i].dest
    ensures DestinationsOf(snaps[..k]) == Dests(moves[..k]) <= Dests(moves)
  {
    var m, s := moves[..k], snaps[..k];
    assert forall i :: 0 <= i < k ==> m[i].dest == s[i].destination == moves[i].dest;
  }

  lemma SnapshotsOfDests(e1: Entries, moves: seq<Move>, snaps: seq<Snapshot>)
    requires Captured(e1, moves, snaps)
    ensures forall i :: 0 <= i < |snaps| ==> snaps[i].destination == moves[i].dest
  {
    forall i | 0 <= i < |snaps| ensures snaps[i].destination == moves[i].dest { assert Snapshots(e1, moves[i].dest, snaps[i]); }
  }

  lemma DestsAreNotStaging(e: Entries, moves: seq<Move>)
    requires Batch(e, moves)
    ensures forall p :: p in Dests(moves) ==> !IsStaging(p)
  {
  }

  /** The way back after `k` replacements. */
  method GiveUp(fs: FileSystem, prepared: seq<PreparedReplacement>, staged: seq<PreparedReplacement>, snaps: seq<Snapshot>, k: nat,
                ghost e0: Entries, ghost e1: Entries, ghost unsynced: set<Path>)
    returns (outcome: Outcome, ghost lost: set<Path>)
    requires AllStaged(prepared) && StagedAfter(prepared, staged, k)
    requires Batch(e0, MovesOf(prepared)) && Batch(e1, MovesOf(prepared)) && DistinctDests(MovesOf(prepared))
    requires |snaps| == |prepared| && Captured(e1, MovesOf(prepared), snaps)
    requires Backups(snaps) !! e0.Keys && e1 - Backups(snaps) == e0
    requires fs.entries == Published(e1, MovesOf(prepared)[..k])
    requires forall p :: p in fs.unsynced ==> p in unsynced || p in Dests(MovesOf(prepared)[..k])
    modifies fs
    ensures outcome.RolledBack? && outcome.restoreErrors + SyncFault(outcome.syncError) <= fs.faults - old(fs.faults)
    ensures fs.faults == old(fs.faults) ==> lost == {}
    ensures forall p :: p in lost ==> IsStaging(p)
    ensures !outcome.syncError ==> forall p :: p in fs.unsynced && p in Dests(MovesOf(prepared)) ==> p in unsynced
    ensures SameOutside(e0, fs.entries, Dests(MovesOf(prepared)))
    ensures outcome.restoreErrors == 0 ==> SameOutside(e0, fs.entries, {})
    ensures outcome.restoreErrors == 0 && NoAlias(e0, MovesOf(prepared)) ==> fs.entries - lost == e0 - Temps(MovesOf(prepared))
  {
    ghost var moves := MovesOf(prepared);
    BatchAfterCapture(e0, e1, moves, snaps);
    TempsSplit(prepared, staged, k);
    TempsAreStaging(e0, moves);
    DestsAreNotStaging(e0, moves);
    SnapshotsOfDests(e1, moves, snaps);
    FrontDests(moves, snaps, k);
    AbortIsPossible(e1, prepared, staged, snaps, k);
    hide Captured, NoAlias, Restorable, NoDirectory, SameOutside, Undoable, Batch, DistinctDests, Published, RestoredAll;
    outcome, lost := Abort(fs, snaps, staged, k);
    AfterAbort(e0, e1, prepared, staged, snaps, k, fs.entries, lost, outcome);
  }

  /** The part of `publish_all_with` after every destination was snapshotted. */
  method PublishCaptured(fs: FileSystem, prepared: seq<PreparedReplacement>, snaps: seq<Snapshot>, ghost e0: Entries)
    returns (outcome: Outcome, ghost lost: set<Path>)
    requires AllStaged(prepared) && Batch(e0, MovesOf(prepared)) && DistinctDests(MovesOf(prepared))
    requires |snaps| == |prepared| && Captured(fs.entries, MovesOf(prepared), snaps)
    requires Backups(snaps) !! e0.Keys && fs.entries - Backups(snaps) == e0
    modifies fs
    ensures forall p :: p in lost ==> IsStaging(p)
    ensures outcome.Done? || outcome.RolledBack?
    ensures fs.faults >= old(fs.faults)
    ensures fs.faults == old(fs.faults) ==> outcome.Done? && lost == {}
    ensures outcome.RolledBack? ==> outcome.restoreErrors + SyncFault(outcome.syncError) < fs.faults - old(fs.faults)
    ensures outcome.RolledBack? && fs.faults == old(fs.faults) + 1 ==> lost == {}
    ensures outcome.Done? ==> forall p :: p in fs.unsynced ==> p !in Dests(MovesOf(prepared))
    ensures outcome.RolledBack? && !outcome.syncError ==> forall p :: p in fs.unsynced && p in Dests(MovesOf(prepared)) ==> p in old(fs.unsynced)
    ensures SameOutside(e0, fs.entries, Dests(MovesOf(prepared)))
    ensures outcome.Done? ==> fs.entries - lost == Published(e0, MovesOf(prepared)) && lost !! e0.Keys
    ensures outcome.RolledBack? && outcome.restoreErrors == 0 ==> SameOutside(e0, fs.entries, {})
    ensures outcome.RolledBack? && outcome.restoreErrors == 0 && NoAlias(e0, MovesOf(prepared)) ==>
              fs.entries - lost == e0 - Temps(MovesOf(prepared))
  {
    hide Captured, NoAlias, Restorable, NoDirectory, SameOutside, Undoable, Batch, DistinctDests, IsStaging;
    ghost var moves, e1 := MovesOf(prepared), fs.entries;
    BatchAfterCapture(e0, e1, moves, snaps);
    StagedIsTemps(prepared);
    SnapshotsOfDests(e1, moves, snaps);
    BackupNamesAreStaging(e1, moves, snaps);
    DestsAreNotStaging(e0, moves);
    var staged := prepared;
    for i := 0 to |prepared|
      invariant StagedAfter(prepared, staged, i) && StillStaged(staged) <= Temps(moves)
      invariant fs.entries == Published(e1, moves[..i]) && fs.faults == old(fs.faults)
      invariant forall p :: p in fs.unsynced ==> p in old(fs.unsynced) || p in Dests(moves[..i])
    {
      NextCanRename(e1, moves, snaps, i);
      var ok := fs.ReplaceFile(staged[i].temporary.value, staged[i].destination);
      if !ok {
        outcome, lost := GiveUp(fs, prepared, staged, snaps, i, e0, e1, old(fs.unsynced));
        return;
      }
      staged := staged[i := staged[i].(temporary := None)];
      TempsSplit(prepared, staged, i + 1);
      assert moves[..i + 1][..i] == moves[..i];
      DestsStep(moves, i);
    }
    assert moves[..|prepared|] == moves;
    var dests := DestinationList(snaps);
    var synced := SyncDestinationDirectories(fs, dests);
    if !synced {
      outcome, lost := GiveUp(fs, prepared, staged, snaps, |prepared|, e0, e1, old(fs.unsynced));
      return;
    }
    BackupsAreFiles(e1, moves, snaps);
    lost := DropSnapshots(fs, snaps);
    AfterPublish(e0, e1, moves, snaps, fs.entries, lost);
    return Done, lost;
  }

  lemma DestsStep(moves: seq<Move>, i: nat)
    requires i < |moves|
    ensures Dests(moves[..i + 1]) == Dests(moves[..i]) + {moves[i].dest}
  {
    var longer, shorter := moves[..i + 1], moves[..i];
    forall p | p in Dests(longer) ensures p in Dests(shorter) || p == moves[i].dest {
      var k :| 0 <= k < |longer| && longer[k].dest == p;
      if k < i { assert shorter[k] == longer[k]; }
    }
    forall p | p in Dests(shorter) ensures p in Dests(longer) {
      var k :| 0 <= k < |shorter| && shorter[k].dest == p;
      assert longer[k] == shorter[k];
    }
    assert longer[i] == moves[i];
  }

  /** The next replacement's names look as captured, so only the environment can refuse it. */
  lemma NextCanRename(e1: Entries, moves: seq<Move>, snaps: seq<Snapshot>, i: nat)
    requires Batch(e1, moves) && DistinctDests(moves) && Captured(e1, moves, snaps) && i < |snaps| == |moves|
    ensures CanRename(Published(e1, moves[..i]), moves[i].temp, moves[i].dest)
  {
    assert Snapshots(e1, moves[i].dest, snaps[i]);
    assert IsStaging(moves[i].temp);
    PublishedElsewhere(e1, moves[..i], moves[i].temp);
    PublishedElsewhere(e1, moves[..i], moves[i].dest);
    var r := Published(e1, moves[..i]);
    assert Lookup(r, moves[i].temp) == Lookup(e1, moves[i].temp) && Lookup(r, moves[i].dest) == Lookup(e1, moves[i].dest);
  }

  lemma BackupsAreFiles(e1: Entries, moves: seq<Move>, snaps: seq<Snapshot>)
    requires Batch(e1, moves) && Captured(e1, moves, snaps) && |snaps| == |moves|
    ensures NoDirectory(Published(e1, moves), Backups(snaps))
  {
    forall p | p in Backups(snaps) && p in Published(e1, moves) ensures !Published(e1, moves)[p].Directory? {
      var i :| 0 <= i < |snaps| && snaps[i].previous.WasFile? && snaps[i].previous.backup == p;
      assert Snapshots(e1, moves[i].dest, snaps[i]);
      forall j | 0 <= j < |moves| ensures p != moves[j].temp && p != moves[j].dest { }
      PublishedElsewhere(e1, moves, p);
      assert Lookup(Published(e1, moves), p) == Lookup(e1, p);
    }
  }

  lemma StagedIsTemps(prepared: seq<PreparedReplacement>)
    requires AllStaged(prepared)
    ensures StillStaged(prepared) == Temps(MovesOf(prepared))
  {
    TempsSplit(prepared, prepared, 0);
    assert Temps(MovesOf(prepared)[..0]) == {};
  }

  lemma BatchAfterCapture(e0: Entries, e1: Entries, moves: seq<Move>, snaps: seq<Snapshot>)
    requires Batch(e0, moves) && Captured(e1, moves, snaps) && |snaps| == |moves|
    requires Backups(snaps) !! e0.Keys && e1 - Backups(snaps) == e0
    ensures Batch(e1, moves) && Undoable(snaps) && DestinationsOf(snaps) == Dests(moves)
  {
    forall i | 0 <= i < |snaps|
      ensures snaps[i].destination == moves[i].dest && (snaps[i].previous.WasFile? ==> IsStaging(snaps[i].previous.backup))
    {
      assert Snapshots(e1, moves[i].dest, snaps[i]);
    }
  }

  lemma AfterAbort(e0: Entries, e1: Entries, prepared: seq<PreparedReplacement>, staged: seq<PreparedReplacement>,
                   snaps: seq<Snapshot>, k: nat, r: Entries, lost: set<Path>, outcome: Outcome)
    requires AllStaged(prepared) && StagedAfter(prepared, staged, k)
    requires Batch(e0, MovesOf(prepared)) && Batch(e1, MovesOf(prepared)) && DistinctDests(MovesOf(prepared))
    requires |snaps| == |prepared| && Captured(e1, MovesOf(prepared), snaps)
    requires Backups(snaps) !! e0.Keys && e1 - Backups(snaps) == e0
    requires outcome.RolledBack?
    requires SameOutside(Published(e1, MovesOf(prepared)[..k]), r, Dests(MovesOf(prepared)))
    requires outcome.restoreErrors == 0 ==>
               && lost <= BackupsFrom(snaps, k) + StillStaged(staged)
               && r - lost == RestoredAll(Published(e1, MovesOf(prepared)[..k]), snaps[..k])
                              - (BackupsFrom(snaps, k) + StillStaged(staged)) - lost
    ensures SameOutside(e0, r, Dests(MovesOf(prepared)))
    ensures outcome.restoreErrors == 0 ==> SameOutside(e0, r, {})
    ensures outcome.restoreErrors == 0 && NoAlias(e0, MovesOf(prepared)) ==> r - lost == e0 - Temps(MovesOf(prepared))
  {
    var moves := MovesOf(prepared);
    if outcome.restoreErrors == 0 { AbortRestoresEverything(e0, e1, prepared, staged, snaps, k, r, lost); }
    PublishedOutside(e0, e1, moves, snaps, k);
  }

  lemma PublishedOutside(e0: Entries, e1: Entries, moves: seq<Move>, snaps: seq<Snapshot>, k: nat)
    requires Batch(e0, moves) && k <= |moves| && Captured(e1, moves, snaps)
    requires Backups(snaps) !! e0.Keys && e1 - Backups(snaps) == e0
    ensures SameOutside(e0, Published(e1, moves[..k]), Dests(moves))
  {
    BackupNamesAreStaging(e1, moves, snaps);
    forall p | !IsStaging(p) && p !in Dests(moves) ensures Lookup(Published(e1, moves[..k]), p) == Lookup(e0, p) {
      forall i | 0 <= i < k ensures p != moves[..k][i].temp && p != moves[..k][i].dest {
        assert moves[i].dest in Dests(moves);
        assert IsStaging(moves[i].temp);
      }
      PublishedElsewhere(e1, moves[..k], p);
      assert p !in Backups(snaps);
    }
  }

  lemma AfterPublish(e0: Entries, e1: Entries, moves: seq<Move>, snaps: seq<Snapshot>, r: Entries, lost: set<Path>)
    requires Batch(e0, moves) && Captured(e1, moves, snaps) && |snaps| == |moves|
    requires Backups(snaps) !! e0.Keys && e1 - Backups(snaps) == e0
    requires lost <= Backups(snaps) && r == Published(e1, moves) - (Backups(snaps) - lost)
    ensures r - lost == Published(e0, moves)
    ensures SameOutside(e0, r, Dests(moves))
    ensures forall p :: p in lost ==> IsStaging(p)
  {
    BackupNamesAreStaging(e1, moves, snaps);
    forall i | 0 <= i < |moves| ensures moves[i].temp !in Backups(snaps) && moves[i].dest !in Backups(snaps) {
      assert IsStaging(moves[i].temp) && !IsStaging(moves[i].dest);
    }
    PublishIgnores(e1, moves, Backups(snaps));
    PublishedOutside(e0, e1, moves, snaps, |moves|);
    assert moves[..|moves|] == moves;
  }

  // ---------------------------------------------------------------- the whole staging call

  /** A resolved source file and the destination that is to become a hard link of it. */
  datatype Item = Item(source: Path, destination: Path)

  /** A regular source, and a destination that is not a directory. */
  predicate Stageable(e: Entries, item: Item) {
    item.source in e && e[item.source].File? && (item.destination in e ==> !e[item.destination].Directory?)
  }

  /** `prepare_real_hard_link`, after `canonicalize`. */
  method PrepareHardLink(fs: FileSystem, item: Item) returns (r: Option<PreparedReplacement>)
    modifies fs
    ensures fs.faults >= old(fs.faults) && fs.unsynced == old(fs.unsynced) && (r.Some? ==> fs.faults == old(fs.faults))
    ensures r.None? && fs.faults == old(fs.faults) ==> !Stageable(fs.entries, item)
    ensures r.None? ==> fs.entries == old(fs.entries)
    ensures r.Some? ==> Stageable(old(fs.entries), item)
    ensures r.Some? ==>
              && r.value.destination == item.destination && r.value.temporary.Some?
              && IsStaging(r.value.temporary.value) && r.value.temporary.value !in old(fs.entries)
              && item.source in old(fs.entries) && old(fs.entries)[item.source].File?
              && fs.entries == old(fs.entries)[r.value.temporary.value := old(fs.entries)[item.source]]
  {
    if item.source !in fs.entries || !fs.entries[item.source].File? { return None; }
    if item.destination in fs.entries && fs.entries[item.destination].Directory? { return None; }
    var temporary := fs.CreateUniqueHardLink(item.source, item.destination);
    if temporary.None? { return None; }
    return Some(PreparedReplacement(temporary, item.destination));
  }

  ghost predicate PlainItems(items: seq<Item>) {
    forall i :: 0 <= i < |items| ==> !IsStaging(items[i].source) && !IsStaging(items[i].destination)
  }

  /** The first items prepared: fresh staged links of their sources. */
  ghost predicate PreparedFor(e0: Entries, e: Entries, items: seq<Item>, prepared: seq<PreparedReplacement>) {
    && |prepared| <= |items| && AllStaged(prepared)
    && Batch(e, MovesOf(prepared))
    && StillStaged(prepared) !! e0.Keys && e - StillStaged(prepared) == e0
    && forall i :: 0 <= i < |prepared| ==>
         && prepared[i].destination == items[i].destination
         && items[i].source in e0 && e0[items[i].source].File?
         && e[prepared[i].temporary.value] == e0[items[i].source]
  }

  /** One more staged link makes a longer batch. */
  lemma BatchGrows(e: Entries, r: Entries, prepared: seq<PreparedReplacement>, p: PreparedReplacement)
    requires AllStaged(prepared) && Batch(e, MovesOf(prepared))
    requires p.temporary.Some? && IsStaging(p.temporary.value) && p.temporary.value !in e && !IsStaging(p.destination)
    requires p.temporary.value in r && r[p.temporary.value].File? && r == e[p.temporary.value := r[p.temporary.value]]
    ensures AllStaged(prepared + [p]) && Batch(r, MovesOf(prepared + [p]))
  {
    var longer := prepared + [p];
    var moves, more := MovesOf(prepared), MovesOf(longer);
    forall i | 0 <= i < |prepared| ensures more[i] == moves[i] && moves[i].temp in e {
      assert longer[i] == prepared[i];
    }
  }

  lemma StagedGrows(e0: Entries, e: Entries, r: Entries, prepared: seq<PreparedReplacement>, p: PreparedReplacement)
    requires StillStaged(prepared) !! e0.Keys && e - StillStaged(prepared) == e0
    requires p.temporary.Some? && p.temporary.value !in e && p.temporary.value in r && r == e[p.temporary.value := r[p.temporary.value]]
    ensures StillStaged(prepared + [p]) !! e0.Keys && r - StillStaged(prepared + [p]) == e0
  {
    var longer := prepared + [p];
    StagedStep(longer, |prepared|);
    assert longer[..|prepared|] == prepared && longer[..|longer|] == longer;
    assert StillStaged(longer) == StillStaged(prepared) + {p.temporary.value};
  }

  lemma PreparedGrows(e0: Entries, e: Entries, r: Entries, items: seq<Item>, prepared: seq<PreparedReplacement>, p: PreparedReplacement)
    requires PlainItems(items) && PreparedFor(e0, e, items, prepared) && |prepared| < |items|
    requires var item := items[|prepared|];
             && p.destination == item.destination && p.temporary.Some? && IsStaging(p.temporary.value)
             && p.temporary.value !in e && item.source in e && e[item.source].File?
             && r == e[p.temporary.value := e[item.source]]
    ensures PreparedFor(e0, r, items, prepared + [p])
  {
    BatchGrows(e, r, prepared, p);
    StagedGrows(e0, e, r, prepared, p);
    SourceIsOld(e0, e, items, prepared, |prepared|);
    hide Batch, StillStaged, IsStaging, MovesOf, PlainItems;
    forall i | 0 <= i < |prepared| ensures (prepared + [p])[i] == prepared[i] && prepared[i].temporary.value != p.temporary.value {
      StagedIsThere(e, prepared, i);
    }
  }

  lemma StagedIsThere(e: Entries, prepared: seq<PreparedReplacement>, i: nat)
    requires AllStaged(prepared) && Batch(e, MovesOf(prepared)) && i < |prepared|
    ensures prepared[i].temporary.value in e
  {
    assert MovesOf(prepared)[i].temp in e;
  }

  lemma SourceIsOld(e0: Entries, e: Entries, items: seq<Item>, prepared: seq<PreparedReplacement>, i: nat)
    requires PlainItems(items) && PreparedFor(e0, e, items, prepared) && i < |items| && items[i].source in e
    ensures items[i].source in e0 && e0[items[i].source] == e[items[i].source]
  {
    TempsAreStaging(e, MovesOf(prepared));
    StagedIsTemps(prepared);
    assert items[i].source !in StillStaged(prepared);
  }

  ghost predicate NoSharedInode(e: Entries, items: seq<Item>) {
    forall i :: 0 <= i < |items| && items[i].source in e ==> Lookup(e, items[i].destination) != Some(e[items[i].source])
  }

  ghost predicate Acceptable(e: Entries, items: seq<Item>) {
    && (forall i :: 0 <= i < |items| ==> Stageable(e, items[i]))
    && forall i, j :: 0 <= i < j < |items| ==> items[i].destination != items[j].destination
  }

  /** No staging name of this call stays, except what best-effort cleanup could not remove. */
  ghost predicate NothingStagedLeft(e: Entries, r: Entries, lost: set<Path>) {
    forall p :: IsStaging(p) && p !in lost ==> Lookup(r, p) == Lookup(e, p)
  }

  lemma StageableAsBefore(e0: Entries, e: Entries, items: seq<Item>, prepared: seq<PreparedReplacement>, i: nat)
    requires PlainItems(items) && PreparedFor(e0, e, items, prepared) && i < |items|
    ensures Stageable(e, items[i]) <==> Stageable(e0, items[i])
  {
    StagedIsTemps(prepared);
    TempsAreStaging(e, MovesOf(prepared));
    assert items[i].source !in StillStaged(prepared) && items[i].destination !in StillStaged(prepared);
  }

  lemma AcceptableBatch(e0: Entries, e: Entries, items: seq<Item>, prepared: seq<PreparedReplacement>)
    requires PlainItems(items) && PreparedFor(e0, e, items, prepared) && |prepared| == |items|
    requires forall j :: 0 <= j < |items| ==> Stageable(e0, items[j])
    ensures NoDirectory(e, Dests(MovesOf(prepared)))
    ensures DistinctDests(MovesOf(prepared)) <==> Acceptable(e0, items)
  {
    var moves := MovesOf(prepared);
    forall p | p in Dests(moves) && p in e ensures !e[p].Directory? {
      var i :| 0 <= i < |moves| && moves[i].dest == p;
      StageableAsBefore(e0, e, items, prepared, i);
      assert Stageable(e, items[i]);
    }
    forall i | 0 <= i < |items| ensures moves[i].dest == items[i].destination { }
  }

  lemma PreparedDropped(e0: Entries, e: Entries, items: seq<Item>, prepared: seq<PreparedReplacement>, lost: set<Path>, r: Entries)
    requires PreparedFor(e0, e, items, prepared) && lost <= StillStaged(prepared) && r == e - (StillStaged(prepared) - lost)
    ensures forall p :: p in lost ==> IsStaging(p)
    ensures SameOutside(e0, r, {}) && NothingStagedLeft(e0, r, lost) && (lost == {} ==> r == e0)
  {
    StagedIsTemps(prepared);
    TempsAreStaging(e, MovesOf(prepared));
    assert lost == {} ==> StillStaged(prepared) - lost == StillStaged(prepared);
    assert r - lost == e - StillStaged(prepared);
    forall p | p !in lost ensures Lookup(r, p) == Lookup(e0, p) {
      assert Lookup(r, p) == Lookup(r - lost, p);
    }
  }

  /** The staged links of all items; after a failure they are dropped again. */
  method PrepareAll(fs: FileSystem, items: seq<Item>) returns (prepared: Option<seq<PreparedReplacement>>, ghost lost: set<Path>)
    requires PlainItems(items)
    modifies fs
    ensures fs.faults >= old(fs.faults)
    ensures prepared.Some? ==>
      && fs.faults == old(fs.faults) && |prepared.value| == |items|
      && PreparedFor(old(fs.entries), fs.entries, items, prepared.value) && forall j :: 0 <= j < |items| ==> Stageable(old(fs.entries), items[j])
    ensures prepared.None? ==>
      && (forall p :: p in lost ==> IsStaging(p))
      && SameOutside(old(fs.entries), fs.entries, {}) && NothingStagedLeft(old(fs.entries), fs.entries, lost)
    ensures prepared.None? && fs.faults == old(fs.faults) ==> exists j :: 0 <= j < |items| && !Stageable(old(fs.entries), items[j])
    ensures prepared.None? && fs.faults == old(fs.faults) + 1 && (forall j :: 0 <= j < |items| ==> Stageable(old(fs.entries), items[j])) ==>
      fs.entries == old(fs.entries)
  {
    ghost var e0 := fs.entries;
    var done: seq<PreparedReplacement> := [];
    lost := {};
    for i := 0 to |items|
      invariant |done| == i && PreparedFor(e0, fs.entries, items, done) && fs.faults == old(fs.faults) && lost == {}
      invariant forall j :: 0 <= j < i ==> Stageable(e0, items[j])
    {
      ghost var e := fs.entries;
      StageableAsBefore(e0, e, items, done, i);
      var p := PrepareHardLink(fs, items[i]);
      if p.None? {
        StagedAreFiles(e, done);
        lost := DropPrepared(fs, done);
        PreparedDropped(e0, e, items, done, lost, fs.entries);
        return None, lost;
      }
      PreparedGrows(e0, e, fs.entries, items, done, p.value);
      done := done + [p.value];
    }
    return Some(done), {};
  }

  /** `stage_linux_shared_libraries` from resolved sources on: all destinations become their sources' inodes, or everything
      is as before; after a success a staging name stays exactly when some source already was its destination's inode. */
  method StageSharedLibraries(fs: FileSystem, items: seq<Item>) returns (outcome: Outcome, ghost lost: set<Path>)
    requires PlainItems(items)
    modifies fs
    ensures fs.faults >= old(fs.faults)
    ensures fs.faults == old(fs.faults) ==> (outcome.Done? <==> Acceptable(old(fs.entries), items))
    ensures forall p :: p in lost ==> IsStaging(p)
    ensures SameOutside(old(fs.entries), fs.entries, set i | 0 <= i < |items| :: items[i].destination)
    ensures outcome.Done? ==> forall i :: 0 <= i < |items| ==>
              items[i].source in old(fs.entries) && Lookup(fs.entries, items[i].destination) == Some(old(fs.entries)[items[i].source])
    ensures !outcome.Done? && (outcome.RolledBack? ==> outcome.restoreErrors == 0) ==> SameOutside(old(fs.entries), fs.entries, {})
    ensures NoSharedInode(old(fs.entries), items) && (outcome.RolledBack? ==> outcome.restoreErrors == 0) ==>
              NothingStagedLeft(old(fs.entries), fs.entries, lost)
    ensures outcome.Done? ==> (NothingStagedLeft(old(fs.entries), fs.entries, lost) <==> NoSharedInode(old(fs.entries), items))
    ensures outcome.Done? ==> forall i :: 0 <= i < |items| ==> items[i].destination !in fs.unsynced
    ensures !outcome.Done? && fs.faults == old(fs.faults) + 1 && Acceptable(old(fs.entries), items) && NoSharedInode(old(fs.entries), items) ==>
              fs.entries == old(fs.entries)
  {
    hide Batch, NoAlias, DistinctDests, NoDirectory, Published;
    ghost var e0 := fs.entries;
    var all;
    all, lost := PrepareAll(fs, items);
    if all.None? {
      SameOutsideMore(e0, fs.entries, set i | 0 <= i < |items| :: items[i].destination);
      return NotCaptured, lost;
    }
    var prepared := all.value;
    ghost var e := fs.entries;
    AcceptableBatch(e0, e, items, prepared);
    hide SameOutside, NothingStagedLeft, NoSharedInode, Acceptable;
    outcome, lost := PublishAll(fs, prepared);
    StagedOutcome(e0, e, fs.entries, items, prepared, outcome, lost);
    OneFailureUndone(e0, e, fs.entries, items, prepared, lost);
    DestsAreItems(items, prepared);
    if outcome.Done? && !NoSharedInode(e0, items) {
      SharedInodeLeavesSomething(e0, e, fs.entries, items, prepared, lost);
    }
  }

  lemma SameOutsideMore(e: Entries, r: Entries, except: set<Path>)
    requires SameOutside(e, r, {})
    ensures SameOutside(e, r, except)
  {
  }

  lemma SharedInodeLeavesSomething(e0: Entries, e: Entries, r: Entries, items: seq<Item>, prepared: seq<PreparedReplacement>, lost: set<Path>)
    requires PlainItems(items) && PreparedFor(e0, e, items, prepared) && |prepared| == |items| && !NoSharedInode(e0, items)
    requires DistinctDests(MovesOf(prepared)) && r - lost == Published(e, MovesOf(prepared)) && lost !! e.Keys
    ensures !NothingStagedLeft(e0, r, lost)
  {
    var i :| 0 <= i < |items| && items[i].source in e0 && Lookup(e0, items[i].destination) == Some(e0[items[i].source]);
    SharedInodeLeavesItsTemporary(e0, e, r, items, prepared, lost, i);
  }

  lemma OneFailureUndone(e0: Entries, e: Entries, r: Entries, items: seq<Item>, prepared: seq<PreparedReplacement>, lost: set<Path>)
    requires PlainItems(items) && PreparedFor(e0, e, items, prepared) && |prepared| == |items|
    ensures NoSharedInode(e0, items) ==> NoAlias(e, MovesOf(prepared))
    ensures r - lost == e - Temps(MovesOf(prepared)) && lost == {} ==> r == e0
  {
    StagedIsTemps(prepared);
    if NoSharedInode(e0, items) { NoSharedInodeNoAlias(e0, e, items, prepared); }
    assert r - {} == r;
  }

  lemma StagedOutcome(e0: Entries, e: Entries, r: Entries, items: seq<Item>, prepared: seq<PreparedReplacement>, outcome: Outcome, lost: set<Path>)
    requires PlainItems(items) && PreparedFor(e0, e, items, prepared) && |prepared| == |items|
    requires forall p :: p in lost ==> IsStaging(p)
    requires SameOutside(e, r, Dests(MovesOf(prepared)))
    requires outcome.Done? ==> DistinctDests(MovesOf(prepared)) && r - lost == Published(e, MovesOf(prepared))
    requires outcome.DuplicateDestination? || outcome.NotCaptured? ==> r - lost == e - Temps(MovesOf(prepared))
    requires !outcome.Done? && (outcome.RolledBack? ==> outcome.restoreErrors == 0) ==> SameOutside(e, r, {})
    requires outcome.RolledBack? && outcome.restoreErrors == 0 && NoAlias(e, MovesOf(prepared)) ==> r - lost == e - Temps(MovesOf(prepared))
    ensures SameOutside(e0, r, set i | 0 <= i < |items| :: items[i].destination)
    ensures outcome.Done? ==> forall i :: 0 <= i < |items| ==>
              items[i].source in e0 && Lookup(r, items[i].destination) == Some(e0[items[i].source])
    ensures !outcome.Done? && (outcome.RolledBack? ==> outcome.restoreErrors == 0) ==> SameOutside(e0, r, {})
    ensures NoSharedInode(e0, items) && (outcome.RolledBack? ==> outcome.restoreErrors == 0) ==> NothingStagedLeft(e0, r, lost)
  {
    var moves := MovesOf(prepared);
    SameBefore(e0, e, items, prepared);
    DestsAreItems(items, prepared);
    OutsideToo(e0, e, r, Dests(moves));
    OutsideToo(e0, e, r, {});
    if outcome.Done? { ItemsArrived(e0, e, r, items, prepared, lost); }
    if NoSharedInode(e0, items) && (outcome.RolledBack? ==> outcome.restoreErrors == 0) {
      NoSharedInodeNoAlias(e0, e, items, prepared);
      LeftoversGone(e0, e, r, items, prepared, outcome.Done?, lost);
    }
  }

  /** Preparing changed nothing outside the staging names. */
  lemma SameBefore(e0: Entries, e: Entries, items: seq<Item>, prepared: seq<PreparedReplacement>)
    requires PreparedFor(e0, e, items, prepared)
    ensures SameOutside(e0, e, {})
  {
    StagedIsTemps(prepared);
    TempsAreStaging(e, MovesOf(prepared));
    forall p | !IsStaging(p) ensures Lookup(e, p) == Lookup(e0, p) { assert p !in StillStaged(prepared); }
  }

  lemma OutsideToo(e0: Entries, e: Entries, r: Entries, except: set<Path>)
    requires SameOutside(e0, e, {})
    ensures SameOutside(e, r, except) ==> SameOutside(e0, r, except)
  {
  }

  lemma ItemsArrived(e0: Entries, e: Entries, r: Entries, items: seq<Item>, prepared: seq<PreparedReplacement>, lost: set<Path>)
    requires PlainItems(items) && PreparedFor(e0, e, items, prepared) && |prepared| == |items|
    requires DistinctDests(MovesOf(prepared)) && r - lost == Published(e, MovesOf(prepared))
    requires forall p :: p in lost ==> IsStaging(p)
    ensures forall i :: 0 <= i < |items| ==>
              items[i].source in e0 && Lookup(r, items[i].destination) == Some(e0[items[i].source])
  {
    var moves := MovesOf(prepared);
    forall i | 0 <= i < |items|
      ensures items[i].source in e0 && Lookup(r, items[i].destination) == Some(e0[items[i].source])
    {
      PublishedAt(e, moves, i);
      assert Lookup(r - lost, items[i].destination) == Lookup(r, items[i].destination);
    }
  }

  lemma NoSharedInodeNoAlias(e0: Entries, e: Entries, items: seq<Item>, prepared: seq<PreparedReplacement>)
    requires PlainItems(items) && PreparedFor(e0, e, items, prepared) && |prepared| == |items| && NoSharedInode(e0, items)
    ensures NoAlias(e, MovesOf(prepared))
  {
    var moves := MovesOf(prepared);
    SameBefore(e0, e, items, prepared);
    forall i | 0 <= i < |moves| ensures !Aliased(e, moves[i]) {
      assert moves[i].dest == items[i].destination && moves[i].temp != moves[i].dest;
      assert Lookup(e, moves[i].dest) == Lookup(e0, moves[i].dest);
    }
  }

  lemma LeftoversGone(e0: Entries, e: Entries, r: Entries, items: seq<Item>, prepared: seq<PreparedReplacement>, done: bool, lost: set<Path>)
    requires PreparedFor(e0, e, items, prepared) && NoAlias(e, MovesOf(prepared)) && (done ==> DistinctDests(MovesOf(prepared)))
    requires r - lost == if done then Published(e, MovesOf(prepared)) else e - Temps(MovesOf(prepared))
    ensures NothingStagedLeft(e0, r, lost)
  {
    StagedIsTemps(prepared);
    forall p | IsStaging(p) && p !in lost ensures Lookup(r, p) == Lookup(e0, p) {
      assert Lookup(r, p) == Lookup(r - lost, p);
      StagingLookup(e0, e, MovesOf(prepared), done, p);
    }
  }

  lemma DestsAreItems(items: seq<Item>, prepared: seq<PreparedReplacement>)
    requires AllStaged(prepared) && |prepared| == |items|
    requires forall i :: 0 <= i < |prepared| ==> prepared[i].destination == items[i].destination
    ensures Dests(MovesOf(prepared)) == set i | 0 <= i < |items| :: items[i].destination
  {
    var moves := MovesOf(prepared);
    forall i | 0 <= i < |items| ensures moves[i].dest == items[i].destination { }
  }

  /** With no alias in the batch, publishing clears every staged name, just as dropping does. */
  lemma StagingLookup(e0: Entries, e: Entries, moves: seq<Move>, done: bool, p: Path)
    requires Batch(e, moves) && (done ==> DistinctDests(moves))
    requires NoAlias(e, moves) && IsStaging(p)
    requires Temps(moves) !! e0.Keys && e - Temps(moves) == e0
    ensures Lookup(if done then Published(e, moves) else e - Temps(moves), p) == Lookup(e0, p)
  {
    if done {
      if p in Temps(moves) {
        var i :| 0 <= i < |moves| && moves[i].temp == p;
        PublishedAt(e, moves, i);
      } else {
        assert Elsewhere(moves, p) by {
          forall i | 0 <= i < |moves| ensures p != moves[i].temp && p != moves[i].dest {
            assert moves[i].temp in Temps(moves);
          }
        }
        PublishedElsewhere(e, moves, p);
      }
    }
  }

  /** Staging a library over itself: the rename finds two names of one inode and does nothing, and the staged name,
      already forgotten by its owner, stays in the directory. */
  lemma SharedInodeLeavesItsTemporary(e0: Entries, e: Entries, r: Entries, items: seq<Item>, prepared: seq<PreparedReplacement>,
                                      lost: set<Path>, i: nat)
    requires PlainItems(items) && PreparedFor(e0, e, items, prepared) && |prepared| == |items| && i < |items|
    requires DistinctDests(MovesOf(prepared)) && r - lost == Published(e, MovesOf(prepared)) && lost !! e.Keys
    requires Lookup(e0, items[i].destination) == Some(e0[items[i].source])
    ensures var p := prepared[i].temporary.value; IsStaging(p) && p !in lost && Lookup(r, p) != Lookup(e0, p)
  {
    var moves := MovesOf(prepared);
    PublishedAt(e, moves, i);
    StagedIsTemps(prepared);
    assert moves[i].temp in Temps(moves) && moves[i].temp in e;
    assert Lookup(r, moves[i].temp) == Lookup(r - lost, moves[i].temp);
  }

  const LIBRARY := Path("target", "libllama.so")
  const DEPS_LIBRARY := Path("target/deps", "libllama.so")
  const STAGED_LIBRARY := StagingPath(DEPS_LIBRARY, 7, 0)
  const LINKED: Entries := map[LIBRARY := File(1), DEPS_LIBRARY := File(1)]
  const LINKED_AND_STAGED: Entries := LINKED[STAGED_LIBRARY := File(1)]

  /** One library, already linked into its destination: preparing it and publishing it leaves the staged link. */
  lemma StagingOneLibraryTwice()
    ensures var prepared := [PreparedReplacement(Some(STAGED_LIBRARY), DEPS_LIBRARY)];
      && PreparedFor(LINKED, LINKED_AND_STAGED, [Item(LIBRARY, DEPS_LIBRARY)], prepared)
      && Published(LINKED_AND_STAGED, MovesOf(prepared)) == LINKED_AND_STAGED
      && IsStaging(STAGED_LIBRARY) && STAGED_LIBRARY !in LINKED && STAGED_LIBRARY in LINKED_AND_STAGED
  {
    var item, p := Item(LIBRARY, DEPS_LIBRARY), PreparedReplacement(Some(STAGED_LIBRARY), DEPS_LIBRARY);
    PlainLibraryNames();
    assert PreparedFor(LINKED, LINKED, [item], []) by {
      assert StillStaged([]) == {};
    }
    PreparedGrows(LINKED, LINKED, LINKED_AND_STAGED, [item], [], p);
    assert [] + [p] == [p];
    assert MovesOf([p])[..0] == [];
    assert Published(LINKED_AND_STAGED, []) == LINKED_AND_STAGED;
  }

  lemma PlainLibraryNames()
    ensures IsStaging(STAGED_LIBRARY) && STAGED_LIBRARY !in LINKED && !IsStaging(LIBRARY) && !IsStaging(DEPS_LIBRARY)
  {
    assert STAGED_LIBRARY == StagingPath(DEPS_LIBRARY, 7, 0);
    assert STAGED_LIBRARY.name[0] == '.' && "libllama.so"[0] == 'l';
    forall d: Path, pid: nat, counter: nat
      ensures StagingPath(d, pid, counter).name[0] == '.'
    {
    }
  }
}

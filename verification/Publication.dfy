/** What publishing a batch and undoing it do to the directories, as functions. */
module Publication {
  import opened Options
  import opened PosixDirectory

  /** A staged file and the destination it is to replace. */
  datatype Move = Move(temp: Path, dest: Path)

  datatype PreviousDestination = WasAbsent | WasFile(backup: Path) | WasSymlink(target: string)

  datatype Snapshot = Snapshot(destination: Path, previous: PreviousDestination)

  // ---------------------------------------------------------------- batches

  ghost predicate Distinct(paths: seq<Path>) {
    forall i, j :: 0 <= i < j < |paths| ==> paths[i] != paths[j]
  }

  ghost predicate Batch(e: Entries, moves: seq<Move>) {
    && (forall i :: 0 <= i < |moves| ==> moves[i].temp in e && e[moves[i].temp].File? && IsStaging(moves[i].temp))
    && (forall i :: 0 <= i < |moves| ==> !IsStaging(moves[i].dest))
    && (forall i, j :: 0 <= i < j < |moves| ==> moves[i].temp != moves[j].temp)
  }

  ghost predicate DistinctDests(moves: seq<Move>) {
    forall i, j :: 0 <= i < j < |moves| ==> moves[i].dest != moves[j].dest
  }

  /** The staged name and the destination already name one inode, so renaming does nothing. */
  predicate Aliased(e: Entries, m: Move) {
    SameFile(e, m.temp, m.dest)
  }

  ghost predicate NoAlias(e: Entries, moves: seq<Move>) {
    forall i :: 0 <= i < |moves| ==> !Aliased(e, moves[i])
  }

  function Temps(moves: seq<Move>): set<Path> {
    set i | 0 <= i < |moves| :: moves[i].temp
  }

  // ---------------------------------------------------------------- publishing

  function Published(e: Entries, moves: seq<Move>): Entries
    decreases |moves|
  {
    if moves == [] then e
    else
      var m := moves[|moves| - 1];
      Renamed(Published(e, moves[..|moves| - 1]), m.temp, m.dest)
  }

  lemma RenameLeaves(e: Entries, m: Move, p: Path)
    requires p != m.temp && p != m.dest
    ensures Lookup(Renamed(e, m.temp, m.dest), p) == Lookup(e, p)
  {
  }

  ghost predicate Elsewhere(moves: seq<Move>, p: Path) {
    forall i :: 0 <= i < |moves| ==> p != moves[i].temp && p != moves[i].dest
  }

  lemma {:induction false} PublishedElsewhere(e: Entries, moves: seq<Move>, p: Path)
    requires Elsewhere(moves, p)
    ensures Lookup(Published(e, moves), p) == Lookup(e, p)
    decreases |moves|
  {
    if moves != [] {
      PublishedElsewhere(e, moves[..|moves| - 1], p);
    }
  }

  lemma BatchFront(e: Entries, moves: seq<Move>, i: nat)
    requires Batch(e, moves) && DistinctDests(moves) && i < |moves| - 1
    ensures var n := |moves| - 1;
            && Batch(e, moves[..n]) && DistinctDests(moves[..n]) && moves[..n][i] == moves[i]
            && moves[i].temp != moves[n].temp && moves[i].temp != moves[n].dest
            && moves[i].dest != moves[n].temp && moves[i].dest != moves[n].dest
  {
    assert IsStaging(moves[i].temp) && IsStaging(moves[|moves| - 1].temp);
  }

  lemma PublishedLast(e: Entries, moves: seq<Move>)
    requires Batch(e, moves) && DistinctDests(moves) && moves != []
    ensures var m := moves[|moves| - 1];
            && Lookup(Published(e, moves), m.dest) == Some(e[m.temp])
            && Lookup(Published(e, moves), m.temp) == if Aliased(e, m) then Some(e[m.temp]) else None
  {
    var n := |moves| - 1;
    PublishedElsewhere(e, moves[..n], moves[n].temp);
    PublishedElsewhere(e, moves[..n], moves[n].dest);
  }

  /** A published destination names its staged inode; the staged name survives exactly when it was already
      another name of the destination's inode. */
  lemma {:induction false} PublishedAt(e: Entries, moves: seq<Move>, i: nat)
    requires Batch(e, moves) && DistinctDests(moves) && i < |moves|
    ensures Lookup(Published(e, moves), moves[i].dest) == Some(e[moves[i].temp])
    ensures Lookup(Published(e, moves), moves[i].temp) == if Aliased(e, moves[i]) then Some(e[moves[i].temp]) else None
    decreases |moves|
  {
    var n := |moves| - 1;
    if i < n {
      BatchFront(e, moves, i);
      PublishedAt(e, moves[..n], i);
      RenameLeaves(Published(e, moves[..n]), moves[n], moves[i].temp);
      RenameLeaves(Published(e, moves[..n]), moves[n], moves[i].dest);
    } else {
      PublishedLast(e, moves);
    }
  }

  // ---------------------------------------------------------------- undoing

  function Restored(e: Entries, s: Snapshot): Entries {
    match s.previous
    case WasAbsent => e - {s.destination}
    case WasFile(backup) => Renamed(e, backup, s.destination)
    case WasSymlink(target) => e[s.destination := Symlink(target)]
  }

  /** Restoring every snapshot, the last published first. */
  function RestoredAll(e: Entries, snaps: seq<Snapshot>): Entries
    decreases |snaps|
  {
    if snaps == [] then e else RestoredAll(Restored(e, snaps[|snaps| - 1]), snaps[..|snaps| - 1])
  }

  function BackupOf(s: Snapshot): set<Path> {
    if s.previous.WasFile? then {s.previous.backup} else {}
  }

  function Backups(snaps: seq<Snapshot>): set<Path> {
    set i | 0 <= i < |snaps| && snaps[i].previous.WasFile? :: snaps[i].previous.backup
  }

  /** The snapshot says what `e` holds at its destination. */
  ghost predicate Snapshots(e: Entries, dest: Path, s: Snapshot) {
    && s.destination == dest
    && match s.previous
       case WasAbsent => dest !in e
       case WasSymlink(target) => Lookup(e, dest) == Some(Symlink(target))
       case WasFile(backup) => dest in e && e[dest].File? && backup in e && e[backup] == e[dest] && IsStaging(backup)
  }

  /** No backup is a staged file of the batch or another backup. */
  ghost predicate OwnBackups(moves: seq<Move>, snaps: seq<Snapshot>) {
    && (forall i, j :: 0 <= i < |snaps| && 0 <= j < |moves| && snaps[i].previous.WasFile? ==> snaps[i].previous.backup != moves[j].temp)
    && (forall i, j :: 0 <= i < j < |snaps| && snaps[i].previous.WasFile? && snaps[j].previous.WasFile? ==>
          snaps[i].previous.backup != snaps[j].previous.backup)
  }

  ghost predicate Captured(e: Entries, moves: seq<Move>, snaps: seq<Snapshot>) {
    && |snaps| <= |moves|
    && (forall i :: 0 <= i < |snaps| ==> Snapshots(e, moves[i].dest, snaps[i]))
    && OwnBackups(moves, snaps)
  }

  /** The names a published and restored move uses up: none if staged file and destination were one inode. */
  function Consumed(e: Entries, m: Move, s: Snapshot): set<Path> {
    if Aliased(e, m) then {} else {m.temp} + BackupOf(s)
  }

  function AllConsumed(e: Entries, moves: seq<Move>, snaps: seq<Snapshot>): set<Path>
    requires |moves| == |snaps|
    decreases |moves|
  {
    if moves == [] then {}
    else
      var n := |moves| - 1;
      AllConsumed(e, moves[..n], snaps[..n]) + Consumed(e, moves[n], snaps[n])
  }

  /** One restore undoes one publication exactly. */
  lemma UndoOne(e: Entries, m: Move, s: Snapshot)
    requires m.temp in e && e[m.temp].File? && IsStaging(m.temp) && !IsStaging(m.dest)
    requires Snapshots(e, m.dest, s) && (s.previous.WasFile? ==> s.previous.backup != m.temp)
    ensures Restored(Renamed(e, m.temp, m.dest), s) == e - Consumed(e, m, s)
  {
  }

  ghost predicate Avoids(moves: seq<Move>, gone: set<Path>) {
    forall i :: 0 <= i < |moves| ==> moves[i].temp !in gone && moves[i].dest !in gone
  }

  lemma {:induction false} PublishIgnores(e: Entries, moves: seq<Move>, gone: set<Path>)
    requires Avoids(moves, gone)
    ensures Published(e - gone, moves) == Published(e, moves) - gone
    decreases |moves|
  {
    if moves != [] {
      PublishIgnores(e, moves[..|moves| - 1], gone);
    }
  }

  lemma {:induction false} ConsumedIgnores(e: Entries, moves: seq<Move>, snaps: seq<Snapshot>, gone: set<Path>)
    requires Avoids(moves, gone) && |moves| == |snaps|
    ensures AllConsumed(e - gone, moves, snaps) == AllConsumed(e, moves, snaps)
    decreases |moves|
  {
    if moves != [] {
      ConsumedIgnores(e, moves[..|moves| - 1], snaps[..|moves| - 1], gone);
    }
  }

  /** Names that the earlier moves left alone look as they did at capture. */
  lemma LastStillCaptured(e: Entries, moves: seq<Move>, snaps: seq<Snapshot>)
    requires Batch(e, moves) && DistinctDests(moves) && Captured(e, moves, snaps) && 0 < |snaps| == |moves|
    ensures var n := |moves| - 1; var r := Published(e, moves[..n]);
            && Lookup(r, moves[n].temp) == Lookup(e, moves[n].temp) && Lookup(r, moves[n].dest) == Lookup(e, moves[n].dest)
            && Snapshots(r, moves[n].dest, snaps[n])
  {
    var n := |moves| - 1;
    PublishedElsewhere(e, moves[..n], moves[n].temp);
    PublishedElsewhere(e, moves[..n], moves[n].dest);
    assert Snapshots(e, moves[n].dest, snaps[n]);
    if snaps[n].previous.WasFile? {
      PublishedElsewhere(e, moves[..n], snaps[n].previous.backup);
    }
  }

  /** A shorter batch, in a directory without the last move's own names, is still a captured batch. */
  lemma ShorterCaptured(e: Entries, moves: seq<Move>, snaps: seq<Snapshot>, gone: set<Path>)
    requires Batch(e, moves) && DistinctDests(moves) && Captured(e, moves, snaps) && 0 < |snaps| == |moves|
    requires gone <= {moves[|moves| - 1].temp} + BackupOf(snaps[|moves| - 1])
    ensures var n := |moves| - 1;
            && Avoids(moves[..n], gone) && Batch(e - gone, moves[..n]) && DistinctDests(moves[..n])
            && Captured(e - gone, moves[..n], snaps[..n])
  {
    var n := |moves| - 1;
    var front, fs := moves[..n], snaps[..n];
    assert IsStaging(moves[n].temp);
    assert Snapshots(e, moves[n].dest, snaps[n]);
    forall i | 0 <= i < n ensures Snapshots(e - gone, front[i].dest, fs[i]) {
      assert Snapshots(e, moves[i].dest, snaps[i]);
    }
  }

  /** Rolling a published batch back gives every entry back; of the staged names and backups exactly those of
      aliased moves stay. */
  lemma {:induction false} UndoAll(e: Entries, moves: seq<Move>, snaps: seq<Snapshot>)
    requires Batch(e, moves) && DistinctDests(moves) && Captured(e, moves, snaps) && |moves| == |snaps|
    ensures RestoredAll(Published(e, moves), snaps) == e - AllConsumed(e, moves, snaps)
    decreases |moves|
  {
    if moves != [] {
      var n := |moves| - 1;
      var m, s := moves[n], snaps[n];
      var before, gone := Published(e, moves[..n]), Consumed(e, m, s);
      LastStillCaptured(e, moves, snaps);
      UndoOne(before, m, s);
      ShorterCaptured(e, moves, snaps, gone);
      PublishIgnores(e, moves[..n], gone);
      UndoAll(e - gone, moves[..n], snaps[..n]);
      ConsumedIgnores(e, moves[..n], snaps[..n], gone);
      assert (e - gone) - AllConsumed(e, moves[..n], snaps[..n]) == e - AllConsumed(e, moves, snaps);
    }
  }
}

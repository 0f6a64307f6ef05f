/** Directory entries and the three operations that publication uses on them: link, rename and unlink. */
module PosixDirectory {
  import opened Options
  import opened Decimals

  datatype Path = Path(dir: string, name: string)

  /** An entry names an inode, holds a symbolic link's target, or is a directory. */
  datatype Entry = File(inode: nat) | Symlink(target: string) | Directory

  type Entries = map<Path, Entry>

  function Lookup(e: Entries, p: Path): Option<Entry> {
    if p in e then Some(e[p]) else None
  }

  /** Two names of one inode, which `rename` leaves alone (IEEE Std 1003.1-2017, rename(), DESCRIPTION). */
  predicate SameFile(e: Entries, a: Path, b: Path) {
    a in e && b in e && (a == b || (e[a].File? && e[a] == e[b]))
  }

  /** What a successful `rename(src, dst)` leaves. */
  function Renamed(e: Entries, src: Path, dst: Path): Entries {
    if src !in e || SameFile(e, src, dst) then e else e[dst := e[src]] - {src}
  }

  predicate CanRename(e: Entries, src: Path, dst: Path) {
    src in e && (SameFile(e, src, dst) || (!e[src].Directory? && (dst in e ==> !e[dst].Directory?)))
  }

  // ---------------------------------------------------------------- unique staging names

  const STAGE_TAG := ".codestory-stage-"

  function StagingName(name: string, pid: nat, counter: nat): string {
    "." + name + STAGE_TAG + Decimal(pid) + ['-'] + (Decimal(counter) + ".tmp")
  }

  function StagingPath(destination: Path, pid: nat, counter: nat): Path {
    Path(destination.dir, StagingName(destination.name, pid, counter))
  }

  ghost predicate IsStaging(p: Path) {
    exists d: Path, pid: nat, counter: nat :: p == StagingPath(d, pid, counter)
  }

  lemma StagingNameInjective(name: string, pid: nat, c: nat, d: nat)
    requires StagingName(name, pid, c) == StagingName(name, pid, d)
    ensures c == d
  {
    var front := "." + name + STAGE_TAG + Decimal(pid);
    var s, t := Decimal(c) + ".tmp", Decimal(d) + ".tmp";
    SplitUniqueAtLast(front, s, front, t, '-');
    assert s[..|s| - 4] == Decimal(c) && t[..|t| - 4] == Decimal(d);
    DecimalInjective(c, d);
  }

  /** The staging names of a destination, from a counter on, that already exist. */
  ghost function Taken(e: Entries, destination: Path, pid: nat, counter: nat): set<Path> {
    set p | p in e.Keys && exists k: nat :: k >= counter && p == StagingPath(destination, pid, k)
  }

  /** A clash uses up one existing name, so the search for a free one ends. */
  lemma ClashShrinksTaken(e: Entries, destination: Path, pid: nat, counter: nat)
    requires StagingPath(destination, pid, counter) in e
    ensures Taken(e, destination, pid, counter + 1) < Taken(e, destination, pid, counter)
  {
    var p := StagingPath(destination, pid, counter);
    assert p in Taken(e, destination, pid, counter);
    if p in Taken(e, destination, pid, counter + 1) {
      var k: nat :| k >= counter + 1 && p == StagingPath(destination, pid, k);
      StagingNameInjective(destination.name, pid, counter, k);
    }
  }

  // ---------------------------------------------------------------- the directory as an object

  datatype Removal = Removed | NotFound | Refused

  /** One process's view of the directories it stages into. Any operation may fail for a reason outside the model;
      `faults` counts those failures, and a failed operation changes no entry. */
  class FileSystem {
    var entries: Entries
    var counter: nat
    ghost var faults: nat
    /** Names that were replaced or removed since their directory was last synced. */
    ghost var unsynced: set<Path>
    const pid: nat

    constructor (pid: nat, entries: Entries)
      ensures this.pid == pid && this.entries == entries && unsynced == {}
    {
      this.pid, this.entries, this.counter, this.faults, this.unsynced := pid, entries, 0, 0, {};
    }

    method ReplaceFile(source: Path, destination: Path) returns (ok: bool)
      modifies this`entries, this`faults, this`unsynced
      ensures faults >= old(faults)
      ensures ok ==> CanRename(old(entries), source, destination) && entries == Renamed(old(entries), source, destination)
      ensures ok ==> faults == old(faults) && unsynced == old(unsynced) + {destination}
      ensures !ok ==> entries == old(entries) && unsynced == old(unsynced)
      ensures !ok && faults == old(faults) ==> !CanRename(entries, source, destination)
    {
      if * {
        faults := faults + 1;
        return false;
      }
      if !CanRename(entries, source, destination) { return false; }
      entries, unsynced := Renamed(entries, source, destination), unsynced + {destination};
      return true;
    }

    method RemoveFile(path: Path) returns (r: Removal)
      modifies this`entries, this`faults, this`unsynced
      ensures faults >= old(faults) && (!r.Refused? ==> faults == old(faults))
      ensures old(unsynced) <= unsynced <= old(unsynced) + {path}
      ensures r.Removed? ==> path in unsynced
      ensures r.Removed? ==> entries == old(entries) - {path}
      ensures r.NotFound? ==> path !in entries && entries == old(entries)
      ensures r.Refused? ==> path in entries && entries == old(entries)
      ensures r.Refused? && faults == old(faults) ==> entries[path].Directory?
    {
      if path !in entries { return NotFound; }
      if * {
        faults := faults + 1;
        return Refused;
      }
      if entries[path].Directory? { return Refused; }
      entries, unsynced := entries - {path}, unsynced + {path};
      return Removed;
    }

    /** `sync_parent_directory`: what changed in the directory of `path` is durable, or the call fails. */
    method SyncParent(path: Path) returns (ok: bool)
      modifies this`faults, this`unsynced
      ensures ok ==> faults == old(faults) && unsynced == set p | p in old(unsynced) && p.dir != path.dir
      ensures !ok ==> faults > old(faults) && unsynced == old(unsynced)
    {
      ok := *;
      if ok {
        unsynced := set p | p in unsynced && p.dir != path.dir;
      } else {
        faults := faults + 1;
      }
    }

    /** `create_unique_hard_link`: retry on a clash, give up on any other error. */
    method CreateUniqueHardLink(source: Path, destination: Path) returns (r: Option<Path>)
      modifies this`entries, this`counter, this`faults
      ensures faults >= old(faults)
      ensures r.None? && faults == old(faults) ==> source !in entries || !entries[source].File?
      ensures r.Some? ==>
                && faults == old(faults) && IsStaging(r.value) && r.value !in old(entries)
                && source in old(entries) && old(entries)[source].File?
                && entries == old(entries)[r.value := old(entries)[source]]
      ensures r.None? ==> entries == old(entries)
    {
      while true
        invariant entries == old(entries) && faults == old(faults)
        decreases Taken(entries, destination, pid, counter)
      {
        var temporary := StagingPath(destination, pid, counter);
        counter := counter + 1;
        var refused := *;
        if refused {
          faults := faults + 1;
          return None;
        }
        if source !in entries || !entries[source].File? {
          return None;
        }
        if temporary !in entries {
          assert temporary == StagingPath(destination, pid, counter - 1);
          entries := entries[temporary := entries[source]];
          return Some(temporary);
        }
        ClashShrinksTaken(entries, destination, pid, counter - 1);
      }
    }

    /** `create_unique_symlink`. */
    method CreateUniqueSymlink(target: string, destination: Path) returns (r: Option<Path>)
      modifies this`entries, this`counter, this`faults
      ensures faults >= old(faults)
      ensures r.Some? ==> IsStaging(r.value) && r.value !in old(entries) && entries == old(entries)[r.value := Symlink(target)]
      ensures r.Some? ==> faults == old(faults)
      ensures r.None? ==> entries == old(entries) && faults > old(faults)
    {
      while true
        invariant entries == old(entries) && faults == old(faults)
        decreases Taken(entries, destination, pid, counter)
      {
        var temporary := StagingPath(destination, pid, counter);
        counter := counter + 1;
        var refused := *;
        if refused {
          faults := faults + 1;
          return None;
        }
        if temporary !in entries {
          assert temporary == StagingPath(destination, pid, counter - 1);
          entries := entries[temporary := Symlink(target)];
          return Some(temporary);
        }
        ClashShrinksTaken(entries, destination, pid, counter - 1);
      }
    }
  }
}

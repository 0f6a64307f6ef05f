/** What each call of the local refresh protocol does from its first step to its last: exactly, when nobody else moves and
    nothing fails, and what it writes however others interleave. Everything is said field by field. */
module LocalRefreshAlone {
  import opened Options
  import opened Decimals
  import opened LocalRefresh
  import opened LocalRefreshSafety
  import opened LocalRefreshTheorems

  /** One moment: the clock, what a probe of each pid answers, and whether a lock file that cannot be parsed counts as old. */
  datatype Moment = Moment(ms: nat, probe: nat -> ProcessStartProbe, aged: bool)

  ghost predicate Truthful(w: World, m: Moment) {
    forall pid :: Faithful(w, pid, m.probe(pid))
  }

  function EnvAt(w: World, c: nat, m: Moment): Env
    requires c in w.calls
  {
    match w.calls[c].pc
    case AcqWantGuard(_) =>
      Env(m.ms, m.probe(if w.calls[c].inc in w.procs then w.procs[w.calls[c].inc].pid else 0), true, false)
    case AcqProbe(_, _, found) => Env(m.ms, m.probe(found.pid), true, false)
    case ReadProbe(_, _, read) => Env(m.ms, m.probe(read.pid), true, false)
    case AcqStale(_, _) => Env(m.ms, ProbeUnknown, m.aged, false)
    case _ => Env(m.ms, ProbeUnknown, true, false)
  }

  function Next(w: World, c: nat, m: Moment): Step
    requires c in w.calls
  {
    Advance(c, EnvAt(w, c, m))
  }

  /** Call `c` alone takes `n` steps or fewer, ends, and leaves `v`; on its way it hands out the status `told`, if any. */
  ghost predicate Runs(w: World, c: nat, m: Moment, n: nat, v: World, told: Option<Status>)
    decreases n
  {
    if c !in w.calls then v == w && told.None?
    else
      && n > 0 && Enabled(true, w, Next(w, c, m))
      && (var returned := Returned(w, Next(w, c, m));
          if returned.Some? then told == returned && Runs(Apply(w, Next(w, c, m)), c, m, n - 1, v, None)
          else Runs(Apply(w, Next(w, c, m)), c, m, n - 1, v, told))
  }

  ghost predicate Ends(w: World, c: nat, m: Moment, v: World, told: Option<Status>) {
    exists n: nat :: Runs(w, c, m, n, v, told)
  }

  /** It is a run of the protocol in which only this call moves. */
  lemma {:induction false} RunsAreRuns(w: World, c: nat, m: Moment, n: nat, v: World, told: Option<Status>) returns (ss: seq<Step>)
    requires Runs(w, c, m, n, v, told)
    ensures OwnSteps(c, ss) && Reaches(true, w, ss, v) && c !in v.calls
    decreases n
  {
    hide Apply, Enabled, Returned;
    if c !in w.calls {
      ss := [];
    } else {
      var s := Next(w, c, m);
      var rest := RunsAreRuns(Apply(w, s), c, m, n - 1, v, if Returned(w, s).Some? then None else told);
      ss := [s] + rest;
      assert ss[1..] == rest;
    }
  }

  /** The next step of the call, which hands out nothing. */
  ghost predicate Goes(w: World, c: nat, m: Moment, u: World) {
    c in w.calls && StrictlyMoves(w, Next(w, c, m), u) && Returned(w, Next(w, c, m)).None?
  }

  lemma OneMore(w: World, c: nat, m: Moment, u: World, v: World, told: Option<Status>)
    requires Goes(w, c, m, u) && Ends(u, c, m, v, told)
    ensures Ends(w, c, m, v, told)
  {
    hide Apply, Enabled, Returned, EnvAt;
    var n: nat :| Runs(u, c, m, n, v, told);
    assert Runs(w, c, m, n + 1, v, told);
  }

  lemma LastOne(w: World, c: nat, m: Moment, v: World)
    requires c in w.calls && c !in v.calls && StrictlyMoves(w, Next(w, c, m), v)
    ensures Ends(w, c, m, v, Returned(w, Next(w, c, m)))
  {
    assert Runs(v, c, m, 0, v, None);
    assert Runs(w, c, m, 1, v, Returned(w, Next(w, c, m)));
  }

  // ---------------------------------------------------------------- a call among the others

  function Host(w: World, c: nat, inc: nat, pc: Pc): World {
    w.(calls := w.calls[c := Call(inc, pc)])
  }

  function Held(w: World, c: nat): World {
    w.(guard := Some(c))
  }

  /** A fresh call of a living process. */
  ghost predicate Fresh(w: World, c: nat, inc: nat) {
    c !in w.calls && inc in w.live && inc in w.procs
  }

  lemma Moves1(w: World, c: nat, inc: nat, pc: Pc, next: Pc)
    ensures Goto(Host(w, c, inc, pc), c, next) == Host(w, c, inc, next)
  {
    assert w.calls[c := Call(inc, pc)][c := Call(inc, next)] == w.calls[c := Call(inc, next)];
  }

  lemma Leaves(w: World, c: nat, inc: nat, pc: Pc)
    requires c !in w.calls
    ensures End(Host(w, c, inc, pc), c) == if w.guard == Some(c) then w.(guard := None) else w
  {
    assert w.calls[c := Call(inc, pc)] - {c} == w.calls;
  }

  // ---------------------------------------------------------------- what the files say, in their own fields

  /** A probe of an owner shows that it is gone, or that its pid is somebody else's by now. */
  ghost predicate Gone(probe: ProcessStartProbe, recorded: Option<string>) {
    probe.NotRunning? || (probe.Running? && recorded.Some? && recorded.value != probe.startIdentity)
  }

  /** A status that a reader of this project accepts at this moment: fresh, refreshing, of a process that may be alive, and
      with its token and the other owner fields in the lock file. */
  ghost predicate Refreshing(w: World, project: string, m: Moment) {
    w.status.Some? &&
    var st := w.status.value;
    && st.schemaVersion == 1 && st.status == "refreshing" && st.projectRoot == project
    && m.ms <= st.updatedAt + 30_000
    && !Gone(m.probe(st.pid), st.startIdentity)
    && (st.ownerToken.Some? ==> Names(w.lock, project, Owner(st.ownerToken.value, st.pid, st.startIdentity, st.startedAt)))
  }

  /** There is no lock file, or no refresh runs and the lock file's owner is gone, or it cannot be parsed and is old. */
  ghost predicate Abandoned(w: World, project: string, m: Moment) {
    match w.lock
    case NoLock => true
    case Partial => !Refreshing(w, project, m) && m.aged
    case Full(found, _) => !Refreshing(w, project, m) && Gone(m.probe(found.pid), found.startIdentity)
  }

  // ---------------------------------------------------------------- reading

  lemma ReadsLock(w: World, c: nat, inc: nat, m: Moment, project: string, read: Status)
    requires Fresh(w, c, inc) && read.ownerToken.Some? && w.guard != Some(c)
    ensures Ends(Host(w, c, inc, ReadLock(project, None, read)), c, m, w,
              if Names(w.lock, project, Owner(read.ownerToken.value, read.pid, read.startIdentity, read.startedAt)) then Some(read) else None)
  {
    var u := Host(w, c, inc, ReadLock(project, None, read));
    Leaves(w, c, inc, ReadLock(project, None, read));
    LastOne(u, c, m, w);
  }

  lemma ReadsProbe(w: World, c: nat, inc: nat, m: Moment, project: string, read: Status)
    requires Fresh(w, c, inc) && Truthful(w, m) && w.guard != Some(c)
    ensures Ends(Host(w, c, inc, ReadProbe(project, None, read)), c, m, w,
      if !Gone(m.probe(read.pid), read.startIdentity) &&
         (read.ownerToken.Some? ==> Names(w.lock, project, Owner(read.ownerToken.value, read.pid, read.startIdentity, read.startedAt)))
      then Some(read) else None)
  {
    var pc := ReadProbe(project, None, read);
    var u := Host(w, c, inc, pc);
    assert Faithful(u, read.pid, m.probe(read.pid)) by { assert Faithful(w, read.pid, m.probe(read.pid)); }
    Leaves(w, c, inc, pc);
    if Gone(m.probe(read.pid), read.startIdentity) || read.ownerToken.None? {
      LastOne(u, c, m, w);
    } else {
      ReadsLock(w, c, inc, m, project, read);
      Moves1(w, c, inc, pc, ReadLock(project, None, read));
      hide Ends;
      OneMore(u, c, m, Host(w, c, inc, ReadLock(project, None, read)), w,
        if Names(w.lock, project, Owner(read.ownerToken.value, read.pid, read.startIdentity, read.startedAt)) then Some(read) else None);
    }
  }

  /** A reader changes nothing and returns the status exactly if a refresh runs. */
  lemma ReadAlone(w: World, c: nat, inc: nat, m: Moment, project: string)
    requires Fresh(w, c, inc) && Truthful(w, m) && w.guard != Some(c)
    ensures Enabled(true, w, Begin(c, inc, ReadStatus(project, None, m.ms)))
    ensures Ends(Apply(w, Begin(c, inc, ReadStatus(project, None, m.ms))), c, m, w,
                 if Refreshing(w, project, m) then w.status else None)
  {
    var pc := ReadStatus(project, None, m.ms);
    var u := Host(w, c, inc, pc);
    assert Apply(w, Begin(c, inc, pc)) == u;
    Leaves(w, c, inc, pc);
    if w.status.Some? && StatusReadable(w.status.value, project, m.ms) {
      var read := w.status.value;
      ReadsProbe(w, c, inc, m, project, read);
      Moves1(w, c, inc, pc, ReadProbe(project, None, read));
      hide Ends;
      OneMore(u, c, m, Host(w, c, inc, ReadProbe(project, None, read)), w, if Refreshing(w, project, m) then w.status else None);
    } else {
      LastOne(u, c, m, w);
    }
  }

  // ---------------------------------------------------------------- acquiring

  /** The tuple that process `inc` writes about itself at this moment. */
  function Self(w: World, inc: nat, m: Moment): Owner
    requires inc in w.procs
  {
    var pid := w.procs[inc].pid;
    Owner(Decimal(pid) + ":" + Decimal(m.ms), pid, if m.probe(pid).Running? then Some(m.probe(pid).startIdentity) else None, m.ms)
  }

  /** The world after `owner` took the lock. */
  function Taken(w: World, inc: nat, project: string, owner: Owner): World {
    w.(lock := Full(LockFile(1, project, owner.pid, owner.startIdentity, owner.startedAt, owner.token), w.nextAcq),
       nextAcq := w.nextAcq + 1, acqs := w.acqs[w.nextAcq := Acquisition(inc, owner, project, Open)],
       used := w.used + {(inc, owner.startedAt)}, guard := None)
  }

  lemma WritesIt(w: World, c: nat, inc: nat, m: Moment, project: string, owner: Owner)
    requires Fresh(w, c, inc) && w.guard == Some(c)
    ensures Ends(Host(w, c, inc, AcqWrite(project, owner)), c, m, Taken(w, inc, project, owner), None)
  {
    var full := Taken(w, inc, project, owner).(guard := Some(c));
    Leaves(full, c, inc, AcqWrite(project, owner));
    LastOne(Host(w, c, inc, AcqWrite(project, owner)), c, m, Taken(w, inc, project, owner));
  }

  lemma CreateGoes(w: World, c: nat, inc: nat, m: Moment, project: string, owner: Owner, second: bool)
    requires Fresh(w, c, inc) && w.guard == Some(c) && w.lock.NoLock?
    ensures Goes(Host(w, c, inc, AcqCreate(project, owner, second, second)), c, m, Host(w.(lock := Partial), c, inc, AcqWrite(project, owner)))
  {
    Moves1(w.(lock := Partial), c, inc, AcqCreate(project, owner, second, second), AcqWrite(project, owner));
  }

  lemma RemoveGoes(w: World, c: nat, inc: nat, m: Moment, project: string, owner: Owner)
    requires Fresh(w, c, inc) && w.guard == Some(c)
    ensures Goes(Host(w, c, inc, AcqRemove(project, owner)), c, m, Host(w.(lock := NoLock), c, inc, AcqCreate(project, owner, true, true)))
  {
    Moves1(w.(lock := NoLock), c, inc, AcqRemove(project, owner), AcqCreate(project, owner, true, true));
  }

  lemma TakenWhateverStood(w: World, lock: LockEntry, inc: nat, project: string, owner: Owner)
    ensures Taken(w.(lock := lock), inc, project, owner) == Taken(w, inc, project, owner)
  {
  }

  lemma CreatesIt(w: World, c: nat, inc: nat, m: Moment, project: string, owner: Owner, second: bool)
    requires Fresh(w, c, inc) && w.guard == Some(c) && w.lock.NoLock?
    ensures Ends(Host(w, c, inc, AcqCreate(project, owner, second, second)), c, m, Taken(w, inc, project, owner), None)
  {
    var u := w.(lock := Partial);
    CreateGoes(w, c, inc, m, project, owner, second);
    WritesIt(u, c, inc, m, project, owner);
    TakenWhateverStood(w, Partial, inc, project, owner);
    hide *;
    OneMore(Host(w, c, inc, AcqCreate(project, owner, second, second)), c, m, Host(u, c, inc, AcqWrite(project, owner)),
            Taken(w, inc, project, owner), None);
  }

  lemma RemovesIt(w: World, c: nat, inc: nat, m: Moment, project: string, owner: Owner)
    requires Fresh(w, c, inc) && w.guard == Some(c)
    ensures Ends(Host(w, c, inc, AcqRemove(project, owner)), c, m, Taken(w, inc, project, owner), None)
  {
    var u := w.(lock := NoLock);
    RemoveGoes(w, c, inc, m, project, owner);
    CreatesIt(u, c, inc, m, project, owner, true);
    TakenWhateverStood(w, NoLock, inc, project, owner);
    hide *;
    OneMore(Host(w, c, inc, AcqRemove(project, owner)), c, m, Host(u, c, inc, AcqCreate(project, owner, true, true)),
            Taken(w, inc, project, owner), None);
  }

  lemma ProbeGoes(w: World, c: nat, inc: nat, m: Moment, project: string, owner: Owner, found: LockFile)
    requires Fresh(w, c, inc) && w.guard == Some(c) && Faithful(w, found.pid, m.probe(found.pid))
    ensures var u := Host(w, c, inc, AcqProbe(project, owner, found));
      if Gone(m.probe(found.pid), found.startIdentity) then Goes(u, c, m, Host(w, c, inc, AcqRemove(project, owner)))
      else Ends(u, c, m, w.(guard := None), None)
  {
    var pc := AcqProbe(project, owner, found);
    var u := Host(w, c, inc, pc);
    assert Faithful(u, found.pid, m.probe(found.pid));
    hide Faithful;
    if Gone(m.probe(found.pid), found.startIdentity) {
      Moves1(w, c, inc, pc, AcqRemove(project, owner));
    } else {
      Leaves(w, c, inc, pc);
      LastOne(u, c, m, w.(guard := None));
    }
  }

  lemma ProbesOwner(w: World, c: nat, inc: nat, m: Moment, project: string, owner: Owner, found: LockFile)
    requires Fresh(w, c, inc) && w.guard == Some(c) && Truthful(w, m)
    ensures Ends(Host(w, c, inc, AcqProbe(project, owner, found)), c, m,
      if Gone(m.probe(found.pid), found.startIdentity) then Taken(w, inc, project, owner) else w.(guard := None), None)
  {
    assert Faithful(w, found.pid, m.probe(found.pid));
    ProbeGoes(w, c, inc, m, project, owner, found);
    if Gone(m.probe(found.pid), found.startIdentity) {
      RemovesIt(w, c, inc, m, project, owner);
      hide *;
      OneMore(Host(w, c, inc, AcqProbe(project, owner, found)), c, m, Host(w, c, inc, AcqRemove(project, owner)),
              Taken(w, inc, project, owner), None);
    }
  }

  lemma LooksAtLock(w: World, c: nat, inc: nat, m: Moment, project: string, owner: Owner)
    requires Fresh(w, c, inc) && w.guard == Some(c) && Truthful(w, m) && !w.lock.NoLock?
    ensures Ends(Host(w, c, inc, AcqStale(project, owner)), c, m,
      if (if w.lock.Full? then Gone(m.probe(w.lock.file.pid), w.lock.file.startIdentity) else m.aged)
      then Taken(w, inc, project, owner) else w.(guard := None), None)
  {
    var pc := AcqStale(project, owner);
    var u := Host(w, c, inc, pc);
    hide Ends, Gone, Taken, Truthful;
    if w.lock.Full? {
      var next := AcqProbe(project, owner, w.lock.file);
      ProbesOwner(w, c, inc, m, project, owner, w.lock.file);
      Moves1(w, c, inc, pc, next);
      OneMore(u, c, m, Host(w, c, inc, next),
        if Gone(m.probe(w.lock.file.pid), w.lock.file.startIdentity) then Taken(w, inc, project, owner) else w.(guard := None), None);
    } else if m.aged {
      RemovesIt(w, c, inc, m, project, owner);
      Moves1(w, c, inc, pc, AcqRemove(project, owner));
      OneMore(u, c, m, Host(w, c, inc, AcqRemove(project, owner)), Taken(w, inc, project, owner), None);
    } else {
      Leaves(w, c, inc, pc);
      LastOne(u, c, m, w.(guard := None));
    }
  }

  /** The end of an attempt that found a lock file. */
  ghost function Outcome(w: World, inc: nat, project: string, owner: Owner, m: Moment): World {
    if Abandoned(w, project, m) then Taken(w, inc, project, owner) else w.(guard := None)
  }

  /** The acquirer reads no status, and looks at the lock file. */
  lemma NoStatusRead(w: World, c: nat, inc: nat, m: Moment, project: string, owner: Owner, pc: Pc)
    requires Fresh(w, c, inc) && w.guard == Some(c) && Truthful(w, m) && !w.lock.NoLock? && !Refreshing(w, project, m)
    requires Goes(Host(w, c, inc, pc), c, m, Goto(Host(w, c, inc, pc), c, AcqStale(project, owner)))
    ensures Ends(Host(w, c, inc, pc), c, m, Outcome(w, inc, project, owner, m), None)
  {
    var u, next := Host(w, c, inc, pc), AcqStale(project, owner);
    LooksAtLock(w, c, inc, m, project, owner);
    Moves1(w, c, inc, pc, next);
    hide Ends, Goes, Gone, Taken, Refreshing;
    OneMore(u, c, m, Host(w, c, inc, next), Outcome(w, inc, project, owner, m), None);
  }

  lemma AcquirerReadsLock(w: World, c: nat, inc: nat, m: Moment, project: string, owner: Owner)
    requires Fresh(w, c, inc) && w.guard == Some(c) && Truthful(w, m) && !w.lock.NoLock?
    requires w.status.Some? && StatusReadable(w.status.value, project, m.ms) && w.status.value.ownerToken.Some?
    requires !Gone(m.probe(w.status.value.pid), w.status.value.startIdentity)
    ensures Ends(Host(w, c, inc, ReadLock(project, Some(owner), w.status.value)), c, m, Outcome(w, inc, project, owner, m), None)
  {
    var pc := ReadLock(project, Some(owner), w.status.value);
    if Refreshing(w, project, m) {
      Leaves(w, c, inc, pc);
      LastOne(Host(w, c, inc, pc), c, m, w.(guard := None));
    } else {
      NoStatusRead(w, c, inc, m, project, owner, pc);
    }
  }

  lemma AcquirerProbesStatus(w: World, c: nat, inc: nat, m: Moment, project: string, owner: Owner)
    requires Fresh(w, c, inc) && w.guard == Some(c) && Truthful(w, m) && !w.lock.NoLock?
    requires w.status.Some? && StatusReadable(w.status.value, project, m.ms)
    ensures Ends(Host(w, c, inc, ReadProbe(project, Some(owner), w.status.value)), c, m, Outcome(w, inc, project, owner, m), None)
  {
    var read := w.status.value;
    var pc, next := ReadProbe(project, Some(owner), read), ReadLock(project, Some(owner), read);
    var u := Host(w, c, inc, pc);
    assert Faithful(u, read.pid, m.probe(read.pid)) by { assert Faithful(w, read.pid, m.probe(read.pid)); }
    if Gone(m.probe(read.pid), read.startIdentity) {
      NoStatusRead(w, c, inc, m, project, owner, pc);
    } else if read.ownerToken.None? {
      Leaves(w, c, inc, pc);
      LastOne(u, c, m, w.(guard := None));
    } else {
      AcquirerReadsLock(w, c, inc, m, project, owner);
      Moves1(w, c, inc, pc, next);
      hide Ends, Outcome;
      OneMore(u, c, m, Host(w, c, inc, next), Outcome(w, inc, project, owner, m), None);
    }
  }

  lemma AcquirerReadsStatus(w: World, c: nat, inc: nat, m: Moment, project: string, owner: Owner)
    requires Fresh(w, c, inc) && w.guard == Some(c) && Truthful(w, m) && !w.lock.NoLock?
    ensures Ends(Host(w, c, inc, ReadStatus(project, Some(owner), m.ms)), c, m, Outcome(w, inc, project, owner, m), None)
  {
    var pc := ReadStatus(project, Some(owner), m.ms);
    if w.status.Some? && StatusReadable(w.status.value, project, m.ms) {
      var next := ReadProbe(project, Some(owner), w.status.value);
      AcquirerProbesStatus(w, c, inc, m, project, owner);
      Moves1(w, c, inc, pc, next);
      hide Ends, Outcome;
      OneMore(Host(w, c, inc, pc), c, m, Host(w, c, inc, next), Outcome(w, inc, project, owner, m), None);
    } else {
      NoStatusRead(w, c, inc, m, project, owner, pc);
    }
  }

  lemma AcquirerCreates(w: World, c: nat, inc: nat, m: Moment, project: string, owner: Owner)
    requires Fresh(w, c, inc) && w.guard == Some(c) && Truthful(w, m)
    ensures Ends(Host(w, c, inc, AcqCreate(project, owner, false, false)), c, m, Outcome(w, inc, project, owner, m), None)
  {
    if w.lock.NoLock? {
      CreatesIt(w, c, inc, m, project, owner, false);
    } else {
      var pc, next := AcqCreate(project, owner, false, false), ReadStatus(project, Some(owner), m.ms);
      AcquirerReadsStatus(w, c, inc, m, project, owner);
      Moves1(w, c, inc, pc, next);
      hide Ends, Outcome;
      OneMore(Host(w, c, inc, pc), c, m, Host(w, c, inc, next), Outcome(w, inc, project, owner, m), None);
    }
  }

  lemma SameMoment(w: World, c: nat, inc: nat, m: Moment, project: string, owner: Owner)
    requires w.guard.None?
    ensures Abandoned(Held(w, c), project, m) == Abandoned(w, project, m)
    ensures Taken(Held(w, c), inc, project, owner) == Taken(w, inc, project, owner)
    ensures Held(w, c).(guard := None) == w
  {
  }

  lemma GuardGoes(w: World, c: nat, inc: nat, m: Moment, project: string)
    requires Fresh(w, c, inc) && w.guard.None? && Truthful(w, m) && (inc, m.ms) !in w.used
    ensures Goes(Host(w, c, inc, AcqWantGuard(project)), c, m, Host(Held(w, c), c, inc, AcqCreate(project, Self(w, inc, m), false, false)))
  {
    var u, pid := Host(w, c, inc, AcqWantGuard(project)), w.procs[inc].pid;
    assert Faithful(u, pid, m.probe(pid)) by { assert Faithful(w, pid, m.probe(pid)); }
    hide Truthful, Decimal;
    Moves1(Held(w, c), c, inc, AcqWantGuard(project), AcqCreate(project, Self(w, inc, m), false, false));
  }

  lemma HeldIsTruthful(w: World, c: nat, m: Moment)
    requires Truthful(w, m)
    ensures Truthful(Held(w, c), m)
  {
    forall pid ensures Faithful(Held(w, c), pid, m.probe(pid)) { assert Faithful(w, pid, m.probe(pid)); }
  }

  /** `try_acquire_local_refresh_lock`, run alone on a free guard: it obtains a handle exactly if the lock is free or
      abandoned, and then changes just the lock file; otherwise it changes nothing. */
  lemma TryAcquireAlone(w: World, c: nat, inc: nat, m: Moment, project: string)
    requires Fresh(w, c, inc) && w.guard.None? && Truthful(w, m) && (inc, m.ms) !in w.used
    ensures Enabled(true, w, Begin(c, inc, AcqWantGuard(project)))
    ensures Ends(Apply(w, Begin(c, inc, AcqWantGuard(project))), c, m,
                 if Abandoned(w, project, m) then Taken(w, inc, project, Self(w, inc, m)) else w, None)
  {
    var u, owner, held := Host(w, c, inc, AcqWantGuard(project)), Self(w, inc, m), Held(w, c);
    assert Apply(w, Begin(c, inc, AcqWantGuard(project))) == u;
    assert held.guard == Some(c) && Fresh(held, c, inc);
    HeldIsTruthful(w, c, m);
    GuardGoes(w, c, inc, m, project);
    AcquirerCreates(held, c, inc, m, project, owner);
    SameMoment(w, c, inc, m, project, owner);
    hide Apply, Ends, Goes, Taken, Truthful, Abandoned, Self, Held, Host;
    OneMore(u, c, m, Host(held, c, inc, AcqCreate(project, owner, false, false)),
            if Abandoned(w, project, m) then Taken(w, inc, project, owner) else w, None);
  }

  // ---------------------------------------------------------------- writing, renewing, dropping

  lemma GuardTaken(w: World, c: nat, inc: nat, m: Moment, pc: Pc, next: Pc)
    requires Fresh(w, c, inc) && w.guard.None?
    requires match pc
             case WriteWantGuard(a, project, status, phase, reason) => next == WriteValidate(a, project, status, phase, reason)
             case RenewWantGuard(a, project, phase) => next == RenewValidate(a, project, phase)
             case DropWantGuard(a) => next == DropRead(a)
             case _ => false
    ensures Goes(Host(w, c, inc, pc), c, m, Host(Held(w, c), c, inc, next))
  {
    Moves1(Held(w, c), c, inc, pc, next);
  }

  lemma WriteEnds(w: World, c: nat, inc: nat, m: Moment, a: nat, project: string, status: string, phase: string, reason: Option<string>)
    returns (v: World)
    requires Fresh(w, c, inc) && w.guard == Some(c) && a in w.acqs
    ensures Ends(Host(w, c, inc, WriteStatus(a, project, status, phase, reason)), c, m, v, None)
    ensures v == w.(status := v.status, guard := None) && v.status.Some?
    ensures Tells(v.status.value, project, status, phase, w.acqs[a].owner, m.ms, reason)
  {
    var write := WriteStatus(a, project, status, phase, reason);
    var u := Host(w, c, inc, write);
    v := Apply(u, Next(u, c, m));
    Leaves(w.(status := v.status), c, inc, write);
    LastOne(u, c, m, v);
  }

  lemma ValidateGoes(w: World, c: nat, inc: nat, m: Moment, a: nat, project: string, status: string, phase: string, reason: Option<string>)
    requires Fresh(w, c, inc) && w.guard == Some(c) && a in w.acqs
    ensures var u := Host(w, c, inc, WriteValidate(a, project, status, phase, reason));
      if Names(w.lock, project, w.acqs[a].owner)
      then Goes(u, c, m, Host(w, c, inc, WriteStatus(a, project, status, phase, reason)))
      else Ends(u, c, m, w.(guard := None), None)
  {
    var validate := WriteValidate(a, project, status, phase, reason);
    if Names(w.lock, project, w.acqs[a].owner) {
      Moves1(w, c, inc, validate, WriteStatus(a, project, status, phase, reason));
    } else {
      Leaves(w, c, inc, validate);
      LastOne(Host(w, c, inc, validate), c, m, w.(guard := None));
    }
  }

  /** `write_status` through a handle, run alone: if the lock file still names the handle's owner, the status file then says
      what the caller said; otherwise nothing changes. */
  lemma WriteAlone(w: World, c: nat, inc: nat, m: Moment, a: nat, project: string, status: string, phase: string, reason: Option<string>)
    returns (v: World)
    requires Fresh(w, c, inc) && w.guard.None? && Owns(w, inc, a) && w.acqs[a].handle.Open?
    ensures Enabled(true, w, Begin(c, inc, WriteWantGuard(a, project, status, phase, reason)))
    ensures Ends(Apply(w, Begin(c, inc, WriteWantGuard(a, project, status, phase, reason))), c, m, v, None)
    ensures if Names(w.lock, project, w.acqs[a].owner)
      then v == w.(status := v.status) && v.status.Some? && Tells(v.status.value, project, status, phase, w.acqs[a].owner, m.ms, reason)
      else v == w
  {
    var pc, validate, write := WriteWantGuard(a, project, status, phase, reason), WriteValidate(a, project, status, phase, reason),
      WriteStatus(a, project, status, phase, reason);
    var held := Held(w, c);
    assert Apply(w, Begin(c, inc, pc)) == Host(w, c, inc, pc);
    hide Apply, Ends, Goes, Tells, Names, Host;
    GuardTaken(w, c, inc, m, pc, validate);
    ValidateGoes(held, c, inc, m, a, project, status, phase, reason);
    if Names(w.lock, project, w.acqs[a].owner) {
      v := WriteEnds(held, c, inc, m, a, project, status, phase, reason);
      OneMore(Host(held, c, inc, validate), c, m, Host(held, c, inc, write), v, None);
    } else {
      v := w;
    }
    OneMore(Host(w, c, inc, pc), c, m, Host(held, c, inc, validate), v, None);
  }

  /** What a heartbeat renews: the refreshing status of this owner, project and phase. */
  ghost predicate Renewable(w: World, project: string, phase: string, owner: Owner) {
    && Names(w.lock, project, owner)
    && w.status.Some? && Tells(w.status.value, project, "refreshing", phase, owner, w.status.value.updatedAt, w.status.value.lastFailureReason)
  }

  lemma RenewEnds(w: World, c: nat, inc: nat, m: Moment, a: nat, project: string, phase: string)
    requires Fresh(w, c, inc) && w.guard == Some(c) && a in w.acqs && w.status.Some?
    ensures Ends(Host(w, c, inc, RenewWrite(a, project, phase, w.status.value)), c, m,
                 w.(status := Some(w.status.value.(updatedAt := m.ms)), guard := None), None)
  {
    var write := RenewWrite(a, project, phase, w.status.value);
    var v := w.(status := Some(w.status.value.(updatedAt := m.ms)));
    Leaves(v, c, inc, write);
    LastOne(Host(w, c, inc, write), c, m, v.(guard := None));
  }

  lemma RenewReads(w: World, c: nat, inc: nat, m: Moment, a: nat, project: string, phase: string)
    requires Fresh(w, c, inc) && w.guard == Some(c) && a in w.acqs && Names(w.lock, project, w.acqs[a].owner)
    ensures var u := Host(w, c, inc, RenewRead(a, project, phase));
      if Renewable(w, project, phase, w.acqs[a].owner) then Goes(u, c, m, Host(w, c, inc, RenewWrite(a, project, phase, w.status.value)))
      else Ends(u, c, m, w.(guard := None), None)
  {
    var read := RenewRead(a, project, phase);
    if Renewable(w, project, phase, w.acqs[a].owner) {
      Moves1(w, c, inc, read, RenewWrite(a, project, phase, w.status.value));
    } else {
      Leaves(w, c, inc, read);
      LastOne(Host(w, c, inc, read), c, m, w.(guard := None));
    }
  }

  lemma RenewValidates(w: World, c: nat, inc: nat, m: Moment, a: nat, project: string, phase: string)
    requires Fresh(w, c, inc) && w.guard == Some(c) && a in w.acqs
    ensures var u := Host(w, c, inc, RenewValidate(a, project, phase));
      if Names(w.lock, project, w.acqs[a].owner) then Goes(u, c, m, Host(w, c, inc, RenewRead(a, project, phase)))
      else Ends(u, c, m, w.(guard := None), None)
  {
    var validate := RenewValidate(a, project, phase);
    if Names(w.lock, project, w.acqs[a].owner) {
      Moves1(w, c, inc, validate, RenewRead(a, project, phase));
    } else {
      Leaves(w, c, inc, validate);
      LastOne(Host(w, c, inc, validate), c, m, w.(guard := None));
    }
  }

  lemma RenewsHeld(w: World, c: nat, inc: nat, m: Moment, a: nat, project: string, phase: string, v: World)
    requires Fresh(w, c, inc) && w.guard == Some(c) && a in w.acqs
    requires v == if Renewable(w, project, phase, w.acqs[a].owner)
                  then w.(status := Some(w.status.value.(updatedAt := m.ms)), guard := None) else w.(guard := None)
    ensures Ends(Host(w, c, inc, RenewValidate(a, project, phase)), c, m, v, None)
  {
    var owner, validate, read := w.acqs[a].owner, RenewValidate(a, project, phase), RenewRead(a, project, phase);
    RenewValidates(w, c, inc, m, a, project, phase);
    assert Renewable(w, project, phase, owner) ==> Names(w.lock, project, owner) && w.status.Some?;
    hide Ends, Goes, Names, Renewable, Host;
    if Names(w.lock, project, owner) {
      RenewReads(w, c, inc, m, a, project, phase);
      if Renewable(w, project, phase, owner) {
        RenewEnds(w, c, inc, m, a, project, phase);
        OneMore(Host(w, c, inc, read), c, m, Host(w, c, inc, RenewWrite(a, project, phase, w.status.value)), v, None);
      }
      OneMore(Host(w, c, inc, validate), c, m, Host(w, c, inc, read), v, None);
    }
  }

  /** A heartbeat, run alone: it moves the update time of its owner's refreshing status and nothing else, and changes nothing
      if lock file or status say anything different. */
  lemma RenewAlone(w: World, c: nat, inc: nat, m: Moment, a: nat, project: string, phase: string)
    requires Fresh(w, c, inc) && w.guard.None? && Owns(w, inc, a)
    ensures Enabled(true, w, Begin(c, inc, RenewWantGuard(a, project, phase)))
    ensures Ends(Apply(w, Begin(c, inc, RenewWantGuard(a, project, phase))), c, m,
                 if Renewable(w, project, phase, w.acqs[a].owner) then w.(status := Some(w.status.value.(updatedAt := m.ms))) else w, None)
  {
    var pc, validate, held := RenewWantGuard(a, project, phase), RenewValidate(a, project, phase), Held(w, c);
    var owner := w.acqs[a].owner;
    assert Apply(w, Begin(c, inc, pc)) == Host(w, c, inc, pc);
    assert Renewable(held, project, phase, owner) == Renewable(w, project, phase, owner);
    assert Renewable(w, project, phase, owner) ==> w.status.Some?;
    hide Apply, Ends, Goes, Renewable, Host;
    GuardTaken(w, c, inc, m, pc, validate);
    var v := if Renewable(w, project, phase, owner) then w.(status := Some(w.status.value.(updatedAt := m.ms))) else w;
    RenewsHeld(held, c, inc, m, a, project, phase, v);
    OneMore(Host(w, c, inc, pc), c, m, Host(held, c, inc, validate), v, None);
  }

  lemma DropEndsIt(w: World, c: nat, inc: nat, m: Moment, a: nat)
    requires Fresh(w, c, inc) && w.guard == Some(c) && a in w.acqs
    ensures Ends(Host(w, c, inc, DropRemove(a)), c, m, w.(lock := NoLock, acqs := w.acqs[a := w.acqs[a].(handle := Closed)], guard := None), None)
  {
    var v := w.(lock := NoLock, acqs := w.acqs[a := w.acqs[a].(handle := Closed)]);
    Leaves(v, c, inc, DropRemove(a));
    LastOne(Host(w, c, inc, DropRemove(a)), c, m, v.(guard := None));
  }

  lemma DropLooks(w: World, c: nat, inc: nat, m: Moment, a: nat)
    requires Fresh(w, c, inc) && w.guard == Some(c) && a in w.acqs
    ensures var u := Host(w, c, inc, DropRead(a));
      if w.lock.Full? && w.lock.file.token == w.acqs[a].owner.token then Goes(u, c, m, Host(w, c, inc, DropRemove(a)))
      else Ends(u, c, m, w.(acqs := w.acqs[a := w.acqs[a].(handle := Closed)], guard := None), None)
  {
    if w.lock.Full? && w.lock.file.token == w.acqs[a].owner.token {
      Moves1(w, c, inc, DropRead(a), DropRemove(a));
    } else {
      var v := w.(acqs := w.acqs[a := w.acqs[a].(handle := Closed)]);
      Leaves(v, c, inc, DropRead(a));
      LastOne(Host(w, c, inc, DropRead(a)), c, m, v.(guard := None));
    }
  }

  /** Dropping a handle, run alone: the handle is closed, and the lock file is gone exactly if it had the handle's token. */
  lemma DropAlone(w: World, c: nat, inc: nat, m: Moment, a: nat)
    requires Fresh(w, c, inc) && w.guard.None? && Owns(w, inc, a) && w.acqs[a].handle.Open?
    ensures Enabled(true, w, Begin(c, inc, DropWantGuard(a)))
    ensures Ends(Apply(w, Begin(c, inc, DropWantGuard(a))), c, m,
                 w.(lock := if w.lock.Full? && w.lock.file.token == w.acqs[a].owner.token then NoLock else w.lock,
                    acqs := w.acqs[a := w.acqs[a].(handle := Closed)]), None)
  {
    var dropping := w.(acqs := w.acqs[a := w.acqs[a].(handle := Dropping)]);
    var held, closed := Held(dropping, c), w.acqs[a := w.acqs[a].(handle := Closed)];
    var v := w.(lock := if w.lock.Full? && w.lock.file.token == w.acqs[a].owner.token then NoLock else w.lock, acqs := closed);
    assert Apply(w, Begin(c, inc, DropWantGuard(a))) == Host(dropping, c, inc, DropWantGuard(a));
    assert held.acqs[a := held.acqs[a].(handle := Closed)] == closed;
    hide Apply, Ends, Goes, Host;
    GuardTaken(dropping, c, inc, m, DropWantGuard(a), DropRead(a));
    DropLooks(held, c, inc, m, a);
    if w.lock.Full? && w.lock.file.token == w.acqs[a].owner.token {
      DropEndsIt(held, c, inc, m, a);
      OneMore(Host(held, c, inc, DropRead(a)), c, m, Host(held, c, inc, DropRemove(a)), v, None);
    }
    OneMore(Host(dropping, c, inc, DropWantGuard(a)), c, m, Host(held, c, inc, DropRead(a)), v, None);
  }

  // ---------------------------------------------------------------- writing while others move

  ghost predicate NotBegun(ss: seq<Step>, c: nat) {
    forall k :: 0 <= k < |ss| ==> !(ss[k].Begin? && ss[k].call == c)
  }

  /** The call, while it lasts, writes for this handle what it was given. */
  ghost predicate WritesFor(w: World, c: nat, a: nat, project: string, status: string, phase: string, reason: Option<string>) {
    c in w.calls ==>
      var pc := w.calls[c].pc;
      || pc == WriteWantGuard(a, project, status, phase, reason) || pc == WriteValidate(a, project, status, phase, reason)
      || pc == WriteStatus(a, project, status, phase, reason)
  }

  ghost predicate SameCall(w: World, v: World, c: nat) {
    (c in v.calls <==> c in w.calls) && (c in w.calls ==> v.calls[c] == w.calls[c])
  }

  lemma AcquirersLeaveTheCall(w: World, d: nat, env: Env, c: nat)
    requires d in w.calls && d != c
    ensures SameCall(w, AdvanceAcquire(w, d, env), c)
  {
  }

  lemma ReadersLeaveTheCall(w: World, d: nat, env: Env, c: nat)
    requires d in w.calls && d != c
    ensures SameCall(w, AdvanceRead(w, d, env), c) && SameCall(w, AdvanceDrop(w, d, env), c)
  {
  }

  lemma WritersLeaveTheCall(w: World, d: nat, env: Env, c: nat)
    requires d in w.calls && d != c
    ensures SameCall(w, AdvanceWrite(w, d, env), c) && SameCall(w, AdvanceRenew(w, d, env), c)
  {
  }

  lemma OthersLeaveTheCall(w: World, d: nat, env: Env, c: nat)
    requires d in w.calls && d != c
    ensures SameCall(w, Apply(w, Advance(d, env)), c)
  {
    hide AdvanceAcquire, AdvanceRead, AdvanceDrop, AdvanceWrite, AdvanceRenew, SameCall;
    AcquirersLeaveTheCall(w, d, env, c);
    ReadersLeaveTheCall(w, d, env, c);
    WritersLeaveTheCall(w, d, env, c);
  }

  lemma OwnStepKeepsWords(w: World, c: nat, env: Env, a: nat, project: string, status: string, phase: string, reason: Option<string>)
    requires c in w.calls && WritesFor(w, c, a, project, status, phase, reason)
    ensures WritesFor(Apply(w, Advance(c, env)), c, a, project, status, phase, reason)
  {
  }

  lemma StepKeepsWords(w: World, s: Step, c: nat, a: nat, project: string, status: string, phase: string, reason: Option<string>)
    requires Enabled(true, w, s) && !(s.Begin? && s.call == c) && WritesFor(w, c, a, project, status, phase, reason)
    ensures WritesFor(Apply(w, s), c, a, project, status, phase, reason)
  {
    if s.Advance? {
      if s.call == c {
        OwnStepKeepsWords(w, c, s.env, a, project, status, phase, reason);
      } else {
        OthersLeaveTheCall(w, s.call, s.env, c);
      }
    }
  }

  lemma {:induction false} StepsKeepWords(w: World, ss: seq<Step>, v: World, c: nat, a: nat, project: string, status: string, phase: string,
                                          reason: Option<string>)
    requires Reaches(true, w, ss, v) && NotBegun(ss, c) && WritesFor(w, c, a, project, status, phase, reason)
    ensures WritesFor(v, c, a, project, status, phase, reason)
    decreases |ss|
  {
    if ss != [] {
      assert NotBegun(ss[1..], c);
      hide Apply, Enabled, WritesFor;
      assert !(ss[0].Begin? && ss[0].call == c);
      StepKeepsWords(w, ss[0], c, a, project, status, phase, reason);
      StepsKeepWords(Apply(w, ss[0]), ss[1..], v, c, a, project, status, phase, reason);
    }
  }

  /** Whatever happens between the steps of a `write_status`: when its write succeeds, the status file says what the caller
      said, at that time, in the name of the handle. */
  lemma WriteStoresWhatWasSaid(w: World, c: nat, inc: nat, a: nat, project: string, status: string, phase: string, reason: Option<string>,
                               ss: seq<Step>, v: World, env: Env)
    requires Reachable(w) && Enabled(true, w, Begin(c, inc, WriteWantGuard(a, project, status, phase, reason)))
    requires Reaches(true, Apply(w, Begin(c, inc, WriteWantGuard(a, project, status, phase, reason))), ss, v) && NotBegun(ss, c)
    requires c in v.calls && OperationOf(v.calls[c].pc).Writing? && Enabled(true, v, Advance(c, env))
    requires (v.calls[c].pc.WriteStatus? && env.ok) || Apply(v, Advance(c, env)).status != v.status
    ensures var st := Apply(v, Advance(c, env)).status;
      && Owns(v, v.calls[c].inc, a) && Names(v.lock, project, v.acqs[a].owner)
      && st.Some? && Tells(st.value, project, status, phase, v.acqs[a].owner, env.ms, reason)
  {
    var begin := Begin(c, inc, WriteWantGuard(a, project, status, phase, reason));
    BegunWell(w, begin);
    assert WritesFor(Apply(w, begin), c, a, project, status, phase, reason);
    StepsKeepInv(Apply(w, begin), ss, v);
    StepsKeepWords(Apply(w, begin), ss, v, c, a, project, status, phase, reason);
    CallOf(v, c);
    hide Reaches, Reachable, Inv, Enabled, Apply;
    WriteSays(v, c, env, a, project, status, phase, reason);
  }

  lemma WriteSays(v: World, c: nat, env: Env, a: nat, project: string, status: string, phase: string, reason: Option<string>)
    requires c in v.calls && PcOk(v, v.calls[c].inc, v.calls[c].pc) && WritesFor(v, c, a, project, status, phase, reason)
    requires (v.calls[c].pc.WriteStatus? && env.ok) || Apply(v, Advance(c, env)).status != v.status
    ensures var st := Apply(v, Advance(c, env)).status;
      && Owns(v, v.calls[c].inc, a) && Names(v.lock, project, v.acqs[a].owner)
      && st.Some? && Tells(st.value, project, status, phase, v.acqs[a].owner, env.ms, reason)
  {
  }

  lemma BegunWell(w: World, begin: Step)
    requires Reachable(w) && Enabled(true, w, begin)
    ensures Inv(Apply(w, begin))
  {
    ReachableInv(w);
    StepKeepsInv(w, begin);
  }
}

/** The promises of the local refresh protocol, over every run of any number of processes. */
module LocalRefreshTheorems {
  import opened Options
  import opened LocalRefresh
  import opened LocalRefreshSafety

  lemma {:induction false} StepsKeepInv(w: World, ss: seq<Step>, v: World)
    requires Inv(w) && Reaches(true, w, ss, v)
    ensures Inv(v)
    decreases |ss|
  {
    if ss != [] {
      StepKeepsInv(w, ss[0]);
      StepsKeepInv(Apply(w, ss[0]), ss[1..], v);
    }
  }

  lemma ReachableInv(v: World)
    requires Reachable(v)
    ensures Inv(v)
  {
    var w, ss :| Init(w) && Reaches(true, w, ss, v);
    StepsKeepInv(w, ss, v);
  }

  /** The lock file names exactly this owner and project. */
  ghost predicate Names(lock: LockEntry, project: string, owner: Owner) {
    lock.Full? && lock.file == LockFile(1, project, owner.pid, owner.startIdentity, owner.startedAt, owner.token)
  }

  /** A status of this owner, in its own fields. */
  ghost predicate Tells(st: Status, project: string, status: string, phase: string, owner: Owner, ms: nat, reason: Option<string>) {
    && st.schemaVersion == 1 && st.status == status && st.projectRoot == project && st.phase == phase
    && st.pid == owner.pid && st.startIdentity == owner.startIdentity && st.ownerToken == Some(owner.token)
    && st.startedAt == owner.startedAt && st.updatedAt == ms && st.lastFailureReason == reason
  }

  /** At most one live process holds a handle, and the lock file names exactly that handle's owner. */
  lemma SingleFlight(w: World, a: nat, b: nat)
    requires Reachable(w)
    requires HandleLive(w, a) && HandleLive(w, b)
    ensures a == b && w.acqs[a].inc in w.live
    ensures w.lock.Full? && w.lock.maker == a
    ensures Names(w.lock, w.acqs[a].project, w.acqs[a].owner)
  {
    ReachableInv(w);
    assert AcqOk(w, a) && AcqOk(w, b);
  }

  /** While a handle is live its lock file changes in one way only: the handle's own drop removes it.
      Reclaim, other acquirers, other drops, crashes and pid reuse never touch it. */
  lemma LiveLockRemovedOnlyByItsOwnDrop(w: World, s: Step, a: nat)
    requires Reachable(w) && Enabled(true, w, s)
    requires HandleLive(w, a) && Apply(w, s).lock != w.lock
    ensures s.Advance? && s.call in w.calls && w.calls[s.call].pc == DropRemove(a)
    ensures Apply(w, s).lock.NoLock? && !HandleLive(Apply(w, s), a)
  {
    ReachableInv(w);
    if s.Advance? {
      match OperationOf(w.calls[s.call].pc)
      case TryAcquire => AcquireLeavesLock(w, s.call, s.env, a);
      case Releasing => DropChangesLock(w, s.call, s.env, a);
      case _ => OthersLeaveLock(w, s.call, s.env);
    }
  }

  lemma OthersLeaveLock(w: World, c: nat, env: Env)
    requires c in w.calls
    ensures AdvanceRead(w, c, env).lock == AdvanceWrite(w, c, env).lock == AdvanceRenew(w, c, env).lock == w.lock
  {
  }

  lemma AcquireLeavesLock(w: World, c: nat, env: Env, a: nat)
    requires Inv(w) && c in w.calls && HandleLive(w, a)
    ensures AdvanceAcquire(w, c, env).lock == w.lock
  {
    assert AcqOk(w, a);
    assert PcOk(w, w.calls[c].inc, w.calls[c].pc);
  }

  lemma DropChangesLock(w: World, c: nat, env: Env, a: nat)
    requires Inv(w) && c in w.calls && HandleLive(w, a)
    requires AdvanceDrop(w, c, env).lock != w.lock
    ensures w.calls[c].pc == DropRemove(a)
    ensures AdvanceDrop(w, c, env).lock.NoLock? && !HandleLive(AdvanceDrop(w, c, env), a)
  {
    assert AcqOk(w, a);
    assert PcOk(w, w.calls[c].inc, w.calls[c].pc);
  }

  /** A drop that is about to remove the lock file removes the file its own acquisition wrote. */
  lemma DropRemovesOnlyItsOwnLock(w: World, c: nat)
    requires Reachable(w)
    requires c in w.calls && w.calls[c].pc.DropRemove?
    ensures w.lock.Full? && w.lock.maker == w.calls[c].pc.acq
    ensures forall b :: HandleLive(w, b) ==> b == w.calls[c].pc.acq
  {
    ReachableInv(w);
    assert PcOk(w, w.calls[c].inc, w.calls[c].pc);
    forall b | HandleLive(w, b) ensures b == w.lock.maker { assert AcqOk(w, b); }
  }

  /** The second `AlreadyExists` branch is dead once the stale file was removed. */
  lemma SecondCreateFindsNoLock(w: World, c: nat)
    requires Reachable(w)
    requires c in w.calls && w.calls[c].pc.AcqCreate?
    requires w.calls[c].pc.second && w.calls[c].pc.removed
    ensures w.lock.NoLock?
  {
    ReachableInv(w);
    assert PcOk(w, w.calls[c].inc, w.calls[c].pc);
  }

  ghost predicate IsStatusWrite(pc: Pc, a: nat, project: string) {
    || (pc.WriteStatus? && pc.acq == a && pc.project == project)
    || (pc.RenewWrite? && pc.acq == a && pc.project == project)
  }

  /** What the step of a status writer leaves in the status file. */
  ghost predicate Says(pc: Pc, before: Option<Status>, st: Status, owner: Owner, ms: nat) {
    match pc
    case WriteStatus(_, project, status, phase, reason) => Tells(st, project, status, phase, owner, ms, reason)
    case RenewWrite(_, _, _, _) => before.Some? && before.value.status == "refreshing" && st == before.value.(updatedAt := ms)
    case _ => false
  }

  /** Whenever the status file changes, the lock file names the writer and the writer made it; so a paused
      writer never overwrites a replacement owner. It says what the writer was given, or moves the update time. */
  lemma StatusWriterOwnsTheLock(w: World, s: Step)
    requires Reachable(w) && Enabled(true, w, s) && Apply(w, s).status != w.status
    ensures s.Advance? && s.call in w.calls
    ensures exists a, project ::
              && IsStatusWrite(w.calls[s.call].pc, a, project)
              && a in w.acqs && w.acqs[a].inc == w.calls[s.call].inc
              && Names(w.lock, project, w.acqs[a].owner)
              && w.lock.maker == a
              && Apply(w, s).status.Some?
              && Says(w.calls[s.call].pc, w.status, Apply(w, s).status.value, w.acqs[a].owner, s.env.ms)
              && (forall b :: HandleLive(w, b) ==> b == a)
  {
    ReachableInv(w);
    assert s.Advance?;
    StatusChangers(w, s.call, s.env);
    WriterFacts(w, s.call, s.env);
    WriterSays(w, s.call, s.env);
    var pc := w.calls[s.call].pc;
    hide Inv, Reachable, Apply, Enabled;
    assert IsStatusWrite(pc, pc.acq, pc.project);
  }

  lemma WriterFacts(w: World, c: nat, env: Env)
    requires Inv(w) && c in w.calls
    requires w.calls[c].pc.WriteStatus? || w.calls[c].pc.RenewWrite?
    ensures var pc := w.calls[c].pc;
            && pc.acq in w.acqs && w.acqs[pc.acq].inc == w.calls[c].inc
            && Names(w.lock, pc.project, w.acqs[pc.acq].owner) && w.lock.maker == pc.acq
            && forall b :: HandleLive(w, b) ==> b == pc.acq
  {
    CallOf(w, c);
    forall b | HandleLive(w, b) ensures b == w.calls[c].pc.acq { assert AcqOk(w, b); }
  }

  lemma WriterSays(w: World, c: nat, env: Env)
    requires Inv(w) && c in w.calls
    requires var pc := w.calls[c].pc; (pc.WriteStatus? || pc.RenewWrite?) && Apply(w, Advance(c, env)).status != w.status
    ensures var pc, st := w.calls[c].pc, Apply(w, Advance(c, env)).status;
            pc.acq in w.acqs && st.Some? && Says(pc, w.status, st.value, w.acqs[pc.acq].owner, env.ms)
  {
    CallOf(w, c);
  }

  lemma StatusChangers(w: World, c: nat, env: Env)
    requires c in w.calls && Apply(w, Advance(c, env)).status != w.status
    ensures w.calls[c].pc.WriteStatus? || w.calls[c].pc.RenewWrite?
  {
    AcquireLeavesStatus(w, c, env);
    ReadAndDropLeaveStatus(w, c, env);
  }

  lemma AcquireLeavesStatus(w: World, c: nat, env: Env)
    requires c in w.calls
    ensures AdvanceAcquire(w, c, env).status == w.status
  {
  }

  lemma ReadAndDropLeaveStatus(w: World, c: nat, env: Env)
    requires c in w.calls
    ensures AdvanceRead(w, c, env).status == AdvanceDrop(w, c, env).status == w.status
  {
  }

  /** A renewal whose write succeeds moves `updatedAt`, and no renewal does anything else: only of a refreshing status, so a
      terminal status stays. */
  lemma RenewalKeepsTerminalStatus(w: World, s: Step)
    requires Reachable(w) && Enabled(true, w, s)
    requires s.Advance? && s.call in w.calls
    requires OperationOf(w.calls[s.call].pc).Renewing?
    ensures var moved := w.calls[s.call].pc.RenewWrite? && s.env.ok;
            moved || Apply(w, s).status != w.status ==>
              && w.status.Some? && w.status.value.status == "refreshing"
              && Apply(w, s).status == Some(w.status.value.(updatedAt := s.env.ms))
  {
    ReachableInv(w);
    assert PcOk(w, w.calls[s.call].inc, w.calls[s.call].pc);
  }

  /** What an unguarded read returns in this step, if it returns a status. */
  ghost function Returned(w: World, s: Step): Option<Status> {
    if s.Advance? && s.call in w.calls then
      match w.calls[s.call].pc
      case ReadProbe(_, None, read) =>
        if !OwnerStateOf(s.env.probe, read.startIdentity).GoneOrReused? && read.ownerToken.None? then Some(read) else None
      case ReadLock(project, None, read) =>
        if StatusMatchesLock(read, w.lock, project) then Some(read) else None
      case _ => None
    else None
  }

  /** Whether or not its owner still lives, a tokened status is returned only while the lock file names that owner. */
  lemma TokenedStatusMatchesTheLock(w: World, s: Step)
    requires Reachable(w) && Enabled(true, w, s)
    requires var r := Returned(w, s); r.Some? && r.value.ownerToken.Some?
    ensures var r := Returned(w, s).value;
            && r.status == "refreshing" && w.lock.Full?
            && r.ownerToken == Some(w.lock.file.token) && r.pid == w.lock.file.pid
            && r.startIdentity == w.lock.file.startIdentity && r.startedAt == w.lock.file.startedAt
            && r.projectRoot == w.lock.file.projectRoot
  {
    ReachableInv(w);
    assert PcOk(w, w.calls[s.call].inc, w.calls[s.call].pc);
  }

  /** A reader that returns a tokened status returns the status of the lock's owner: if any handle is live
      at that moment, it is the status's own. */
  lemma ReaderReportsTheOwner(w: World, s: Step, a: nat)
    requires Reachable(w) && Enabled(true, w, s)
    requires var r := Returned(w, s); r.Some? && r.value.ownerToken.Some?
    requires HandleLive(w, a)
    ensures var r, owner := Returned(w, s).value, w.acqs[a].owner;
            && r.status == "refreshing"
            && r.ownerToken == Some(owner.token) && r.pid == owner.pid
            && r.startIdentity == owner.startIdentity && r.startedAt == owner.startedAt
            && r.projectRoot == w.acqs[a].project
  {
    ReachableInv(w);
    assert AcqOk(w, a);
    TokenedStatusMatchesTheLock(w, s);
  }

  // ---------------------------------------------------------------- recovery from a dead owner

  predicate LooksLike(process: Process, found: LockFile) {
    process.pid == found.pid && (found.startIdentity.None? || found.startIdentity == Some(process.startIdentity))
  }

  /** Some running process looks like the owner named in the lock file: its pid, and its start identity if one is recorded. */
  ghost predicate OwnerSeemsAlive(w: World, found: LockFile) {
    exists i :: i in w.live && i in w.procs && LooksLike(w.procs[i], found)
  }

  /** Steps of call `c` alone lead to a live handle with this owner. */
  ghost predicate Obtains(w: World, c: nat, owner: Owner) {
    exists ss, v :: OwnSteps(c, ss) && Reaches(true, w, ss, v) && NewHandle(w, v, owner)
  }

  ghost predicate OwnSteps(c: nat, ss: seq<Step>) {
    forall k :: 0 <= k < |ss| ==> ss[k].Advance? && ss[k].call == c
  }

  ghost predicate NewHandle(w: World, v: World, owner: Owner) {
    exists a :: a !in w.acqs && HandleLive(v, a) && v.acqs[a].owner == owner
  }

  /** A faithful probe can call the owner gone exactly if no running process looks like it. */
  lemma GoneIffNobodyLooksAlike(w: World, found: LockFile)
    requires ProcsOk(w)
    ensures (exists probe :: Faithful(w, found.pid, probe) && OwnerStateOf(probe, found.startIdentity).GoneOrReused?)
            <==> !OwnerSeemsAlive(w, found)
  {
    if !OwnerSeemsAlive(w, found) {
      if i :| i in w.live && i in w.procs && w.procs[i].pid == found.pid {
        var probe := Running(w.procs[i].startIdentity);
        assert w.procs[i] == Process(found.pid, probe.startIdentity);
        assert Faithful(w, found.pid, probe) && OwnerStateOf(probe, found.startIdentity).GoneOrReused?;
      } else {
        assert Faithful(w, found.pid, NotRunning) && OwnerStateOf(NotRunning, found.startIdentity).GoneOrReused?;
      }
    }
    forall probe | OwnerSeemsAlive(w, found) && Faithful(w, found.pid, probe)
      ensures !OwnerStateOf(probe, found.startIdentity).GoneOrReused?
    {
      SeemingAliveIsNotGone(w, found, probe);
    }
  }

  lemma SeemingAliveIsNotGone(w: World, found: LockFile, probe: ProcessStartProbe)
    requires ProcsOk(w) && Faithful(w, found.pid, probe) && OwnerSeemsAlive(w, found)
    ensures !OwnerStateOf(probe, found.startIdentity).GoneOrReused?
  {
  }

  ghost predicate StrictlyMoves(w: World, s: Step, v: World) {
    Enabled(true, w, s) && Apply(w, s) == v
  }

  lemma StepFirst(w: World, s: Step, u: World, ss: seq<Step>, v: World)
    requires StrictlyMoves(w, s, u) && Reaches(true, u, ss, v)
    ensures Reaches(true, w, [s] + ss, v)
  {
    assert ([s] + ss)[1..] == ss;
  }

  function Reclaim(c: nat): Step {
    Advance(c, Env(0, ProbeUnknown, true, false))
  }

  lemma RemovesStale(w: World, c: nat, project: string, owner: Owner)
    requires c in w.calls && w.calls[c].inc in w.procs && w.calls[c].pc == AcqRemove(project, owner)
    ensures StrictlyMoves(w, Reclaim(c), Goto(w.(lock := NoLock), c, AcqCreate(project, owner, true, true)))
  {
  }

  lemma CreatesAgain(w: World, c: nat, project: string, owner: Owner)
    requires c in w.calls && w.calls[c].inc in w.procs && w.calls[c].pc == AcqCreate(project, owner, true, true) && w.lock.NoLock?
    ensures StrictlyMoves(w, Reclaim(c), Goto(w.(lock := Partial), c, AcqWrite(project, owner)))
  {
  }

  lemma WritesOwner(w: World, c: nat, project: string, owner: Owner)
    requires c in w.calls && w.calls[c].inc in w.procs && w.calls[c].pc == AcqWrite(project, owner)
    ensures var v := Apply(w, Reclaim(c));
      && StrictlyMoves(w, Reclaim(c), v)
      && w.nextAcq in v.acqs && v.acqs[w.nextAcq] == Acquisition(w.calls[c].inc, owner, project, Open)
  {
  }

  /** After the probe: remove, create, write. */
  lemma ReclaimPath(w: World, c: nat, project: string, owner: Owner) returns (ss: seq<Step>, v: World)
    requires c in w.calls && w.calls[c].inc in w.procs && w.calls[c].pc == AcqRemove(project, owner)
    ensures OwnSteps(c, ss) && Reaches(true, w, ss, v) && w.nextAcq in v.acqs
    ensures v.acqs[w.nextAcq] == Acquisition(w.calls[c].inc, owner, project, Open)
  {
    var s := Reclaim(c);
    var u1 := Goto(w.(lock := NoLock), c, AcqCreate(project, owner, true, true));
    var u2 := Goto(u1.(lock := Partial), c, AcqWrite(project, owner));
    v := Apply(u2, s);
    RemovesStale(w, c, project, owner);
    CreatesAgain(u1, c, project, owner);
    WritesOwner(u2, c, project, owner);
    assert Reaches(true, v, [], v);
    hide StrictlyMoves, Reaches, Apply;
    StepFirst(u2, s, v, [], v);
    StepFirst(u1, s, u2, [s] + [], v);
    StepFirst(w, s, u1, [s] + ([s] + []), v);
    ss := [s] + ([s] + ([s] + []));
  }

  /** An acquirer that found a lock file, and probes its owner, can come to a live handle by its own steps exactly if no
      running process looks like that owner. A dead owner blocks it only while its pid belongs to another process and no
      start identity, or an equal one, was recorded. */
  lemma AcquirerRecoversIff(w: World, c: nat, project: string, owner: Owner, found: LockFile)
    requires Reachable(w) && c in w.calls && w.calls[c].pc == AcqProbe(project, owner, found)
    ensures Obtains(w, c, owner) <==> !OwnerSeemsAlive(w, found)
  {
    ReachableInv(w);
    GoneIffNobodyLooksAlike(w, found);
    assert ProcsOk(w);
    hide Reaches, Inv, OwnSteps, NewHandle, OwnerSeemsAlive;
    if OwnerSeemsAlive(w, found) {
      forall ss, v | OwnSteps(c, ss) && Reaches(true, w, ss, v)
        ensures !NewHandle(w, v, owner)
      {
        GivesUp(w, c, project, owner, found, ss, v);
      }
    } else {
      var probe :| Faithful(w, found.pid, probe) && OwnerStateOf(probe, found.startIdentity).GoneOrReused?;
      Recovers(w, c, project, owner, found, probe);
    }
  }

  lemma ProbeMoves(w: World, c: nat, project: string, owner: Owner, found: LockFile, probe: ProcessStartProbe)
    requires c in w.calls && w.calls[c].inc in w.procs && w.calls[c].pc == AcqProbe(project, owner, found)
    requires Faithful(w, found.pid, probe) && OwnerStateOf(probe, found.startIdentity).GoneOrReused?
    ensures StrictlyMoves(w, Advance(c, Env(0, probe, true, false)), Goto(w, c, AcqRemove(project, owner)))
  {
  }

  lemma FreshNumber(w: World, c: nat)
    requires Inv(w) && c in w.calls
    ensures w.calls[c].inc in w.procs && w.nextAcq !in w.acqs
  {
    assert w.nextAcq in w.acqs ==> AcqOk(w, w.nextAcq);
  }

  lemma Recovers(w: World, c: nat, project: string, owner: Owner, found: LockFile, probe: ProcessStartProbe)
    requires Inv(w) && c in w.calls && w.calls[c].pc == AcqProbe(project, owner, found)
    requires Faithful(w, found.pid, probe) && OwnerStateOf(probe, found.startIdentity).GoneOrReused?
    ensures Obtains(w, c, owner)
  {
    hide Inv, Reaches, StrictlyMoves;
    FreshNumber(w, c);
    ProbeMoves(w, c, project, owner, found, probe);
    var s, u := Advance(c, Env(0, probe, true, false)), Goto(w, c, AcqRemove(project, owner));
    var ss, v := ReclaimPath(u, c, project, owner);
    StepFirst(w, s, u, ss, v);
    assert HandleLive(v, w.nextAcq);
    assert OwnSteps(c, [s] + ss) && NewHandle(w, v, owner);
  }

  /** A call that returned takes no more steps. */
  lemma NoMoreSteps(w: World, c: nat, ss: seq<Step>, v: World)
    requires c !in w.calls && OwnSteps(c, ss) && Reaches(true, w, ss, v)
    ensures v == w
  {
  }

  lemma ProbeFails(w: World, c: nat, project: string, owner: Owner, found: LockFile, s: Step)
    requires ProcsOk(w) && OwnerSeemsAlive(w, found) && s.Advance? && s.call == c && Enabled(true, w, s)
    requires w.calls[c].pc == AcqProbe(project, owner, found)
    ensures Apply(w, s) == End(w, c)
  {
    SeemingAliveIsNotGone(w, found, s.env.probe);
  }

  lemma GivesUp(w: World, c: nat, project: string, owner: Owner, found: LockFile, ss: seq<Step>, v: World)
    requires ProcsOk(w) && c in w.calls && w.calls[c].pc == AcqProbe(project, owner, found) && OwnerSeemsAlive(w, found)
    requires OwnSteps(c, ss) && Reaches(true, w, ss, v)
    ensures !NewHandle(w, v, owner)
  {
    hide Apply, Enabled, ProcsOk, OwnerSeemsAlive;
    if ss != [] {
      ProbeFails(w, c, project, owner, found, ss[0]);
      NoMoreSteps(End(w, c), c, ss[1..], v);
    }
  }

  // A run in which a dead owner blocks the next acquirer: the owner could not record its start identity and crashed, and
  // another process got its pid.

  const LONE_OWNER := Owner(OwnerToken(7, 5), 7, None, 5)
  const NEXT_OWNER := Owner(OwnerToken(8, 6), 8, None, 6)
  const NOBODY_YET := World(map[0 := Process(7, "s")], {0}, None, NoLock, None, map[], map[], 0, {})
  const OWNER_HOLDS := NOBODY_YET.(lock := Full(LockFileFor("p", LONE_OWNER), 0), nextAcq := 1,
                                   acqs := map[0 := Acquisition(0, LONE_OWNER, "p", Open)], used := {(0, 5)})
  const OWNER_DIED := OWNER_HOLDS.(live := {}, acqs := map[])
  const PID_REUSED := OWNER_DIED.(procs := map[0 := Process(7, "s"), 1 := Process(7, "t")], live := {1})
  const NEXT_ARRIVES := PID_REUSED.(procs := PID_REUSED.procs[2 := Process(8, "u")], live := {1, 2})

  function Blindly(c: nat, ms: nat): Step {
    Advance(c, Env(ms, ProbeUnknown, true, false))
  }

  function Acquiring(pc: Pc): World {
    NOBODY_YET.(calls := map[0 := Call(0, pc)], guard := if HoldsGuard(pc) then Some(0) else None)
  }

  function Following(pc: Pc): World {
    NEXT_ARRIVES.(calls := map[1 := Call(2, pc)], guard := if HoldsGuard(pc) then Some(1) else None)
  }

  const OWNER_CREATED := Acquiring(AcqCreate("p", LONE_OWNER, false, false))
  const OWNER_WRITES := Acquiring(AcqWrite("p", LONE_OWNER)).(lock := Partial)
  const NEXT_PROBES := Following(AcqProbe("p", NEXT_OWNER, LockFileFor("p", LONE_OWNER)))

  lemma OwnerBegins()
    ensures StrictlyMoves(NOBODY_YET, Begin(0, 0, AcqWantGuard("p")), Acquiring(AcqWantGuard("p")))
  {
  }

  lemma OwnerEnters()
    ensures StrictlyMoves(Acquiring(AcqWantGuard("p")), Blindly(0, 5), OWNER_CREATED)
  {
  }

  lemma OwnerCreates()
    ensures StrictlyMoves(OWNER_CREATED, Blindly(0, 5), OWNER_WRITES)
  {
  }

  lemma OwnerHolds()
    ensures StrictlyMoves(OWNER_WRITES, Blindly(0, 5), OWNER_HOLDS)
  {
  }

  lemma OwnerDies()
    ensures StrictlyMoves(OWNER_HOLDS, Crash(0), OWNER_DIED)
  {
  }

  lemma OthersStart()
    ensures StrictlyMoves(OWNER_DIED, Spawn(1, Process(7, "t")), PID_REUSED)
    ensures StrictlyMoves(PID_REUSED, Spawn(2, Process(8, "u")), NEXT_ARRIVES)
  {
  }

  lemma NextBegins()
    ensures StrictlyMoves(NEXT_ARRIVES, Begin(1, 2, AcqWantGuard("p")), Following(AcqWantGuard("p")))
  {
  }

  lemma NextEnters()
    ensures StrictlyMoves(Following(AcqWantGuard("p")), Blindly(1, 6), Following(AcqCreate("p", NEXT_OWNER, false, false)))
  {
  }

  lemma NextFindsTheLock()
    ensures StrictlyMoves(Following(AcqCreate("p", NEXT_OWNER, false, false)), Blindly(1, 6), Following(ReadStatus("p", Some(NEXT_OWNER), 6)))
  {
  }

  lemma NextFindsNoStatus()
    ensures StrictlyMoves(Following(ReadStatus("p", Some(NEXT_OWNER), 6)), Blindly(1, 6), Following(AcqStale("p", NEXT_OWNER)))
  {
  }

  lemma NextReadsTheLock()
    ensures StrictlyMoves(Following(AcqStale("p", NEXT_OWNER)), Blindly(1, 6), NEXT_PROBES)
  {
  }

  lemma BlockingRun()
    ensures Reachable(NEXT_PROBES)
  {
    hide StrictlyMoves, Reaches, Reachable;
    OthersStart();
    NextBegins();
    NextEnters();
    NextFindsTheLock();
    NextFindsNoStatus();
    NextReadsTheLock();
    var v := NEXT_PROBES;
    NoSteps(v);
    var b1, b2 := [Blindly(1, 6)] + [], [Blindly(1, 6)] + ([Blindly(1, 6)] + []);
    StepFirst(Following(AcqStale("p", NEXT_OWNER)), Blindly(1, 6), v, [], v);
    StepFirst(Following(ReadStatus("p", Some(NEXT_OWNER), 6)), Blindly(1, 6), Following(AcqStale("p", NEXT_OWNER)), b1, v);
    StepFirst(Following(AcqCreate("p", NEXT_OWNER, false, false)), Blindly(1, 6), Following(ReadStatus("p", Some(NEXT_OWNER), 6)), b2, v);
    var b3 := [Blindly(1, 6)] + b2;
    StepFirst(Following(AcqWantGuard("p")), Blindly(1, 6), Following(AcqCreate("p", NEXT_OWNER, false, false)), b3, v);
    var b4 := [Blindly(1, 6)] + b3;
    StepFirst(NEXT_ARRIVES, Begin(1, 2, AcqWantGuard("p")), Following(AcqWantGuard("p")), b4, v);
    var b5 := [Begin(1, 2, AcqWantGuard("p"))] + b4;
    StepFirst(PID_REUSED, Spawn(2, Process(8, "u")), NEXT_ARRIVES, b5, v);
    var b6 := [Spawn(2, Process(8, "u"))] + b5;
    StepFirst(OWNER_DIED, Spawn(1, Process(7, "t")), PID_REUSED, b6, v);
    BlockingStart([Spawn(1, Process(7, "t"))] + b6);
  }

  lemma BlockingStart(ss: seq<Step>)
    requires Reaches(true, OWNER_DIED, ss, NEXT_PROBES)
    ensures Reachable(NEXT_PROBES)
  {
    hide StrictlyMoves, Reaches, Reachable;
    OwnerBegins();
    OwnerEnters();
    OwnerCreates();
    OwnerHolds();
    OwnerDies();
    var v := NEXT_PROBES;
    StepFirst(OWNER_HOLDS, Crash(0), OWNER_DIED, ss, v);
    var b1 := [Crash(0)] + ss;
    StepFirst(OWNER_WRITES, Blindly(0, 5), OWNER_HOLDS, b1, v);
    var b2 := [Blindly(0, 5)] + b1;
    StepFirst(OWNER_CREATED, Blindly(0, 5), OWNER_WRITES, b2, v);
    var b3 := [Blindly(0, 5)] + b2;
    StepFirst(Acquiring(AcqWantGuard("p")), Blindly(0, 5), OWNER_CREATED, b3, v);
    var b4 := [Blindly(0, 5)] + b3;
    StepFirst(NOBODY_YET, Begin(0, 0, AcqWantGuard("p")), Acquiring(AcqWantGuard("p")), b4, v);
    ReachedFromNobody([Begin(0, 0, AcqWantGuard("p"))] + b4, v);
  }

  lemma NoSteps(w: World)
    ensures Reaches(true, w, [], w)
  {
  }

  lemma ReachedFromNobody(ss: seq<Step>, v: World)
    requires Reaches(true, NOBODY_YET, ss, v)
    ensures Reachable(v)
  {
    assert Init(NOBODY_YET);
  }

  /** A dead owner can block its successors: the acquirer has found the dead owner's lock, and none of its own steps leads to a
      handle, because the pid lives on in another process and no start identity was recorded. */
  lemma DeadOwnerBlocks()
    ensures Reachable(NEXT_PROBES) && NEXT_PROBES.calls[1].pc == AcqProbe("p", NEXT_OWNER, LockFileFor("p", LONE_OWNER))
    ensures NEXT_PROBES.acqs == map[] && 0 !in NEXT_PROBES.live && !Obtains(NEXT_PROBES, 1, NEXT_OWNER)
  {
    BlockingRun();
    hide Reachable, Obtains;
    assert LooksLike(NEXT_PROBES.procs[1], LockFileFor("p", LONE_OWNER));
    AcquirerRecoversIff(NEXT_PROBES, 1, "p", NEXT_OWNER, LockFileFor("p", LONE_OWNER));
  }

  // ---------------------------------------------------------------- why the clock hypothesis is needed

  /** The clock reading of every step of the scene, and its one process. */
  function Go(c: nat): Step { Advance(c, Env(5, Running("s"), true, false)) }

  function Tuple(pid: nat): Owner { Owner(OwnerToken(pid, 5), pid, Some("s"), 5) }

  function Refreshing(pid: nat): Status { StatusFor("p", "refreshing", "x", Tuple(pid), 5, None) }

  ghost predicate Moves(w: World, s: Step, v: World) {
    Enabled(false, w, s) && Apply(w, s) == v
  }

  ghost predicate Leads(w: World, v: World) {
    exists ss :: Reaches(false, w, ss, v)
  }

  lemma LeadsOn(u: World, v: World, w: World)
    requires Leads(u, v) && Leads(v, w)
    ensures Leads(u, w)
  {
    var ss :| Reaches(false, u, ss, v);
    var tt :| Reaches(false, v, tt, w);
    PathsJoin(u, ss, v, tt, w);
  }

  lemma FourSteps(w: World, first: Step, next: Step, u1: World, u2: World, u3: World, v: World)
    requires Moves(w, first, u1) && Moves(u1, next, u2) && Moves(u2, next, u3) && Moves(u3, next, v)
    ensures Leads(w, v)
  {
    assert [first, next, next, next][1..] == [next, next, next];
    assert [next, next, next][1..] == [next, next];
    assert [next, next][1..] == [next];
    assert [next][1..] == [];
    assert Reaches(false, v, [], v);
    assert Reaches(false, u3, [next], v);
    assert Reaches(false, u2, [next, next], v);
    assert Reaches(false, u1, [next, next, next], v);
    assert Reaches(false, w, [first, next, next, next], v);
  }

  lemma {:induction false} PathsJoin(u: World, ss: seq<Step>, v: World, tt: seq<Step>, w: World)
    requires Reaches(false, u, ss, v) && Reaches(false, v, tt, w)
    ensures Reaches(false, u, ss + tt, w)
    decreases |ss|
  {
    if ss == [] {
      assert ss + tt == tt;
    } else {
      PathsJoin(Apply(u, ss[0]), ss[1..], v, tt, w);
      assert (ss + tt)[1..] == ss[1..] + tt;
    }
  }

  ghost predicate Alone(w: World, pid: nat) {
    w.procs == map[0 := Process(pid, "s")] && w.live == {0} && w.guard.None?
  }

  function At(w: World, c: nat, pc: Pc): World { w.(calls := w.calls[c := Call(0, pc)]) }

  function Inside(w: World, c: nat, pc: Pc): World { At(w, c, pc).(guard := Some(c)) }

  function WithNewHandle(w: World, pid: nat): World {
    w.(lock := Full(LockFileFor("p", Tuple(pid)), w.nextAcq), nextAcq := w.nextAcq + 1,
       acqs := w.acqs[w.nextAcq := Acquisition(0, Tuple(pid), "p", Open)], used := w.used + {(0, 5)})
  }

  lemma TakesGuard(w: World, c: nat, waiting: Pc, next: Pc)
    requires w.guard.None? && c !in w.calls && 0 in w.procs
    requires (waiting.WriteWantGuard? && next == WriteValidate(waiting.acq, waiting.project, waiting.status, waiting.phase, waiting.reason))
          || (waiting.RenewWantGuard? && next == RenewValidate(waiting.acq, waiting.project, waiting.phase))
          || (waiting.DropWantGuard? && next == DropRead(waiting.acq))
    ensures Moves(At(w, c, waiting), Go(c), Inside(w, c, next))
  {
    assert At(w, c, waiting).calls[c := Call(0, next)] == w.calls[c := Call(0, next)];
  }

  lemma TakesGuardToAcquire(w: World, c: nat, pid: nat)
    requires Alone(w, pid) && c !in w.calls
    ensures Moves(At(w, c, AcqWantGuard("p")), Go(c), Inside(w, c, AcqCreate("p", Tuple(pid), false, false)))
  {
    var next := AcqCreate("p", Tuple(pid), false, false);
    assert w.procs[0] == Process(pid, "s");
    assert At(w, c, AcqWantGuard("p")).calls[c := Call(0, next)] == w.calls[c := Call(0, next)];
  }

  lemma Moved(w: World, c: nat, pc: Pc, next: Pc)
    requires c !in w.calls
    ensures Goto(Inside(w, c, pc), c, next) == Inside(w, c, next)
  {
    assert w.calls[c := Call(0, pc)][c := Call(0, next)] == w.calls[c := Call(0, next)];
  }

  lemma Finished(w: World, c: nat, pc: Pc)
    requires c !in w.calls && w.guard.None?
    ensures End(Inside(w, c, pc), c) == w
  {
    assert w.calls[c := Call(0, pc)] - {c} == w.calls;
  }

  lemma CreatesLock(w: World, c: nat, pid: nat)
    requires Alone(w, pid) && w.lock.NoLock? && c !in w.calls
    ensures Moves(Inside(w, c, AcqCreate("p", Tuple(pid), false, false)), Go(c), Inside(w.(lock := Partial), c, AcqWrite("p", Tuple(pid))))
  {
    Moved(w.(lock := Partial), c, AcqCreate("p", Tuple(pid), false, false), AcqWrite("p", Tuple(pid)));
  }

  lemma WritesLock(w: World, c: nat, pid: nat)
    requires Alone(w, pid) && c !in w.calls
    ensures Moves(Inside(w.(lock := Partial), c, AcqWrite("p", Tuple(pid))), Go(c), WithNewHandle(w, pid))
  {
    Finished(WithNewHandle(w, pid), c, AcqWrite("p", Tuple(pid)));
  }

  lemma BeginsAcquiring(w: World, c: nat, pid: nat)
    requires Alone(w, pid) && c !in w.calls
    ensures Moves(w, Begin(c, 0, AcqWantGuard("p")), At(w, c, AcqWantGuard("p")))
  {
  }

  /** The lone process acquires a free lock in millisecond 5, whatever else it is waiting for. */
  lemma AcquirePath(w: World, c: nat, pid: nat)
    requires Alone(w, pid) && w.lock.NoLock? && c !in w.calls
    ensures Leads(w, WithNewHandle(w, pid))
  {
    BeginsAcquiring(w, c, pid);
    TakesGuardToAcquire(w, c, pid);
    CreatesLock(w, c, pid);
    WritesLock(w, c, pid);
    hide Moves;
    FourSteps(w, Begin(c, 0, AcqWantGuard("p")), Go(c), At(w, c, AcqWantGuard("p")), Inside(w, c, AcqCreate("p", Tuple(pid), false, false)),
              Inside(w.(lock := Partial), c, AcqWrite("p", Tuple(pid))), WithNewHandle(w, pid));
  }

  ghost predicate Holding(w: World, a: nat, pid: nat) {
    a in w.acqs && w.acqs[a] == Acquisition(0, Tuple(pid), "p", Open) && w.lock == Full(LockFileFor("p", Tuple(pid)), a)
  }

  lemma DropBegins(w: World, c: nat, a: nat, pid: nat)
    requires Alone(w, pid) && c !in w.calls && Holding(w, a, pid)
    ensures Moves(w, Begin(c, 0, DropWantGuard(a)), At(SetHandle(w, a, Dropping), c, DropWantGuard(a)))
  {
  }

  lemma DropEnds(w: World, c: nat, a: nat, pid: nat)
    requires Alone(w, pid) && c !in w.calls && Holding(w, a, pid)
    ensures Moves(Inside(SetHandle(w, a, Dropping), c, DropRemove(a)), Go(c), SetHandle(w.(lock := NoLock), a, Closed))
  {
    var v := SetHandle(w.(lock := NoLock), a, Closed);
    assert SetHandle(SetHandle(w, a, Dropping).(lock := NoLock), a, Closed) == v;
    Finished(v, c, DropRemove(a));
  }

  /** It drops the handle it holds. */
  lemma DropPath(w: World, c: nat, a: nat, pid: nat)
    requires Alone(w, pid) && c !in w.calls && Holding(w, a, pid)
    ensures Leads(w, SetHandle(w.(lock := NoLock), a, Closed))
  {
    var dropping := SetHandle(w, a, Dropping);
    DropBegins(w, c, a, pid);
    TakesGuard(dropping, c, DropWantGuard(a), DropRead(a));
    DropReads(w, c, a, pid);
    DropEnds(w, c, a, pid);
    FourSteps(w, Begin(c, 0, DropWantGuard(a)), Go(c), At(dropping, c, DropWantGuard(a)), Inside(dropping, c, DropRead(a)),
              Inside(dropping, c, DropRemove(a)), SetHandle(w.(lock := NoLock), a, Closed));
  }

  lemma DropReads(w: World, c: nat, a: nat, pid: nat)
    requires Alone(w, pid) && c !in w.calls && Holding(w, a, pid)
    ensures Moves(Inside(SetHandle(w, a, Dropping), c, DropRead(a)), Go(c), Inside(SetHandle(w, a, Dropping), c, DropRemove(a)))
  {
    Moved(SetHandle(w, a, Dropping), c, DropRead(a), DropRemove(a));
  }

  lemma WriteMoves(w: World, c: nat, a: nat, pid: nat, validate: Pc, write: Pc)
    requires Alone(w, pid) && c !in w.calls && Holding(w, a, pid)
    requires validate == WriteValidate(a, "p", "refreshing", "x", None) && write == WriteStatus(a, "p", "refreshing", "x", None)
    ensures Moves(Inside(w, c, validate), Go(c), Inside(w, c, write))
    ensures Moves(Inside(w, c, write), Go(c), w.(status := Some(Refreshing(pid))))
  {
    Moved(w, c, validate, write);
    Finished(w.(status := Some(Refreshing(pid))), c, write);
  }

  /** It writes a refreshing status through the handle it holds. */
  lemma WritePath(w: World, c: nat, a: nat, pid: nat)
    requires Alone(w, pid) && c !in w.calls && Holding(w, a, pid)
    ensures Leads(w, w.(status := Some(Refreshing(pid))))
  {
    var waiting := WriteWantGuard(a, "p", "refreshing", "x", None);
    var validate := WriteValidate(a, "p", "refreshing", "x", None);
    var write := WriteStatus(a, "p", "refreshing", "x", None);
    assert Moves(w, Begin(c, 0, waiting), At(w, c, waiting));
    TakesGuard(w, c, waiting, validate);
    WriteMoves(w, c, a, pid, validate, write);
    hide Moves;
    FourSteps(w, Begin(c, 0, waiting), Go(c), At(w, c, waiting), Inside(w, c, validate), Inside(w, c, write),
              w.(status := Some(Refreshing(pid))));
  }

  ghost predicate SecondHandleRefreshing(w: World, pid: nat) {
    && Alone(w, pid) && 1 !in w.calls
    && 0 in w.acqs && w.acqs[0].inc == 0 && w.acqs[0].owner == Tuple(pid)
    && w.lock == Full(LockFileFor("p", Tuple(pid)), 1) && w.status == Some(Refreshing(pid))
  }

  lemma HeartbeatMoves(w: World, pid: nat, validate: Pc, read: Pc, write: Pc)
    requires SecondHandleRefreshing(w, pid)
    requires validate == RenewValidate(0, "p", "x") && read == RenewRead(0, "p", "x") && write == RenewWrite(0, "p", "x", Refreshing(pid))
    ensures Moves(Inside(w, 1, validate), Go(1), Inside(w, 1, read))
    ensures Moves(Inside(w, 1, read), Go(1), Inside(w, 1, write))
  {
    Moved(w, 1, validate, read);
    Moved(w, 1, read, write);
  }

  /** A heartbeat of handle 0 passes all its checks against the files of handle 1. */
  lemma HeartbeatPath(w: World, pid: nat)
    requires SecondHandleRefreshing(w, pid)
    ensures Leads(w, Inside(w, 1, RenewWrite(0, "p", "x", Refreshing(pid))))
  {
    var waiting := RenewWantGuard(0, "p", "x");
    var validate, read, write := RenewValidate(0, "p", "x"), RenewRead(0, "p", "x"), RenewWrite(0, "p", "x", Refreshing(pid));
    assert Moves(w, Begin(1, 0, waiting), At(w, 1, waiting));
    TakesGuard(w, 1, waiting, validate);
    HeartbeatMoves(w, pid, validate, read, write);
    hide Moves;
    FourSteps(w, Begin(1, 0, waiting), Go(1), At(w, 1, waiting), Inside(w, 1, validate), Inside(w, 1, read), Inside(w, 1, write));
  }

  /** Without the hypothesis the ownership law is false: when one process takes two handles in the same millisecond,
      a heartbeat left over from the first passes every check against the second's files. */
  lemma SameMillisecondBreaksOwnership(pid: nat)
    ensures exists w, v ::
              && Init(w) && Leads(w, v)
              && 1 in v.calls && v.calls[1].pc.RenewWrite? && v.calls[1].pc.acq == 0
              && HandleLive(v, 1) && v.lock.Full? && v.lock.maker == 1
  {
    var w0 := World(map[0 := Process(pid, "s")], {0}, None, NoLock, None, map[], map[], 0, {});
    AcquirePath(w0, 0, pid);
    var w1 := WithNewHandle(w0, pid);
    DropPath(w1, 0, 0, pid);
    var w2 := SetHandle(w1.(lock := NoLock), 0, Closed);
    LeadsOn(w0, w1, w2);
    AcquirePath(w2, 0, pid);
    var w3 := WithNewHandle(w2, pid);
    LeadsOn(w0, w2, w3);
    WritePath(w3, 0, 1, pid);
    var w4 := w3.(status := Some(Refreshing(pid)));
    LeadsOn(w0, w3, w4);
    HeartbeatPath(w4, pid);
    var w5 := Inside(w4, 1, RenewWrite(0, "p", "x", Refreshing(pid)));
    LeadsOn(w0, w4, w5);
    assert HandleLive(w5, 1);
  }
}

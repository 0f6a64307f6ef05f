/** What every run of the local refresh protocol keeps. */
module LocalRefreshSafety {
  import opened Options
  import opened Decimals
  import opened LocalRefresh

  // ---------------------------------------------------------------- the invariant

  ghost predicate ProcsOk(w: World) {
    && w.live <= w.procs.Keys
    && forall i, j :: i in w.live && j in w.live && w.procs[i].pid == w.procs[j].pid ==> i == j
  }

  ghost predicate CallsOk(w: World) {
    && (forall c :: c in w.calls ==> w.calls[c].inc in w.live)
    && (forall c :: c in w.calls ==> (HoldsGuard(w.calls[c].pc) <==> w.guard == Some(c)))
    && (w.guard.Some? ==> w.guard.value in w.calls)
  }

  /** The tuple a process writes about itself. */
  ghost predicate Describes(w: World, inc: nat, owner: Owner) {
    && inc in w.live && inc in w.procs
    && owner.pid == w.procs[inc].pid
    && (owner.startIdentity.None? || owner.startIdentity == Some(w.procs[inc].startIdentity))
    && owner.token == OwnerToken(owner.pid, owner.startedAt)
  }

  ghost predicate HandleLive(w: World, a: nat) {
    a in w.acqs && !w.acqs[a].handle.Closed?
  }

  ghost predicate AcqOk(w: World, a: nat)
    requires a in w.acqs
  {
    var acq := w.acqs[a];
    && a < w.nextAcq
    && Describes(w, acq.inc, acq.owner)
    && (acq.inc, acq.owner.startedAt) in w.used
    && (HandleLive(w, a) ==> w.lock == Full(LockFileFor(acq.project, acq.owner), a))
  }

  ghost predicate AcqsOk(w: World) {
    && (forall a :: a in w.acqs ==> AcqOk(w, a))
    && (forall a, b :: a in w.acqs && b in w.acqs && a != b ==> w.acqs[a].owner.token != w.acqs[b].owner.token)
  }

  ghost predicate LockOk(w: World) {
    w.lock.Full? ==>
      && w.lock.maker < w.nextAcq
      && forall a :: a in w.acqs && a != w.lock.maker ==> w.lock.file.token != w.acqs[a].owner.token
  }

  ghost predicate NoLiveHandle(w: World) {
    forall a :: !HandleLive(w, a)
  }

  /** A process about to install `owner`, whose clock reading it never used before. */
  ghost predicate Candidate(w: World, inc: nat, owner: Owner) {
    Describes(w, inc, owner) && (inc, owner.startedAt) !in w.used
  }

  ghost predicate Owns(w: World, inc: nat, a: nat) {
    a in w.acqs && w.acqs[a].inc == inc
  }

  ghost predicate PcOk(w: World, inc: nat, pc: Pc) {
    match pc
    case AcqWantGuard(_) => true
    case AcqCreate(_, owner, _, removed) => Candidate(w, inc, owner) && (removed ==> w.lock.NoLock?)
    case AcqWrite(_, owner) => Candidate(w, inc, owner) && w.lock.Partial?
    case AcqStale(_, owner) => Candidate(w, inc, owner)
    case AcqProbe(_, owner, found) => Candidate(w, inc, owner) && w.lock.Full? && w.lock.file == found
    case AcqRemove(_, owner) => Candidate(w, inc, owner) && NoLiveHandle(w)
    case ReadStatus(_, acquirer, _) => acquirer.Some? ==> Candidate(w, inc, acquirer.value)
    case ReadProbe(project, acquirer, read) =>
      && (acquirer.Some? ==> Candidate(w, inc, acquirer.value))
      && read.status == "refreshing" && read.projectRoot == project
    case ReadLock(project, acquirer, read) =>
      && (acquirer.Some? ==> Candidate(w, inc, acquirer.value))
      && read.status == "refreshing" && read.projectRoot == project && read.ownerToken.Some?
    case WriteWantGuard(a, _, _, _, _) => Owns(w, inc, a)
    case WriteValidate(a, _, _, _, _) => Owns(w, inc, a)
    case WriteStatus(a, project, _, _, _) => Owns(w, inc, a) && LockMatches(w.lock, project, w.acqs[a].owner)
    case RenewWantGuard(a, _, _) => Owns(w, inc, a)
    case RenewValidate(a, _, _) => Owns(w, inc, a)
    case RenewRead(a, project, _) => Owns(w, inc, a) && LockMatches(w.lock, project, w.acqs[a].owner)
    case RenewWrite(a, project, phase, read) =>
      && Owns(w, inc, a) && LockMatches(w.lock, project, w.acqs[a].owner)
      && w.status == Some(read) && StatusRenewable(read, project, phase, w.acqs[a].owner)
    case DropWantGuard(a) => Owns(w, inc, a)
    case DropRead(a) => Owns(w, inc, a)
    case DropRemove(a) => Owns(w, inc, a) && w.lock.Full? && w.lock.file.token == w.acqs[a].owner.token
  }

  ghost predicate PcsOk(w: World) {
    forall c :: c in w.calls ==> PcOk(w, w.calls[c].inc, w.calls[c].pc)
  }

  ghost predicate Inv(w: World) {
    ProcsOk(w) && CallsOk(w) && AcqsOk(w) && LockOk(w) && PcsOk(w)
  }

  // ---------------------------------------------------------------- tokens

  lemma TokenInjective(p: nat, m: nat, q: nat, n: nat)
    requires OwnerToken(p, m) == OwnerToken(q, n)
    ensures p == q && m == n
  {
    assert OwnerToken(p, m) == Decimal(p) + [':'] + Decimal(m);
    assert OwnerToken(q, n) == Decimal(q) + [':'] + Decimal(n);
    SplitUnique(Decimal(p), Decimal(m), Decimal(q), Decimal(n), ':');
    DecimalInjective(p, q);
    DecimalInjective(m, n);
  }

  /** Two living processes, or two clock readings of one, never share a token. */
  lemma FreshToken(w: World, inc: nat, owner: Owner, a: nat)
    requires ProcsOk(w) && Candidate(w, inc, owner)
    requires a in w.acqs && AcqOk(w, a)
    ensures w.acqs[a].owner.token != owner.token
  {
    var other := w.acqs[a].owner;
    if other.token == owner.token {
      TokenInjective(owner.pid, owner.startedAt, other.pid, other.startedAt);
    }
  }

  // ---------------------------------------------------------------- staleness is sound

  /** `GoneOrReused` is never reported about the process behind a live handle. */
  lemma LiveOwnerIsNotGone(w: World, a: nat, probe: ProcessStartProbe)
    requires ProcsOk(w) && HandleLive(w, a) && AcqOk(w, a)
    requires Faithful(w, w.acqs[a].owner.pid, probe)
    ensures !OwnerStateOf(probe, w.acqs[a].owner.startIdentity).GoneOrReused?
  {
    var acq := w.acqs[a];
    assert acq.inc in w.live && w.procs[acq.inc].pid == acq.owner.pid;
    if probe.Running? {
      var i :| i in w.live && i in w.procs && w.procs[i] == Process(acq.owner.pid, probe.startIdentity);
      assert i == acq.inc;
    }
  }

  // ---------------------------------------------------------------- one step keeps the invariant

  /** What the invariant says about one call. */
  lemma CallOf(w: World, c: nat)
    requires Inv(w) && c in w.calls
    ensures PcOk(w, w.calls[c].inc, w.calls[c].pc)
    ensures HoldsGuard(w.calls[c].pc) <==> w.guard == Some(c)
  {
  }

  /** What a position of process `inc` looks at is unchanged: the files, the process itself and its acquisitions; and no
      handle came to life. */
  ghost predicate Framed(w: World, v: World, inc: nat) {
    && v.lock == w.lock && v.status == w.status && v.used == w.used
    && inc in w.procs && inc in v.procs && v.procs[inc] == w.procs[inc] && inc in v.live
    && (forall a :: Owns(w, inc, a) ==> Owns(v, inc, a) && v.acqs[a].owner == w.acqs[a].owner)
    && (forall a :: HandleLive(v, a) ==> HandleLive(w, a))
  }

  lemma PcFrame(w: World, v: World, inc: nat, pc: Pc)
    requires PcOk(w, inc, pc) && Framed(w, v, inc)
    ensures PcOk(v, inc, pc)
  {
  }

  /** The calls that are left are where they were, and nothing they look at changed. */
  lemma PcsFramed(w: World, v: World)
    requires PcsOk(w)
    requires forall d :: d in v.calls ==> d in w.calls && v.calls[d] == w.calls[d] && Framed(w, v, w.calls[d].inc)
    ensures PcsOk(v)
  {
    hide PcOk, Framed;
    forall d | d in v.calls ensures PcOk(v, v.calls[d].inc, v.calls[d].pc) {
      PcFrame(w, v, w.calls[d].inc, w.calls[d].pc);
    }
  }

  /** The acquisitions and what they are judged by are the same. */
  lemma SameAcqs(w: World, v: World)
    requires AcqsOk(w) && LockOk(w)
    requires v.procs == w.procs && v.live == w.live && v.acqs == w.acqs && v.used == w.used
    requires v.lock == w.lock && v.nextAcq == w.nextAcq
    ensures AcqsOk(v) && LockOk(v)
  {
    forall a | a in v.acqs ensures AcqOk(v, a) { assert AcqOk(w, a); }
  }

  lemma SameFilesFrame(w: World, v: World, inc: nat)
    requires v == w.(calls := v.calls, guard := v.guard) && inc in w.procs && inc in w.live
    ensures Framed(w, v, inc)
  {
  }

  /** Only calls were added, moved or removed. */
  lemma CallsChanged(w: World, v: World, c: nat)
    requires Inv(w)
    requires v == w.(calls := v.calls, guard := v.guard)
    requires forall d :: d in v.calls && d != c ==> d in w.calls && v.calls[d] == w.calls[d]
    requires CallsOk(v)
    requires c in v.calls ==> PcOk(w, v.calls[c].inc, v.calls[c].pc)
    ensures Inv(v)
  {
    hide PcOk, AcqsOk, LockOk;
    SameAcqs(w, v);
    forall d | d in v.calls ensures PcOk(v, v.calls[d].inc, v.calls[d].pc) {
      assert d != c ==> PcOk(w, w.calls[d].inc, w.calls[d].pc);
      SameFilesFrame(w, v, v.calls[d].inc);
      PcFrame(w, v, v.calls[d].inc, v.calls[d].pc);
    }
  }

  /** Moving a call to a program counter that holds the guard exactly as before. */
  lemma GotoKeeps(w: World, c: nat, pc: Pc)
    requires Inv(w) && c in w.calls
    requires HoldsGuard(pc) == HoldsGuard(w.calls[c].pc)
    requires PcOk(w, w.calls[c].inc, pc)
    ensures Inv(Goto(w, c, pc))
  {
    hide PcOk, AcqsOk, LockOk, PcsOk;
    CallsChanged(w, Goto(w, c, pc), c);
  }

  lemma EndKeeps(w: World, c: nat)
    requires Inv(w) && c in w.calls
    ensures Inv(End(w, c))
  {
    hide PcOk, AcqsOk, LockOk, PcsOk;
    CallsChanged(w, End(w, c), c);
  }

  lemma LockKeeps(w: World, c: nat, env: Env, next: Pc)
    requires Inv(w) && c in w.calls
    requires env.ok ==> w.guard.None?
    requires HoldsGuard(next) && !HoldsGuard(w.calls[c].pc)
    requires env.ok ==> PcOk(w, w.calls[c].inc, next)
    ensures Inv(Lock(w, c, env, next))
  {
    hide PcOk, AcqsOk, LockOk, PcsOk;
    if env.ok { CallsChanged(w, Lock(w, c, env, next), c); } else { EndKeeps(w, c); }
  }

  /** What a call that does not hold the guard relies on: only its own acquisition. */
  lemma WaitingPcKept(w: World, v: World, inc: nat, pc: Pc)
    requires PcOk(w, inc, pc) && !HoldsGuard(pc)
    requires forall a :: Owns(w, inc, a) ==> Owns(v, inc, a)
    ensures PcOk(v, inc, pc)
  {
  }

  /** Everybody but the guard's holder is waiting or reading, and keeps its own acquisitions. */
  lemma WaitersKept(w: World, v: World, c: nat)
    requires PcsOk(w) && CallsOk(w) && w.guard == Some(c)
    requires v.procs == w.procs && v.live == w.live
    requires forall a :: a in w.acqs ==> a in v.acqs && v.acqs[a].inc == w.acqs[a].inc
    ensures forall d :: d in w.calls && d != c ==> PcOk(v, w.calls[d].inc, w.calls[d].pc)
  {
    hide PcOk;
    forall d | d in w.calls && d != c ensures PcOk(v, w.calls[d].inc, w.calls[d].pc) {
      WaitingPcKept(w, v, w.calls[d].inc, w.calls[d].pc);
    }
  }

  /** The guard's holder changed files or handles; everybody else was waiting or reading. */
  lemma HolderChanged(w: World, v: World, c: nat)
    requires Inv(w) && w.guard == Some(c) && c in w.calls
    requires v.procs == w.procs && v.live == w.live && v.guard == w.guard && v.calls.Keys == w.calls.Keys
    requires forall d :: d in w.calls && d != c ==> v.calls[d] == w.calls[d]
    requires v.calls[c].inc == w.calls[c].inc && HoldsGuard(v.calls[c].pc)
    requires forall a :: a in w.acqs ==> a in v.acqs && v.acqs[a].inc == w.acqs[a].inc
    requires AcqsOk(v) && LockOk(v) && PcOk(v, v.calls[c].inc, v.calls[c].pc)
    ensures Inv(v)
  {
    hide PcOk, AcqsOk, LockOk;
    WaitersKept(w, v, c);
  }

  /** The holder finishes: the world it leaves is well formed even if its own position is not. */
  lemma HolderEnds(w: World, v: World, c: nat)
    requires Inv(w) && w.guard == Some(c) && c in w.calls
    requires v.procs == w.procs && v.live == w.live && v.guard == w.guard && v.calls == w.calls
    requires forall a :: a in w.acqs ==> a in v.acqs && v.acqs[a].inc == w.acqs[a].inc
    requires AcqsOk(v) && LockOk(v)
    ensures Inv(End(v, c))
  {
    hide PcOk, AcqsOk, LockOk;
    WaitersKept(w, End(v, c), c);
    SameAcqs(v, End(v, c));
  }

  lemma AcquireKeeps(w: World, c: nat, env: Env)
    requires Inv(w) && Enabled(true, w, Advance(c, env))
    requires OperationOf(w.calls[c].pc).TryAcquire?
    ensures Inv(AdvanceAcquire(w, c, env))
  {
    hide Inv;
    CallOf(w, c);
    match w.calls[c].pc
    case AcqWantGuard(project) => AcqLockKeeps(w, c, env, project);
    case AcqCreate(project, owner, second, removed) => AcqCreateKeeps(w, c, env, project, owner, second, removed);
    case AcqWrite(project, owner) => AcqWriteKeeps(w, c, env, project, owner);
    case AcqStale(project, owner) => AcqStaleKeeps(w, c, env, project, owner);
    case AcqProbe(project, owner, found) => AcqProbeKeeps(w, c, env, project, owner, found);
    case AcqRemove(project, owner) => AcqRemoveKeeps(w, c, env, project, owner);
  }

  lemma AcqLockKeeps(w: World, c: nat, env: Env, project: string)
    requires Inv(w) && Enabled(true, w, Advance(c, env)) && w.calls[c].pc == AcqWantGuard(project)
    ensures Inv(AdvanceAcquire(w, c, env))
  {
    var inc := w.calls[c].inc;
    var pid := w.procs[inc].pid;
    var owner := Owner(OwnerToken(pid, env.ms), pid, RecordedIdentity(env.probe), env.ms);
    OwnProbe(w, inc, env.probe);
    LockKeeps(w, c, env, AcqCreate(project, owner, false, false));
  }

  lemma AcqCreateKeeps(w: World, c: nat, env: Env, project: string, owner: Owner, second: bool, removed: bool)
    requires Inv(w) && c in w.calls && w.calls[c].pc == AcqCreate(project, owner, second, removed)
    ensures Inv(AdvanceAcquire(w, c, env))
  {
    CallOf(w, c);
    if !w.lock.NoLock? {
      if second { EndKeeps(w, c); } else { GotoKeeps(w, c, ReadStatus(project, Some(owner), env.ms)); }
    } else if env.ok {
      var v := Goto(w.(lock := Partial), c, AcqWrite(project, owner));
      NotFullMeansNobody(w);
      AcqsUnlocked(w, v);
      HolderChanged(w, v, c);
    } else {
      EndKeeps(w, c);
    }
  }

  lemma AcqRemoveKeeps(w: World, c: nat, env: Env, project: string, owner: Owner)
    requires Inv(w) && c in w.calls && w.calls[c].pc == AcqRemove(project, owner)
    ensures Inv(AdvanceAcquire(w, c, env))
  {
    CallOf(w, c);
    var v := Goto(if env.ok then w.(lock := NoLock) else w, c, AcqCreate(project, owner, true, env.ok));
    AcqsUnlocked(w, v);
    HolderChanged(w, v, c);
  }

  /** Nobody is live, so the lock entry may change freely without disturbing the acquisitions. */
  lemma AcqsUnlocked(w: World, v: World)
    requires Inv(w) && NoLiveHandle(w)
    requires v.procs == w.procs && v.live == w.live && v.acqs == w.acqs && v.used == w.used && v.nextAcq >= w.nextAcq
    ensures AcqsOk(v)
  {
    forall a | a in v.acqs ensures AcqOk(v, a) { assert AcqOk(w, a) && !HandleLive(w, a); }
  }

  /** A live handle always finds its own complete lock file. */
  lemma NotFullMeansNobody(w: World)
    requires Inv(w) && !w.lock.Full?
    ensures NoLiveHandle(w)
  {
    forall a ensures !HandleLive(w, a) {
      if a in w.acqs { assert AcqOk(w, a); }
    }
  }

  lemma AcqStaleKeeps(w: World, c: nat, env: Env, project: string, owner: Owner)
    requires Inv(w) && c in w.calls && w.calls[c].pc == AcqStale(project, owner)
    ensures Inv(AdvanceAcquire(w, c, env))
  {
    assert PcOk(w, w.calls[c].inc, w.calls[c].pc);
    if w.lock.Full? {
      GotoKeeps(w, c, AcqProbe(project, owner, w.lock.file));
    } else {
      NotFullMeansNobody(w);
      if w.lock.NoLock? || env.ok { GotoKeeps(w, c, AcqRemove(project, owner)); } else { EndKeeps(w, c); }
    }
  }

  lemma AcqProbeKeeps(w: World, c: nat, env: Env, project: string, owner: Owner, found: LockFile)
    requires Inv(w) && Enabled(true, w, Advance(c, env)) && w.calls[c].pc == AcqProbe(project, owner, found)
    ensures Inv(AdvanceAcquire(w, c, env))
  {
    assert PcOk(w, w.calls[c].inc, w.calls[c].pc);
    if OwnerStateOf(env.probe, found.startIdentity).GoneOrReused? {
      forall a ensures !HandleLive(w, a) {
        if HandleLive(w, a) {
          assert AcqOk(w, a);
          LiveOwnerIsNotGone(w, a, env.probe);
        }
      }
      GotoKeeps(w, c, AcqRemove(project, owner));
    } else {
      EndKeeps(w, c);
    }
  }

  /** A process that probes itself records its own start identity, or none. */
  lemma OwnProbe(w: World, inc: nat, probe: ProcessStartProbe)
    requires ProcsOk(w) && inc in w.live && Faithful(w, w.procs[inc].pid, probe)
    ensures RecordedIdentity(probe).None? || RecordedIdentity(probe) == Some(w.procs[inc].startIdentity)
  {
    if probe.Running? {
      var i :| i in w.live && i in w.procs && w.procs[i] == Process(w.procs[inc].pid, probe.startIdentity);
      assert i == inc;
    }
  }

  lemma AcqWriteKeeps(w: World, c: nat, env: Env, project: string, owner: Owner)
    requires Inv(w) && c in w.calls && w.calls[c].pc == AcqWrite(project, owner)
    ensures Inv(AdvanceAcquire(w, c, env))
  {
    assert PcOk(w, w.calls[c].inc, w.calls[c].pc);
    NotFullMeansNobody(w);
    forall a | a in w.acqs ensures w.acqs[a].owner.token != owner.token {
      assert AcqOk(w, a);
      FreshToken(w, w.calls[c].inc, owner, a);
    }
    if env.ok { AcquiredKeeps(w, c, env, project, owner); } else { FailedWriteKeeps(w, c, env, project, owner); }
  }

  lemma AcquiredKeeps(w: World, c: nat, env: Env, project: string, owner: Owner)
    requires Inv(w) && c in w.calls && w.calls[c].pc == AcqWrite(project, owner) && env.ok
    requires NoLiveHandle(w) && Candidate(w, w.calls[c].inc, owner)
    requires forall a :: a in w.acqs ==> w.acqs[a].owner.token != owner.token
    ensures Inv(AdvanceAcquire(w, c, env))
  {
    var inc := w.calls[c].inc;
    var maker := w.nextAcq;
    var acq := Acquisition(inc, owner, project, Open);
    var v := w.(lock := Full(LockFileFor(project, owner), maker), nextAcq := maker + 1,
                acqs := w.acqs[maker := acq], used := w.used + {(inc, owner.startedAt)});
    assert AdvanceAcquire(w, c, env) == End(v, c);
    InstalledAcqs(w, v, maker, acq);
    HolderEnds(w, v, c);
  }

  lemma FailedWriteKeeps(w: World, c: nat, env: Env, project: string, owner: Owner)
    requires Inv(w) && c in w.calls && w.calls[c].pc == AcqWrite(project, owner) && !env.ok
    requires NoLiveHandle(w)
    requires forall a :: a in w.acqs ==> w.acqs[a].owner.token != owner.token
    ensures Inv(AdvanceAcquire(w, c, env))
  {
    if env.torn {
      EndKeeps(w, c);
    } else {
      var v := w.(lock := Full(LockFileFor(project, owner), w.nextAcq), nextAcq := w.nextAcq + 1);
      AcqsUnlocked(w, v);
      UnownedLock(w, v);
      CallOf(w, c);
      hide Inv, NoLiveHandle;
      HolderEnds(w, v, c);
    }
  }

  /** A complete lock file that no acquisition made. */
  lemma UnownedLock(w: World, v: World)
    requires v.acqs == w.acqs && v.lock.Full? && v.lock.maker < v.nextAcq
    requires forall a :: a in w.acqs ==> w.acqs[a].owner.token != v.lock.file.token
    ensures LockOk(v)
  {
  }

  /** The new owner joins the acquisitions; its token is new, and it is the only live one. */
  lemma InstalledAcqs(w: World, v: World, maker: nat, acq: Acquisition)
    requires AcqsOk(w) && NoLiveHandle(w) && maker == w.nextAcq
    requires v.procs == w.procs && v.live == w.live && v.nextAcq == maker + 1
    requires v.acqs == w.acqs[maker := acq] && v.used == w.used + {(acq.inc, acq.owner.startedAt)}
    requires v.lock == Full(LockFileFor(acq.project, acq.owner), maker)
    requires Describes(w, acq.inc, acq.owner)
    requires forall a :: a in w.acqs ==> w.acqs[a].owner.token != acq.owner.token
    ensures AcqsOk(v) && LockOk(v)
    ensures forall a :: a in w.acqs ==> a in v.acqs && v.acqs[a].inc == w.acqs[a].inc
  {
    forall a | a in v.acqs ensures AcqOk(v, a) {
      if a != maker { assert AcqOk(w, a) && !HandleLive(w, a); }
    }
    assert maker in w.acqs ==> AcqOk(w, maker);
  }

  lemma NothingReadKeeps(w: World, c: nat, project: string, acquirer: Option<Owner>)
    requires Inv(w) && c in w.calls
    requires HoldsGuard(w.calls[c].pc) == acquirer.Some?
    requires acquirer.Some? ==> Candidate(w, w.calls[c].inc, acquirer.value)
    ensures Inv(NothingRead(w, c, project, acquirer))
  {
    if acquirer.Some? { GotoKeeps(w, c, AcqStale(project, acquirer.value)); } else { EndKeeps(w, c); }
  }

  lemma ReadKeeps(w: World, c: nat, env: Env)
    requires Inv(w) && c in w.calls
    requires OperationOf(w.calls[c].pc).Reading?
    ensures Inv(AdvanceRead(w, c, env))
  {
    hide Inv;
    CallOf(w, c);
    match w.calls[c].pc
    case ReadStatus(project, acquirer, now) =>
      if w.status.Some? && StatusReadable(w.status.value, project, now) {
        GotoKeeps(w, c, ReadProbe(project, acquirer, w.status.value));
      } else { NothingReadKeeps(w, c, project, acquirer); }
    case ReadProbe(project, acquirer, read) =>
      if OwnerStateOf(env.probe, read.startIdentity).GoneOrReused? { NothingReadKeeps(w, c, project, acquirer); }
      else if read.ownerToken.None? { EndKeeps(w, c); }
      else { GotoKeeps(w, c, ReadLock(project, acquirer, read)); }
    case ReadLock(project, acquirer, read) =>
      if StatusMatchesLock(read, w.lock, project) { EndKeeps(w, c); } else { NothingReadKeeps(w, c, project, acquirer); }
  }

  lemma WriteKeeps(w: World, c: nat, env: Env)
    requires Inv(w) && Enabled(true, w, Advance(c, env))
    requires OperationOf(w.calls[c].pc).Writing?
    ensures Inv(AdvanceWrite(w, c, env))
  {
    hide Inv;
    CallOf(w, c);
    match w.calls[c].pc
    case WriteWantGuard(a, project, status, phase, reason) =>
      LockKeeps(w, c, env, WriteValidate(a, project, status, phase, reason));
    case WriteValidate(a, project, status, phase, reason) =>
      if LockMatches(w.lock, project, OwnerOf(w, a)) { GotoKeeps(w, c, WriteStatus(a, project, status, phase, reason)); }
      else { EndKeeps(w, c); }
    case WriteStatus(a, project, status, phase, reason) =>
      StatusWrittenKeeps(w, c, StatusFor(project, status, phase, OwnerOf(w, a), env.ms, reason));
      EndKeeps(w, c);
  }

  lemma StatusWrittenKeeps(w: World, c: nat, st: Status)
    requires Inv(w) && w.guard == Some(c)
    ensures Inv(End(w.(status := Some(st)), c))
  {
    var v := w.(status := Some(st));
    assert forall a :: a in v.acqs ==> AcqOk(w, a);
    HolderEnds(w, v, c);
  }

  lemma RenewKeeps(w: World, c: nat, env: Env)
    requires Inv(w) && Enabled(true, w, Advance(c, env))
    requires OperationOf(w.calls[c].pc).Renewing?
    ensures Inv(AdvanceRenew(w, c, env))
  {
    hide Inv;
    CallOf(w, c);
    match w.calls[c].pc
    case RenewWantGuard(a, project, phase) => LockKeeps(w, c, env, RenewValidate(a, project, phase));
    case RenewValidate(a, project, phase) =>
      if LockMatches(w.lock, project, OwnerOf(w, a)) { GotoKeeps(w, c, RenewRead(a, project, phase)); } else { EndKeeps(w, c); }
    case RenewRead(a, project, phase) =>
      if w.status.Some? && StatusRenewable(w.status.value, project, phase, OwnerOf(w, a)) {
        GotoKeeps(w, c, RenewWrite(a, project, phase, w.status.value));
      } else { EndKeeps(w, c); }
    case RenewWrite(a, project, phase, read) =>
      StatusWrittenKeeps(w, c, read.(updatedAt := env.ms));
      EndKeeps(w, c);
  }

  /** The handle of `a` moved towards Closed; the lock file went only if that handle made it. */
  ghost predicate HandleMoved(w: World, v: World, a: nat, h: HandleState) {
    && a in w.acqs && v == w.(acqs := w.acqs[a := w.acqs[a].(handle := h)], lock := v.lock, calls := v.calls)
    && (h.Closed? || HandleLive(w, a))
    && (v.lock == w.lock || (h.Closed? && v.lock.NoLock? && w.lock.Full? && w.lock.maker == a))
  }

  lemma HandleMovedAcq(w: World, v: World, a: nat, h: HandleState, b: nat)
    requires HandleMoved(w, v, a, h) && b in w.acqs && AcqOk(w, b)
    ensures AcqOk(v, b) && v.acqs[b].owner == w.acqs[b].owner
  {
  }

  lemma HandleChanged(w: World, v: World, a: nat, h: HandleState)
    requires AcqsOk(w) && LockOk(w) && HandleMoved(w, v, a, h)
    ensures AcqsOk(v) && LockOk(v)
  {
    hide AcqOk;
    forall b | b in v.acqs ensures AcqOk(v, b) && b in w.acqs && v.acqs[b].owner == w.acqs[b].owner {
      HandleMovedAcq(w, v, a, h, b);
    }
  }

  /** A drop gives up without touching the lock file. */
  lemma CloseKeeps(w: World, c: nat, a: nat)
    requires Inv(w) && c in w.calls && a in w.acqs
    ensures Inv(End(SetHandle(w, a, Closed), c))
  {
    HandleMoveKeeps(w, a, Closed);
    EndKeeps(SetHandle(w, a, Closed), c);
  }

  lemma HandleFrame(w: World, v: World, a: nat, h: HandleState, inc: nat)
    requires HandleMoved(w, v, a, h) && v.lock == w.lock && inc in w.procs && inc in w.live
    ensures Framed(w, v, inc)
  {
  }

  lemma HandleMoveKeeps(w: World, a: nat, h: HandleState)
    requires Inv(w) && a in w.acqs && (h.Closed? || HandleLive(w, a))
    ensures Inv(SetHandle(w, a, h))
  {
    hide AcqsOk, LockOk, PcsOk;
    var v := SetHandle(w, a, h);
    HandleChanged(w, v, a, h);
    forall d | d in v.calls ensures Framed(w, v, w.calls[d].inc) {
      HandleFrame(w, v, a, h, w.calls[d].inc);
    }
    PcsFramed(w, v);
  }

  /** A drop removes the lock file that its own handle made. */
  lemma RemoveKeeps(w: World, c: nat, a: nat)
    requires Inv(w) && c in w.calls && a in w.acqs
    requires w.guard == Some(c) && w.lock.Full? && w.lock.maker == a
    ensures Inv(End(SetHandle(w.(lock := NoLock), a, Closed), c))
  {
    hide PcsOk, AcqsOk, LockOk;
    var v := SetHandle(w.(lock := NoLock), a, Closed);
    HandleChanged(w, v, a, Closed);
    HolderEnds(w, v, c);
  }

  lemma DropMadeLock(w: World, c: nat, a: nat)
    requires Inv(w) && c in w.calls && w.calls[c].pc == DropRemove(a)
    ensures a in w.acqs && w.guard == Some(c) && w.lock.Full? && w.lock.maker == a
  {
    CallOf(w, c);
  }

  lemma DropKeeps(w: World, c: nat, env: Env)
    requires Inv(w) && Enabled(true, w, Advance(c, env))
    requires OperationOf(w.calls[c].pc).Releasing?
    ensures Inv(AdvanceDrop(w, c, env))
  {
    hide Inv;
    CallOf(w, c);
    match w.calls[c].pc
    case DropWantGuard(a) =>
      if env.ok { LockKeeps(w, c, env, DropRead(a)); } else { CloseKeeps(w, c, a); }
    case DropRead(a) =>
      if w.lock.Full? && w.lock.file.token == w.acqs[a].owner.token { GotoKeeps(w, c, DropRemove(a)); }
      else { CloseKeeps(w, c, a); }
    case DropRemove(a) =>
      if env.ok { DropMadeLock(w, c, a); RemoveKeeps(w, c, a); } else { CloseKeeps(w, c, a); }
  }

  lemma CrashAcqs(w: World, inc: nat)
    requires AcqsOk(w) && LockOk(w)
    ensures AcqsOk(CrashOf(w, inc)) && LockOk(CrashOf(w, inc))
  {
    var v := CrashOf(w, inc);
    forall a | a in v.acqs ensures AcqOk(v, a) { assert AcqOk(w, a); }
  }

  lemma CrashFrame(w: World, gone: nat, inc: nat)
    requires inc in w.procs && inc in w.live && inc != gone
    ensures Framed(w, CrashOf(w, gone), inc)
  {
  }

  lemma CrashKeeps(w: World, inc: nat)
    requires Inv(w)
    ensures Inv(CrashOf(w, inc))
  {
    hide AcqsOk, LockOk, PcsOk, Framed;
    var v := CrashOf(w, inc);
    CrashAcqs(w, inc);
    forall d | d in v.calls ensures d in w.calls && v.calls[d] == w.calls[d] && Framed(w, v, w.calls[d].inc) {
      CrashFrame(w, inc, w.calls[d].inc);
    }
    PcsFramed(w, v);
  }

  lemma SpawnAcqs(w: World, inc: nat, process: Process)
    requires AcqsOk(w) && LockOk(w) && inc !in w.procs
    ensures AcqsOk(Apply(w, Spawn(inc, process))) && LockOk(Apply(w, Spawn(inc, process)))
  {
    var v := Apply(w, Spawn(inc, process));
    forall a | a in v.acqs ensures AcqOk(v, a) { assert AcqOk(w, a); }
  }

  lemma SpawnFrame(w: World, made: nat, process: Process, inc: nat)
    requires inc in w.procs && inc in w.live && made !in w.procs
    ensures Framed(w, Apply(w, Spawn(made, process)), inc)
  {
  }

  lemma SpawnKeeps(w: World, inc: nat, process: Process)
    requires Inv(w) && Enabled(true, w, Spawn(inc, process))
    ensures Inv(Apply(w, Spawn(inc, process)))
  {
    hide AcqsOk, LockOk, PcsOk, Framed;
    var v := Apply(w, Spawn(inc, process));
    SpawnAcqs(w, inc, process);
    forall d | d in v.calls ensures Framed(w, v, w.calls[d].inc) {
      SpawnFrame(w, inc, process, w.calls[d].inc);
    }
    PcsFramed(w, v);
  }

  lemma BeginKeeps(w: World, c: nat, inc: nat, pc: Pc)
    requires Inv(w) && Enabled(true, w, Begin(c, inc, pc))
    ensures Inv(Apply(w, Begin(c, inc, pc)))
  {
    if pc.DropWantGuard? { BeginDropKeeps(w, c, inc, pc.acq); } else { NewWaiterKeeps(w, c, inc, pc); }
  }

  lemma BeginDropKeeps(w: World, c: nat, inc: nat, a: nat)
    requires Inv(w) && Enabled(true, w, Begin(c, inc, DropWantGuard(a)))
    ensures Inv(Apply(w, Begin(c, inc, DropWantGuard(a))))
  {
    HandleMoveKeeps(w, a, Dropping);
    hide Inv;
    var v := SetHandle(w, a, Dropping);
    var u := v.(calls := v.calls[c := Call(inc, DropWantGuard(a))]);
    assert Apply(w, Begin(c, inc, DropWantGuard(a))) == u;
    NewWaiterKeeps(v, c, inc, DropWantGuard(a));
  }

  lemma NewWaiterKeeps(w: World, c: nat, inc: nat, pc: Pc)
    requires Inv(w) && c !in w.calls && inc in w.live
    requires !HoldsGuard(pc) && PcOk(w, inc, pc)
    ensures Inv(w.(calls := w.calls[c := Call(inc, pc)]))
  {
    hide PcOk, AcqsOk, LockOk, PcsOk;
    CallsChanged(w, w.(calls := w.calls[c := Call(inc, pc)]), c);
  }

  lemma StepKeepsInv(w: World, s: Step)
    requires Inv(w) && Enabled(true, w, s)
    ensures Inv(Apply(w, s))
  {
    match s
    case Spawn(inc, process) => SpawnKeeps(w, inc, process);
    case Crash(inc) => CrashKeeps(w, inc);
    case Begin(c, inc, pc) => BeginKeeps(w, c, inc, pc);
    case Advance(c, env) =>
      match OperationOf(w.calls[c].pc) {
        case TryAcquire => AcquireKeeps(w, c, env);
        case Reading => ReadKeeps(w, c, env);
        case Writing => WriteKeeps(w, c, env);
        case Renewing => RenewKeeps(w, c, env);
        case Releasing => DropKeeps(w, c, env);
      }
  }
}

/** The files, processes and calls of the local refresh protocol, one atomic action at a time.

    A cache root holds a guard file (a mutex that the operating system releases when its holder dies),
    a lock file naming the owner of the running refresh, and a status file replaced atomically.
    Any number of processes run any number of calls; every read, write, probe and removal is its own step. */
module LocalRefresh {
  import opened Options
  import opened Decimals

  const SCHEMA_VERSION: nat := 1
  const STATUS_TTL_MS: int := 30_000

  /** One incarnation of a process: identifiers of incarnations are never reused, pids are. */
  datatype Process = Process(pid: nat, startIdentity: string)

  datatype ProcessStartProbe = NotRunning | Running(startIdentity: string) | ProbeUnknown

  datatype ProcessOwnerState = Matching | GoneOrReused | Unknown

  function OwnerStateOf(probe: ProcessStartProbe, expected: Option<string>): ProcessOwnerState {
    match probe
    case NotRunning => GoneOrReused
    case ProbeUnknown => Unknown
    case Running(identity) =>
      if expected.None? || expected.value == identity then Matching else GoneOrReused
  }

  datatype Owner = Owner(token: string, pid: nat, startIdentity: Option<string>, startedAt: nat)

  function OwnerToken(pid: nat, startedAt: nat): string {
    Decimal(pid) + ":" + Decimal(startedAt)
  }

  /** Project roots are held in their canonical text, so the same workspace means the same text. */
  datatype LockFile = LockFile(schemaVersion: nat, projectRoot: string, pid: nat, startIdentity: Option<string>,
                               startedAt: nat, token: string)

  datatype Status = Status(schemaVersion: nat, status: string, projectRoot: string, phase: string, pid: nat,
                           startIdentity: Option<string>, ownerToken: Option<string>, startedAt: nat,
                           updatedAt: nat, lastFailureReason: Option<string>)

  /** `maker` is the acquisition that wrote the file; the protocol itself never reads it. */
  datatype LockEntry = NoLock | Partial | Full(file: LockFile, maker: nat)

  datatype HandleState = Open | Dropping | Closed

  datatype Acquisition = Acquisition(inc: nat, owner: Owner, project: string, handle: HandleState)

  /** Where a call stands. A reader that `try_acquire` runs carries the owner it wants to install. */
  datatype Pc =
    | AcqWantGuard(project: string)
    | AcqCreate(project: string, owner: Owner, second: bool, removed: bool)
    | AcqWrite(project: string, owner: Owner)
    | AcqStale(project: string, owner: Owner)
    | AcqProbe(project: string, owner: Owner, found: LockFile)
    | AcqRemove(project: string, owner: Owner)
    | ReadStatus(project: string, acquirer: Option<Owner>, now: nat)
    | ReadProbe(project: string, acquirer: Option<Owner>, read: Status)
    | ReadLock(project: string, acquirer: Option<Owner>, read: Status)
    | WriteWantGuard(acq: nat, project: string, status: string, phase: string, reason: Option<string>)
    | WriteValidate(acq: nat, project: string, status: string, phase: string, reason: Option<string>)
    | WriteStatus(acq: nat, project: string, status: string, phase: string, reason: Option<string>)
    | RenewWantGuard(acq: nat, project: string, phase: string)
    | RenewValidate(acq: nat, project: string, phase: string)
    | RenewRead(acq: nat, project: string, phase: string)
    | RenewWrite(acq: nat, project: string, phase: string, read: Status)
    | DropWantGuard(acq: nat)
    | DropRead(acq: nat)
    | DropRemove(acq: nat)

  datatype Call = Call(inc: nat, pc: Pc)

  datatype World = World(
    procs: map<nat, Process>, live: set<nat>,
    guard: Option<nat>, lock: LockEntry, status: Option<Status>,
    calls: map<nat, Call>, acqs: map<nat, Acquisition>, nextAcq: nat, used: set<(nat, nat)>)

  /** What the environment decides in a step: the clock, a probe, success, and how much a failed write left. */
  datatype Env = Env(ms: nat, probe: ProcessStartProbe, ok: bool, torn: bool)

  datatype Step =
    | Spawn(inc: nat, process: Process)
    | Crash(inc: nat)
    | Begin(call: nat, inc: nat, pc: Pc)
    | Advance(call: nat, env: Env)

  // ---------------------------------------------------------------- the code's own comparisons

  predicate LockMatches(lock: LockEntry, project: string, owner: Owner) {
    && lock.Full?
    && lock.file.schemaVersion == SCHEMA_VERSION
    && lock.file.projectRoot == project
    && lock.file.token == owner.token
    && lock.file.pid == owner.pid
    && lock.file.startIdentity == owner.startIdentity
    && lock.file.startedAt == owner.startedAt
  }

  predicate StatusMatchesLock(st: Status, lock: LockEntry, project: string) {
    && lock.Full?
    && lock.file.schemaVersion == SCHEMA_VERSION
    && lock.file.projectRoot == project
    && st.ownerToken == Some(lock.file.token)
    && st.pid == lock.file.pid
    && st.startIdentity == lock.file.startIdentity
    && st.startedAt == lock.file.startedAt
  }

  predicate StatusReadable(st: Status, project: string, now: nat) {
    && st.schemaVersion == SCHEMA_VERSION
    && st.status == "refreshing"
    && st.projectRoot == project
    && now - st.updatedAt <= STATUS_TTL_MS
  }

  predicate StatusRenewable(st: Status, project: string, phase: string, owner: Owner) {
    && st.schemaVersion == SCHEMA_VERSION
    && st.status == "refreshing"
    && st.phase == phase
    && st.projectRoot == project
    && st.pid == owner.pid
    && st.startIdentity == owner.startIdentity
    && st.ownerToken == Some(owner.token)
    && st.startedAt == owner.startedAt
  }

  function LockFileFor(project: string, owner: Owner): LockFile {
    LockFile(SCHEMA_VERSION, project, owner.pid, owner.startIdentity, owner.startedAt, owner.token)
  }

  function StatusFor(project: string, status: string, phase: string, owner: Owner, now: nat,
                     reason: Option<string>): Status
  {
    Status(SCHEMA_VERSION, status, project, phase, owner.pid, owner.startIdentity, Some(owner.token),
           owner.startedAt, now, reason)
  }

  // ---------------------------------------------------------------- steps

  predicate HoldsGuard(pc: Pc) {
    match pc
    case AcqWantGuard(_) => false
    case WriteWantGuard(_, _, _, _, _) => false
    case RenewWantGuard(_, _, _) => false
    case DropWantGuard(_) => false
    case ReadStatus(_, acquirer, _) => acquirer.Some?
    case ReadProbe(_, acquirer, _) => acquirer.Some?
    case ReadLock(_, acquirer, _) => acquirer.Some?
    case _ => true
  }

  datatype Operation = TryAcquire | Reading | Writing | Renewing | Releasing

  function OperationOf(pc: Pc): Operation {
    if pc.ReadStatus? || pc.ReadProbe? || pc.ReadLock? then Reading
    else if pc.WriteWantGuard? || pc.WriteValidate? || pc.WriteStatus? then Writing
    else if pc.RenewWantGuard? || pc.RenewValidate? || pc.RenewRead? || pc.RenewWrite? then Renewing
    else if pc.DropWantGuard? || pc.DropRead? || pc.DropRemove? then Releasing
    else TryAcquire
  }

  /** The operating system's answer about a pid is about a process that is alive now. */
  ghost predicate Faithful(w: World, pid: nat, probe: ProcessStartProbe) {
    match probe
    case ProbeUnknown => true
    case NotRunning => forall i :: i in w.live && i in w.procs ==> w.procs[i].pid != pid
    case Running(identity) => exists i :: i in w.live && i in w.procs && w.procs[i] == Process(pid, identity)
  }

  function Goto(w: World, c: nat, pc: Pc): World
    requires c in w.calls
  {
    w.(calls := w.calls[c := Call(w.calls[c].inc, pc)])
  }

  /** A call returns; the guard it may hold is dropped with it. */
  function End(w: World, c: nat): World {
    w.(calls := w.calls - {c}, guard := if w.guard == Some(c) then None else w.guard)
  }

  function Lock(w: World, c: nat, env: Env, next: Pc): World
    requires c in w.calls
  {
    if env.ok then Goto(w.(guard := Some(c)), c, next) else End(w, c)
  }

  function SetHandle(w: World, a: nat, h: HandleState): World {
    if a in w.acqs then w.(acqs := w.acqs[a := w.acqs[a].(handle := h)]) else w
  }

  function RecordedIdentity(probe: ProcessStartProbe): Option<string> {
    if probe.Running? then Some(probe.startIdentity) else None
  }

  function OwnerOf(w: World, a: nat): Owner {
    if a in w.acqs then w.acqs[a].owner else Owner("", 0, None, 0)
  }

  /** The wall-clock hypothesis is `strict`: no process acquires twice in one millisecond. */
  ghost predicate Enabled(strict: bool, w: World, s: Step) {
    match s
    case Spawn(inc, process) =>
      inc !in w.procs && forall i :: i in w.live && i in w.procs ==> w.procs[i].pid != process.pid
    case Crash(inc) => inc in w.live
    case Begin(c, inc, pc) =>
      && c !in w.calls && inc in w.live && inc in w.procs
      && (match pc
         case AcqWantGuard(_) => true
         case ReadStatus(_, acquirer, _) => acquirer.None?
         case WriteWantGuard(a, _, _, _, _) => a in w.acqs && w.acqs[a].inc == inc && w.acqs[a].handle.Open?
         case RenewWantGuard(a, _, _) => a in w.acqs && w.acqs[a].inc == inc
         case DropWantGuard(a) => a in w.acqs && w.acqs[a].inc == inc && w.acqs[a].handle.Open?
         case _ => false)
    case Advance(c, env) =>
      && c in w.calls
      && w.calls[c].inc in w.procs
      && (match w.calls[c].pc
         case AcqWantGuard(_) =>
           && (env.ok ==> w.guard.None?)
           && Faithful(w, w.procs[w.calls[c].inc].pid, env.probe)
           && (strict ==> (w.calls[c].inc, env.ms) !in w.used)
         case WriteWantGuard(_, _, _, _, _) => env.ok ==> w.guard.None?
         case RenewWantGuard(_, _, _) => env.ok ==> w.guard.None?
         case DropWantGuard(_) => env.ok ==> w.guard.None?
         case AcqProbe(_, _, found) => Faithful(w, found.pid, env.probe)
         case ReadProbe(_, _, read) => Faithful(w, read.pid, env.probe)
         case _ => true)
  }

  function Apply(w: World, s: Step): World {
    match s
    case Spawn(inc, process) => w.(procs := w.procs[inc := process], live := w.live + {inc})
    case Crash(inc) => CrashOf(w, inc)
    case Begin(c, inc, pc) =>
      var begun := w.(calls := w.calls[c := Call(inc, pc)]);
      if pc.DropWantGuard? then SetHandle(begun, pc.acq, Dropping) else begun
    case Advance(c, env) =>
      if c !in w.calls then w
      else
        match OperationOf(w.calls[c].pc) {
          case TryAcquire => AdvanceAcquire(w, c, env)
          case Reading => AdvanceRead(w, c, env)
          case Writing => AdvanceWrite(w, c, env)
          case Renewing => AdvanceRenew(w, c, env)
          case Releasing => AdvanceDrop(w, c, env)
        }
  }

  /** The operating system closes the dead process's files, which frees the guard; its memory is gone. */
  function CrashOf(w: World, inc: nat): World {
    w.(live := w.live - {inc},
       calls := map c | c in w.calls && w.calls[c].inc != inc :: w.calls[c],
       acqs := map a | a in w.acqs && w.acqs[a].inc != inc :: w.acqs[a],
       guard := if w.guard.Some? && w.guard.value in w.calls && w.calls[w.guard.value].inc == inc then None else w.guard)
  }

  /** `try_acquire_local_refresh_lock`. */
  function AdvanceAcquire(w: World, c: nat, env: Env): World
    requires c in w.calls
  {
    var inc := w.calls[c].inc;
    match w.calls[c].pc
    case AcqWantGuard(project) =>
      var pid := if inc in w.procs then w.procs[inc].pid else 0;
      var owner := Owner(OwnerToken(pid, env.ms), pid, RecordedIdentity(env.probe), env.ms);
      Lock(w, c, env, AcqCreate(project, owner, false, false))
    case AcqCreate(project, owner, second, removed) =>
      if !w.lock.NoLock? then
        if second then End(w, c) else Goto(w, c, ReadStatus(project, Some(owner), env.ms))
      else if env.ok then Goto(w.(lock := Partial), c, AcqWrite(project, owner))
      else End(w, c)
    case AcqWrite(project, owner) =>
      var maker := w.nextAcq;
      var written := w.(lock := Full(LockFileFor(project, owner), maker), nextAcq := maker + 1);
      if env.ok then
        End(written.(acqs := written.acqs[maker := Acquisition(inc, owner, project, Open)],
                     used := written.used + {(inc, owner.startedAt)}), c)
      else End(if env.torn then w else written, c)
    case AcqStale(project, owner) =>
      match w.lock {
        case Full(found, _) => Goto(w, c, AcqProbe(project, owner, found))
        case Partial => if env.ok then Goto(w, c, AcqRemove(project, owner)) else End(w, c)
        case NoLock => Goto(w, c, AcqRemove(project, owner))
      }
    case AcqProbe(project, owner, found) =>
      if OwnerStateOf(env.probe, found.startIdentity).GoneOrReused? then Goto(w, c, AcqRemove(project, owner))
      else End(w, c)
    case AcqRemove(project, owner) =>
      Goto(if env.ok then w.(lock := NoLock) else w, c, AcqCreate(project, owner, true, env.ok))
    case _ => w
  }

  /** `read_local_refresh_status`, run by an unguarded reader or by an acquirer that found a lock file. */
  function AdvanceRead(w: World, c: nat, env: Env): World
    requires c in w.calls
  {
    match w.calls[c].pc
    case ReadStatus(project, acquirer, now) =>
      if w.status.Some? && StatusReadable(w.status.value, project, now)
      then Goto(w, c, ReadProbe(project, acquirer, w.status.value))
      else NothingRead(w, c, project, acquirer)
    case ReadProbe(project, acquirer, read) =>
      if OwnerStateOf(env.probe, read.startIdentity).GoneOrReused? then NothingRead(w, c, project, acquirer)
      else if read.ownerToken.None? then End(w, c)
      else Goto(w, c, ReadLock(project, acquirer, read))
    case ReadLock(project, acquirer, read) =>
      if StatusMatchesLock(read, w.lock, project) then End(w, c) else NothingRead(w, c, project, acquirer)
    case _ => w
  }

  function NothingRead(w: World, c: nat, project: string, acquirer: Option<Owner>): World
    requires c in w.calls
  {
    match acquirer
    case None => End(w, c)
    case Some(owner) => Goto(w, c, AcqStale(project, owner))
  }

  /** `LocalRefreshLock::write_status`. */
  function AdvanceWrite(w: World, c: nat, env: Env): World
    requires c in w.calls
  {
    match w.calls[c].pc
    case WriteWantGuard(a, project, status, phase, reason) =>
      Lock(w, c, env, WriteValidate(a, project, status, phase, reason))
    case WriteValidate(a, project, status, phase, reason) =>
      if LockMatches(w.lock, project, OwnerOf(w, a)) then Goto(w, c, WriteStatus(a, project, status, phase, reason))
      else End(w, c)
    case WriteStatus(a, project, status, phase, reason) =>
      End(if env.ok || !env.torn
          then w.(status := Some(StatusFor(project, status, phase, OwnerOf(w, a), env.ms, reason)))
          else w, c)
    case _ => w
  }

  /** `renew_local_refresh_status_with_hook`, as the heartbeat thread calls it with its copy of the owner. */
  function AdvanceRenew(w: World, c: nat, env: Env): World
    requires c in w.calls
  {
    match w.calls[c].pc
    case RenewWantGuard(a, project, phase) => Lock(w, c, env, RenewValidate(a, project, phase))
    case RenewValidate(a, project, phase) =>
      if LockMatches(w.lock, project, OwnerOf(w, a)) then Goto(w, c, RenewRead(a, project, phase)) else End(w, c)
    case RenewRead(a, project, phase) =>
      if w.status.Some? && StatusRenewable(w.status.value, project, phase, OwnerOf(w, a))
      then Goto(w, c, RenewWrite(a, project, phase, w.status.value))
      else End(w, c)
    case RenewWrite(a, project, phase, read) =>
      End(if env.ok || !env.torn then w.(status := Some(read.(updatedAt := env.ms))) else w, c)
    case _ => w
  }

  /** `Drop for LocalRefreshLock`: the token alone decides. */
  function AdvanceDrop(w: World, c: nat, env: Env): World
    requires c in w.calls
  {
    match w.calls[c].pc
    case DropWantGuard(a) =>
      if env.ok then Lock(w, c, env, DropRead(a)) else End(SetHandle(w, a, Closed), c)
    case DropRead(a) =>
      if w.lock.Full? && w.lock.file.token == OwnerOf(w, a).token then Goto(w, c, DropRemove(a))
      else End(SetHandle(w, a, Closed), c)
    case DropRemove(a) =>
      End(SetHandle(if env.ok then w.(lock := NoLock) else w, a, Closed), c)
    case _ => w
  }

  // ---------------------------------------------------------------- runs

  /** Any leftover files of earlier processes, and nobody running a call yet. */
  ghost predicate Init(w: World) {
    && w.guard.None? && w.calls == map[] && w.acqs == map[]
    && w.live <= w.procs.Keys
    && (forall i, j :: i in w.live && j in w.live && w.procs[i].pid == w.procs[j].pid ==> i == j)
    && (w.lock.Full? ==> w.lock.maker < w.nextAcq)
  }

  /** The steps `ss`, each enabled where it is taken, lead from `w` to `v`. */
  ghost predicate Reaches(strict: bool, w: World, ss: seq<Step>, v: World)
    decreases |ss|
  {
    if ss == [] then w == v
    else Enabled(strict, w, ss[0]) && Reaches(strict, Apply(w, ss[0]), ss[1..], v)
  }

  ghost predicate Reachable(v: World) {
    exists w, ss :: Init(w) && Reaches(true, w, ss, v)
  }
}

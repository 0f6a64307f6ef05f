/** The per-user embedding server election on Unix: one advisory lock as lifetime authority, one socket entry, clients
    that probe with the same lock, and crashes anywhere. Every system call is its own step. */
module ServerElection {
  import opened Options

  /** A socket entry: the identity (device and inode) that `fstatat` reports, for the proofs only the server that bound it,
      and whether its mode shuts everybody else out. Identities may be reused freely. */
  datatype SocketEntry = SocketEntry(identity: nat, owner: nat, restricted: bool)

  datatype Holder = Server(id: nat) | Probe(id: nat)

  datatype ServerPc =
    | WantLock                              // about to `flock` without blocking
    | AlreadyOwned                          // returned without the lock
    | InspectStale                          // holds the lock from here on
    | MatchStale(identity: nat)             // path identity read, about to compare with the held directory's view
    | UnlinkStale(identity: nat)
    | RecheckStale
    | Binding
    | Restricting                           // bound, about to set the new entry's mode
    | Validating
    | ReadIdentity                          // about to read the new entry's identity
    | Listening(identity: nat)
    | DropInspect(identity: nat)            // the destructor starts
    | DropUnlink(identity: nat)
    | DropUnlock
    | LateInspect(identity: nat)            // only in the unlock-first variant
    | LateUnlink(identity: nat)

  datatype ClientOutcome = NoOwner | OwnerUnresponsive | Connected(server: nat) | Failed

  /** `hasFile` tells whether the authority file existed when the client opened it. */
  datatype ClientPc =
    | OpenAuthority
    | Validate(hasFile: bool)
    | Connect(hasFile: bool)
    | Classify(hasFile: bool, connected: Option<nat>)
    | Unlock
    | Answered(outcome: ClientOutcome)

  datatype World = World(authorityFile: bool, authority: Option<Holder>, socket: Option<SocketEntry>,
                         servers: map<nat, ServerPc>, clients: map<nat, ClientPc>)

  /** How a client's system call goes: well, in a way that counts as nobody answering, or with an error to report. */
  datatype Fate = Succeeds | NobodyAnswers | Errs

  /** The environment decides whether a system call fails, which identity a new socket gets and whether the process's file
      mode mask makes it private from the start. */
  datatype Step =
    | StartServer(s: nat)
    | ServerStep(s: nat, ok: bool, identity: nat, private: bool)
    | StartDrop(s: nat)
    | CrashServer(s: nat)
    | StartClient(c: nat)
    | ClientStep(c: nat, fate: Fate)
    | CrashClient(c: nat)

  datatype DropOrder = UnlinkThenUnlock | UnlockThenUnlink

  predicate HoldsAuthority(pc: ServerPc) {
    match pc
    case WantLock => false
    case AlreadyOwned => false
    case LateInspect(_) => false
    case LateUnlink(_) => false
    case _ => true
  }

  /** The server's socket accepts connections and its entry has not been unlinked by its destructor. */
  predicate Serving(pc: ServerPc) {
    pc.Restricting? || pc.Validating? || pc.ReadIdentity? || pc.Listening? || pc.DropInspect? || pc.DropUnlink?
  }

  predicate Enabled(w: World, step: Step) {
    match step
    case StartServer(s) => s !in w.servers
    case ServerStep(s, _, _, _) => s in w.servers && !w.servers[s].Listening? && !w.servers[s].AlreadyOwned?
    case StartDrop(s) => s in w.servers && w.servers[s].Listening?
    case CrashServer(s) => s in w.servers
    case StartClient(c) => c !in w.clients
    case ClientStep(c, _) => c in w.clients && !w.clients[c].Answered?
    case CrashClient(c) => c in w.clients
  }

  function Release(authority: Option<Holder>, h: Holder): Option<Holder> {
    if authority == Some(h) then None else authority
  }

  function ServerAt(w: World, s: nat, pc: ServerPc): World {
    w.(servers := w.servers[s := pc])
  }

  /** The process ends or `bind` returns an error: its descriptors close, which frees the lock; the entry stays. */
  function ServerGone(w: World, s: nat): World {
    w.(servers := w.servers - {s}, authority := Release(w.authority, Server(s)))
  }

  function ClientAt(w: World, c: nat, pc: ClientPc): World {
    w.(clients := w.clients[c := pc])
  }

  function Apply(order: DropOrder, w: World, step: Step): World {
    match step
    case StartServer(s) => ServerAt(w, s, WantLock).(authorityFile := true)
    case ServerStep(s, ok, identity, private) => if s in w.servers then AdvanceServer(order, w, s, ok, identity, private) else w
    case StartDrop(s) =>
      if s in w.servers && w.servers[s].Listening? then
        var identity := w.servers[s].identity;
        if order.UnlinkThenUnlock? then ServerAt(w, s, DropInspect(identity))
        else ServerAt(w, s, LateInspect(identity)).(authority := Release(w.authority, Server(s)))
      else w
    case CrashServer(s) => ServerGone(w, s)
    case StartClient(c) => ClientAt(w, c, OpenAuthority)
    case ClientStep(c, fate) => if c in w.clients then AdvanceClient(w, c, fate) else w
    case CrashClient(c) => w.(clients := w.clients - {c}, authority := Release(w.authority, Probe(c)))
  }

  /** What `socket_identity_at` and `validate_socket_path` let pass: a socket entry with a private mode. */
  predicate PrivateSocket(w: World, identity: nat) {
    w.socket.Some? && w.socket.value.restricted && w.socket.value.identity == identity
  }

  /** `bind`, `remove_stale_socket` and `Drop for Listener`. */
  function AdvanceServer(order: DropOrder, w: World, s: nat, ok: bool, identity: nat, private: bool): World
    requires s in w.servers
  {
    match w.servers[s]
    case WantLock =>
      if !ok then ServerGone(w, s)
      else if w.authority.None? then ServerAt(w, s, InspectStale).(authority := Some(Server(s)))
      else ServerAt(w, s, AlreadyOwned)
    case InspectStale =>
      if !ok then ServerGone(w, s)
      else if w.socket.None? then ServerAt(w, s, Binding)
      else if w.socket.value.restricted then ServerAt(w, s, MatchStale(w.socket.value.identity))
      else ServerGone(w, s)
    case MatchStale(seen) => if ok && PrivateSocket(w, seen) then ServerAt(w, s, UnlinkStale(seen)) else ServerGone(w, s)
    case UnlinkStale(_) => if ok then ServerAt(w, s, RecheckStale).(socket := None) else ServerGone(w, s)
    case RecheckStale => if ok && w.socket.None? then ServerAt(w, s, Binding) else ServerGone(w, s)
    case Binding =>
      if ok && w.socket.None? then ServerAt(w, s, Restricting).(socket := Some(SocketEntry(identity, s, private)))
      else ServerGone(w, s)
    case Restricting =>
      if ok && w.socket.Some? then ServerAt(w, s, Validating).(socket := Some(w.socket.value.(restricted := true)))
      else ServerGone(w, s)
    case Validating => if ok && w.socket.Some? && w.socket.value.restricted then ServerAt(w, s, ReadIdentity) else ServerGone(w, s)
    case ReadIdentity =>
      if ok && w.socket.Some? then ServerAt(w, s, Listening(w.socket.value.identity)) else ServerGone(w, s)
    case DropInspect(own) => ServerAt(w, s, if ok && PrivateSocket(w, own) then DropUnlink(own) else DropUnlock)
    case DropUnlink(_) => ServerAt(w, s, DropUnlock).(socket := if ok then None else w.socket)
    case DropUnlock => ServerGone(w, s)
    case LateInspect(own) => if ok && PrivateSocket(w, own) then ServerAt(w, s, LateUnlink(own)) else ServerGone(w, s)
    case LateUnlink(_) => ServerGone(w, s).(socket := if ok then None else w.socket)
    case Listening(_) => w
    case AlreadyOwned => w
  }

  /** `connect` and `classify_failed_connect`. A connection needs an entry whose server still has its socket open. */
  function AdvanceClient(w: World, c: nat, fate: Fate): World
    requires c in w.clients
  {
    match w.clients[c]
    case OpenAuthority => ClientAt(w, c, if fate.Errs? then Answered(Failed) else Validate(w.authorityFile))
    case Validate(hasFile) =>
      if fate.Errs? then ClientAt(w, c, Answered(Failed))
      else if fate.NobodyAnswers? || w.socket.None? then ClientAt(w, c, Classify(hasFile, None))
      else ClientAt(w, c, if w.socket.value.restricted then Connect(hasFile) else Answered(Failed))
    case Connect(hasFile) =>
      if fate.Errs? then ClientAt(w, c, Answered(Failed))
      else if fate.Succeeds? && w.socket.Some? && w.socket.value.owner in w.servers && Serving(w.servers[w.socket.value.owner])
      then ClientAt(w, c, Classify(hasFile, Some(w.socket.value.owner)))
      else ClientAt(w, c, Classify(hasFile, None))
    case Classify(hasFile, connected) =>
      if fate.Errs? then ClientAt(w, c, Answered(Failed))
      else if !hasFile then ClientAt(w, c, Answered(NoOwner))
      else if w.authority.None? then ClientAt(w, c, Unlock).(authority := Some(Probe(c)))
      else ClientAt(w, c, Answered(if fate.Succeeds? && connected.Some? then Connected(connected.value) else OwnerUnresponsive))
    case Unlock =>
      ClientAt(w, c, Answered(if fate.Errs? then Failed else NoOwner)).(authority := Release(w.authority, Probe(c)))
    case Answered(_) => w
  }

  /** Nobody runs; a socket entry of some dead server may be left over. */
  predicate Init(w: World) {
    w.authority.None? && w.servers == map[] && w.clients == map[]
  }

  ghost predicate Reaches(order: DropOrder, w: World, steps: seq<Step>, v: World)
    decreases |steps|
  {
    if steps == [] then w == v
    else Enabled(w, steps[0]) && Reaches(order, Apply(order, w, steps[0]), steps[1..], v)
  }

  ghost predicate Reachable(v: World) {
    exists w, steps :: Init(w) && Reaches(UnlinkThenUnlock, w, steps, v)
  }

  // ---------------------------------------------------------------- the invariant

  ghost predicate ServerOk(w: World, s: nat)
    requires s in w.servers
  {
    match w.servers[s]
    case Binding => w.socket.None?
    case Restricting => w.socket.Some? && w.socket.value.owner == s
    case Validating => w.socket.Some? && w.socket.value.owner == s && w.socket.value.restricted
    case ReadIdentity => w.socket.Some? && w.socket.value.owner == s && w.socket.value.restricted
    case Listening(identity) => w.socket == Some(SocketEntry(identity, s, true))
    case DropInspect(identity) => w.socket == Some(SocketEntry(identity, s, true))
    case DropUnlink(identity) => w.socket == Some(SocketEntry(identity, s, true))
    case LateInspect(_) => false
    case LateUnlink(_) => false
    case _ => true
  }

  /** The client found the authority file, or even locked it. */
  predicate SawFile(pc: ClientPc) {
    pc.Unlock? || ((pc.Validate? || pc.Connect? || pc.Classify?) && pc.hasFile)
  }

  ghost predicate Inv(w: World) {
    && (forall s :: s in w.servers ==> (HoldsAuthority(w.servers[s]) <==> w.authority == Some(Server(s))))
    && (forall s :: s in w.servers ==> ServerOk(w, s))
    && (forall c :: c in w.clients ==> (w.clients[c].Unlock? <==> w.authority == Some(Probe(c))))
    && (w.authority.Some? && w.authority.value.Server? ==> w.authority.value.id in w.servers)
    && (w.authority.Some? && w.authority.value.Probe? ==> w.authority.value.id in w.clients)
    && (w.servers.Keys != {} ==> w.authorityFile)
    && (forall c :: c in w.clients && SawFile(w.clients[c]) ==> w.authorityFile)
  }

  /** A server's step moves the server, takes or frees the lock, and changes the socket entry only while it holds the lock. */
  ghost predicate ServerMoved(w: World, v: World, s: nat) {
    && s in w.servers && v == w.(servers := v.servers, authority := v.authority, socket := v.socket)
    && (forall t :: t != s ==> (t in v.servers <==> t in w.servers))
    && (forall t :: t != s && t in w.servers ==> v.servers[t] == w.servers[t])
    && (s in v.servers ==> ServerOk(v, s))
    && (v.socket != w.socket ==> HoldsAuthority(w.servers[s]))
    && (if s in v.servers && HoldsAuthority(v.servers[s])
        then v.authority == Some(Server(s)) && (w.authority.None? || w.authority == Some(Server(s)))
        else v.authority == Release(w.authority, Server(s)))
  }

  lemma ServerEffect(w: World, s: nat, ok: bool, identity: nat, private: bool)
    requires s in w.servers && ServerOk(w, s) && (HoldsAuthority(w.servers[s]) <==> w.authority == Some(Server(s)))
    ensures ServerMoved(w, AdvanceServer(UnlinkThenUnlock, w, s, ok, identity, private), s)
  {
  }

  /** A server that does not hold the authority has nothing at stake in the socket entry. */
  lemma ServerStepKeepsInv(w: World, s: nat, ok: bool, identity: nat, private: bool)
    requires Inv(w) && Enabled(w, ServerStep(s, ok, identity, private))
    ensures Inv(AdvanceServer(UnlinkThenUnlock, w, s, ok, identity, private))
  {
    var v := AdvanceServer(UnlinkThenUnlock, w, s, ok, identity, private);
    ServerEffect(w, s, ok, identity, private);
    hide AdvanceServer;
    forall t | t in v.servers ensures ServerOk(v, t) {
      if t != s {
        assert ServerOk(w, t) && v.servers[t] == w.servers[t];
        assert HoldsAuthority(w.servers[t]) ==> !HoldsAuthority(w.servers[s]);
      }
    }
  }

  lemma StepKeepsInv(w: World, step: Step)
    requires Inv(w) && Enabled(w, step)
    ensures Inv(Apply(UnlinkThenUnlock, w, step))
  {
    var v := Apply(UnlinkThenUnlock, w, step);
    match step
    case ServerStep(s, ok, identity, private) => ServerStepKeepsInv(w, s, ok, identity, private);
    case ClientStep(c, fate) => ClientStepKeepsInv(w, c, fate);
    case _ =>
      forall t | t in v.servers ensures ServerOk(v, t) {
        if t in w.servers { assert ServerOk(w, t); }
      }
  }

  /** A client's step moves the client, and takes or frees the lock when it starts or ends a probe. */
  lemma ClientEffect(w: World, c: nat, fate: Fate)
    requires c in w.clients
    ensures var v := AdvanceClient(w, c, fate);
      && c in v.clients && v == w.(clients := w.clients[c := v.clients[c]], authority := v.authority)
      && (SawFile(v.clients[c]) ==> w.authorityFile || SawFile(w.clients[c]))
      && (v.clients[c].Unlock? ==> w.authority.None? && v.authority == Some(Probe(c)))
      && (!v.clients[c].Unlock? ==>
            v.authority == if w.clients[c].Unlock? then Release(w.authority, Probe(c)) else w.authority)
  {
  }

  lemma ClientStepKeepsInv(w: World, c: nat, fate: Fate)
    requires Inv(w) && Enabled(w, ClientStep(c, fate))
    ensures Inv(AdvanceClient(w, c, fate))
  {
    ClientEffect(w, c, fate);
    hide AdvanceClient;
    var v := AdvanceClient(w, c, fate);
    forall t | t in v.servers ensures ServerOk(v, t) { assert ServerOk(w, t); }
  }

  lemma {:induction false} StepsKeepInv(w: World, steps: seq<Step>, v: World)
    requires Inv(w) && Reaches(UnlinkThenUnlock, w, steps, v)
    ensures Inv(v)
    decreases |steps|
  {
    if steps != [] {
      StepKeepsInv(w, steps[0]);
      StepsKeepInv(Apply(UnlinkThenUnlock, w, steps[0]), steps[1..], v);
    }
  }

  lemma ReachableInv(v: World)
    requires Reachable(v)
    ensures Inv(v)
  {
    var w, steps :| Init(w) && Reaches(UnlinkThenUnlock, w, steps, v);
    StepsKeepInv(w, steps, v);
  }

  // ---------------------------------------------------------------- promises

  /** At most one server is past the lock, and a serving one finds its own entry at the endpoint. */
  lemma OneAuthority(w: World, s: nat, t: nat)
    requires Reachable(w) && s in w.servers && t in w.servers
    requires HoldsAuthority(w.servers[s]) && HoldsAuthority(w.servers[t])
    ensures s == t
    ensures Serving(w.servers[s]) ==> w.socket.Some? && w.socket.value.owner == s
    ensures w.servers[s].Listening? ==> w.socket == Some(SocketEntry(w.servers[s].identity, s, true))
  {
    ReachableInv(w);
    assert ServerOk(w, s);
  }

  /** A serving server's entry goes away in one way only: its own destructor unlinks it. No successor, no stale
      removal and no earlier destructor takes it, whatever identities are reused. Before that, only the server itself
      changes it, to restrict its mode. */
  lemma EntryRemovedOnlyByItsServer(w: World, step: Step, s: nat)
    requires Reachable(w) && Enabled(w, step)
    requires s in w.servers && Serving(w.servers[s]) && Apply(UnlinkThenUnlock, w, step).socket != w.socket
    ensures step.ServerStep? && step.s == s && w.socket.Some?
    ensures w.servers[s].DropUnlink? ||
            (w.servers[s].Restricting? && Apply(UnlinkThenUnlock, w, step).socket == Some(w.socket.value.(restricted := true)))
  {
    ReachableInv(w);
    assert ServerOk(w, s);
  }

  /** The destructor's unlink removes the entry its own server bound. */
  lemma DestructorUnlinksItsOwn(w: World, s: nat)
    requires Reachable(w) && s in w.servers && w.servers[s].DropUnlink?
    ensures w.socket.Some? && w.socket.value.owner == s
    ensures forall t :: t in w.servers && t != s ==> !HoldsAuthority(w.servers[t])
  {
    ReachableInv(w);
    assert ServerOk(w, s);
  }

  predicate SomeServer(w: World) {
    exists s :: s in w.servers && HoldsAuthority(w.servers[s])
  }

  /** Some client holds the lock for a moment, to learn whether it is free. */
  predicate SomeProbe(w: World) {
    exists c :: c in w.clients && w.clients[c].Unlock?
  }

  /** The lock is held by a server, by a probe, or by nobody. */
  lemma WhoHoldsTheLock(w: World)
    requires Reachable(w)
    ensures w.authority.None? <==> !SomeServer(w) && !SomeProbe(w)
    ensures !(SomeServer(w) && SomeProbe(w))
  {
    ReachableInv(w);
  }

  predicate Answers(w: World, step: Step, c: nat, outcome: ClientOutcome) {
    var v := Apply(UnlinkThenUnlock, w, step);
    c in w.clients && !w.clients[c].Answered? && c in v.clients && v.clients[c] == Answered(outcome)
  }

  /** Only a client's own step moves it. */
  lemma OnlyTheClientMoves(w: World, step: Step, c: nat)
    requires c in w.clients && c in Apply(UnlinkThenUnlock, w, step).clients && Enabled(w, step)
    requires Apply(UnlinkThenUnlock, w, step).clients[c] != w.clients[c]
    ensures step.ClientStep? && step.c == c && Apply(UnlinkThenUnlock, w, step) == AdvanceClient(w, c, step.fate)
  {
  }

  /** `NoOwner` is answered while no server holds the authority, or by a client that found no authority file. */
  lemma NoOwnerMeansNoServer(w: World, step: Step, c: nat)
    requires Reachable(w) && Enabled(w, step) && Answers(w, step, c, NoOwner)
    ensures w.clients[c].Unlock? ==> !SomeServer(w)
    ensures !w.clients[c].Unlock? ==> w.clients[c].Classify? && !w.clients[c].hasFile
  {
    OnlyTheClientMoves(w, step, c);
    hide Apply;
    ReachableInv(w);
  }

  /** A client that finds no authority file opens it at a moment when no server runs at all. */
  lemma NoFileMeansNoServer(w: World, step: Step, c: nat)
    requires Reachable(w) && Enabled(w, step) && step.ClientStep? && step.c == c && w.clients[c].OpenAuthority?
    requires Apply(UnlinkThenUnlock, w, step).clients[c] == Validate(false)
    ensures w.servers == map[]
  {
    ReachableInv(w);
  }

  /** A connection is only made to the server that holds the authority at that moment. */
  lemma ConnectionReachesTheAuthority(w: World, step: Step, c: nat)
    requires Reachable(w) && Enabled(w, step) && c in w.clients && w.clients[c].Connect?
    requires var v := Apply(UnlinkThenUnlock, w, step); c in v.clients && v.clients[c].Classify? && v.clients[c].connected.Some?
    ensures var s := Apply(UnlinkThenUnlock, w, step).clients[c].connected.value; w.authority == Some(Server(s))
  {
    OnlyTheClientMoves(w, step, c);
    hide Apply;
    ReachableInv(w);
  }

  /** `AlreadyOwned` means that a server exists exactly if no client holds the lock as a probe at that moment. */
  lemma AlreadyOwnedIffNoProbe(w: World, step: Step, s: nat)
    requires Reachable(w) && Enabled(w, step) && s in w.servers && w.servers[s].WantLock?
    requires var v := Apply(UnlinkThenUnlock, w, step); s in v.servers && v.servers[s].AlreadyOwned?
    ensures SomeServer(w) <==> !SomeProbe(w)
  {
    WhoHoldsTheLock(w);
  }

  /** So does `OwnerUnresponsive`, and so does `Connected`: its server may be gone when the answer is given. */
  lemma BusyAnswersIffNoProbe(w: World, step: Step, c: nat, outcome: ClientOutcome)
    requires Reachable(w) && Enabled(w, step) && Answers(w, step, c, outcome)
    requires outcome.OwnerUnresponsive? || outcome.Connected?
    ensures SomeServer(w) <==> !SomeProbe(w)
  {
    OnlyTheClientMoves(w, step, c);
    hide Apply, SomeServer, SomeProbe;
    WhoHoldsTheLock(w);
  }

  // ---------------------------------------------------------------- what the order and the probes cost

  ghost predicate Leads(order: DropOrder, w: World, v: World) {
    exists steps :: Reaches(order, w, steps, v)
  }

  predicate Moves(order: DropOrder, w: World, step: Step, v: World) {
    Enabled(w, step) && Apply(order, w, step) == v
  }

  lemma {:induction false} Chain(order: DropOrder, ws: seq<World>, steps: seq<Step>)
    requires |ws| == |steps| + 1
    requires forall k :: 0 <= k < |steps| ==> Moves(order, ws[k], steps[k], ws[k + 1])
    ensures Reaches(order, ws[0], steps, ws[|steps|])
    decreases |steps|
  {
    if steps != [] {
      assert Moves(order, ws[0], steps[0], ws[1]);
      forall k | 0 <= k < |steps| - 1 ensures Moves(order, ws[1..][k], steps[1..][k], ws[1..][k + 1]) {
        assert Moves(order, ws[k + 1], steps[k + 1], ws[k + 2]);
      }
      Chain(order, ws[1..], steps[1..]);
    }
  }

  const QUIET := World(false, None, None, map[], map[])

  function Serves(socket: Option<SocketEntry>, authority: Option<Holder>, servers: map<nat, ServerPc>): World {
    World(true, authority, socket, servers, map[])
  }

  lemma LeadsOn(order: DropOrder, u: World, v: World, w: World)
    requires Leads(order, u, v) && Leads(order, v, w)
    ensures Leads(order, u, w)
  {
    var ss :| Reaches(order, u, ss, v);
    var tt :| Reaches(order, v, tt, w);
    Joined(order, u, ss, v, tt, w);
  }

  lemma {:induction false} Joined(order: DropOrder, u: World, ss: seq<Step>, v: World, tt: seq<Step>, w: World)
    requires Reaches(order, u, ss, v) && Reaches(order, v, tt, w)
    ensures Reaches(order, u, ss + tt, w)
    decreases |ss|
  {
    if ss == [] {
      assert ss + tt == tt;
    } else {
      Joined(order, Apply(order, u, ss[0]), ss[1..], v, tt, w);
      assert (ss + tt)[1..] == ss[1..] + tt;
    }
  }

  const FIRST_ENTRY := Some(SocketEntry(9, 1, true))
  const SECOND_ENTRY := Some(SocketEntry(4, 2, true))
  const SECOND_HOLDS := Some(Server(2))

  const FIRST_LISTENS := Serves(FIRST_ENTRY, Some(Server(1)), map[1 := Listening(9)])
  /** The first server has released the lock and is about to unlink; its successor waits for the lock. */
  const OVERTAKEN := Serves(FIRST_ENTRY, None, map[1 := LateUnlink(9), 2 := WantLock])
  const CLEARED := Serves(None, SECOND_HOLDS, map[1 := LateUnlink(9), 2 := RecheckStale])
  const DEAF := Serves(None, SECOND_HOLDS, map[2 := Listening(4)])

  const FIRST_BINDS := Serves(None, Some(Server(1)), map[1 := Binding])

  lemma FirstServerBinds(order: DropOrder)
    ensures Leads(order, QUIET, FIRST_BINDS)
  {
    var ws := [QUIET,
               Serves(None, None, map[1 := WantLock]),
               Serves(None, Some(Server(1)), map[1 := InspectStale]),
               FIRST_BINDS];
    var go := ServerStep(1, true, 9, true);
    var steps := [StartServer(1), go, go];
    forall k | 0 <= k < |steps| ensures Moves(order, ws[k], steps[k], ws[k + 1]) { }
    Chain(order, ws, steps);
  }

  lemma FirstServerListens()
    ensures Leads(UnlockThenUnlink, QUIET, FIRST_LISTENS)
  {
    var first := Some(Server(1));
    var ws := [FIRST_BINDS,
               Serves(FIRST_ENTRY, first, map[1 := Restricting]),
               Serves(FIRST_ENTRY, first, map[1 := Validating]),
               Serves(FIRST_ENTRY, first, map[1 := ReadIdentity]),
               FIRST_LISTENS];
    var go := ServerStep(1, true, 9, true);
    var steps := [go, go, go, go];
    forall k | 0 <= k < |steps| ensures Moves(UnlockThenUnlink, ws[k], steps[k], ws[k + 1]) { }
    Chain(UnlockThenUnlink, ws, steps);
    FirstServerBinds(UnlockThenUnlink);
    LeadsOn(UnlockThenUnlink, QUIET, FIRST_BINDS, FIRST_LISTENS);
  }

  lemma FirstServerUnlocks()
    ensures Leads(UnlockThenUnlink, FIRST_LISTENS, OVERTAKEN)
  {
    var ws := [FIRST_LISTENS,
               Serves(FIRST_ENTRY, None, map[1 := LateInspect(9)]),
               Serves(FIRST_ENTRY, None, map[1 := LateUnlink(9)]),
               OVERTAKEN];
    var steps := [StartDrop(1), ServerStep(1, true, 9, true), StartServer(2)];
    forall k | 0 <= k < |steps| ensures Moves(UnlockThenUnlink, ws[k], steps[k], ws[k + 1]) { }
    Chain(UnlockThenUnlink, ws, steps);
  }

  lemma SecondServerClears()
    ensures Leads(UnlockThenUnlink, OVERTAKEN, CLEARED)
  {
    var ws := [OVERTAKEN,
               Serves(FIRST_ENTRY, SECOND_HOLDS, map[1 := LateUnlink(9), 2 := InspectStale]),
               Serves(FIRST_ENTRY, SECOND_HOLDS, map[1 := LateUnlink(9), 2 := MatchStale(9)]),
               Serves(FIRST_ENTRY, SECOND_HOLDS, map[1 := LateUnlink(9), 2 := UnlinkStale(9)]),
               CLEARED];
    var go := ServerStep(2, true, 4, true);
    var steps := [go, go, go, go];
    forall k | 0 <= k < |steps| ensures Moves(UnlockThenUnlink, ws[k], steps[k], ws[k + 1]) { }
    Chain(UnlockThenUnlink, ws, steps);
  }

  const SECOND_BOUND := Serves(SECOND_ENTRY, SECOND_HOLDS, map[1 := LateUnlink(9), 2 := Validating])

  lemma SecondServerBinds()
    ensures Leads(UnlockThenUnlink, CLEARED, SECOND_BOUND)
  {
    var ws := [CLEARED,
               Serves(None, SECOND_HOLDS, map[1 := LateUnlink(9), 2 := Binding]),
               Serves(SECOND_ENTRY, SECOND_HOLDS, map[1 := LateUnlink(9), 2 := Restricting]),
               SECOND_BOUND];
    var go := ServerStep(2, true, 4, true);
    var steps := [go, go, go];
    forall k | 0 <= k < |steps| ensures Moves(UnlockThenUnlink, ws[k], steps[k], ws[k + 1]) { }
    Chain(UnlockThenUnlink, ws, steps);
  }

  lemma SecondServerIsDeafened()
    ensures Leads(UnlockThenUnlink, SECOND_BOUND, DEAF)
  {
    var ws := [SECOND_BOUND,
               Serves(SECOND_ENTRY, SECOND_HOLDS, map[1 := LateUnlink(9), 2 := ReadIdentity]),
               Serves(SECOND_ENTRY, SECOND_HOLDS, map[1 := LateUnlink(9), 2 := Listening(4)]),
               DEAF];
    var go := ServerStep(2, true, 4, true);
    var steps := [go, go, ServerStep(1, true, 0, true)];
    forall k | 0 <= k < |steps| ensures Moves(UnlockThenUnlink, ws[k], steps[k], ws[k + 1]) { }
    Chain(UnlockThenUnlink, ws, steps);
  }

  /** Unlocking before unlinking lets the old destructor take the entry of the server that came after it. */
  lemma UnlockFirstLosesTheSuccessorsSocket()
    ensures exists v :: Leads(UnlockThenUnlink, QUIET, v)
                        && 2 in v.servers && v.servers[2] == Listening(4) && v.socket.None?
  {
    FirstServerListens();
    FirstServerUnlocks();
    SecondServerClears();
    SecondServerBinds();
    SecondServerIsDeafened();
    LeadsOn(UnlockThenUnlink, CLEARED, SECOND_BOUND, DEAF);
    LeadsOn(UnlockThenUnlink, QUIET, FIRST_LISTENS, OVERTAKEN);
    LeadsOn(UnlockThenUnlink, QUIET, OVERTAKEN, CLEARED);
    LeadsOn(UnlockThenUnlink, QUIET, CLEARED, DEAF);
  }

  const PROBING := World(true, None, None, map[1 := WantLock], map[7 := Classify(true, None)])

  lemma ClientArrives()
    ensures Leads(UnlinkThenUnlock, QUIET, PROBING)
  {
    var ws := [
      QUIET,
      World(true, None, None, map[1 := WantLock], map[]),
      World(true, None, None, map[1 := WantLock], map[7 := OpenAuthority]),
      World(true, None, None, map[1 := WantLock], map[7 := Validate(true)]),
      PROBING];
    var ask := ClientStep(7, Succeeds);
    var steps := [StartServer(1), StartClient(7), ask, ask];
    forall k | 0 <= k < |steps| ensures Moves(UnlinkThenUnlock, ws[k], steps[k], ws[k + 1]) { }
    Chain(UnlinkThenUnlock, ws, steps);
  }

  /** `AlreadyOwned` can be the echo of a probing client: no server need exist. */
  lemma AlreadyOwnedWithoutAServer()
    ensures exists v :: Leads(UnlinkThenUnlock, QUIET, v)
                        && 1 in v.servers && v.servers[1] == AlreadyOwned && !SomeServer(v)
  {
    var probe := Some(Probe(7));
    var ws := [
      PROBING,
      World(true, probe, None, map[1 := WantLock], map[7 := Unlock]),
      World(true, probe, None, map[1 := AlreadyOwned], map[7 := Unlock])];
    var steps := [ClientStep(7, Succeeds), ServerStep(1, true, 0, true)];
    forall k | 0 <= k < |steps| ensures Moves(UnlinkThenUnlock, ws[k], steps[k], ws[k + 1]) { }
    Chain(UnlinkThenUnlock, ws, steps);
    ClientArrives();
    LeadsOn(UnlinkThenUnlock, QUIET, PROBING, ws[2]);
  }

  const LATE_ANSWER := World(true, Some(Server(1)), None, map[1 := InspectStale], map[7 := Classify(false, None)])

  /** A client that found no authority file answers `NoOwner` although a server took the lock meanwhile. */
  lemma NoOwnerDespiteAServer()
    ensures exists w :: Leads(UnlinkThenUnlock, QUIET, w) && SomeServer(w) && Answers(w, ClientStep(7, Succeeds), 7, NoOwner)
  {
    var asks := ClientStep(7, Succeeds);
    var ws := [
      QUIET,
      World(false, None, None, map[], map[7 := OpenAuthority]),
      World(false, None, None, map[], map[7 := Validate(false)]),
      World(true, None, None, map[1 := WantLock], map[7 := Validate(false)]),
      World(true, Some(Server(1)), None, map[1 := InspectStale], map[7 := Validate(false)]),
      LATE_ANSWER];
    var steps := [StartClient(7), asks, StartServer(1), ServerStep(1, true, 0, true), asks];
    forall k | 0 <= k < |steps| ensures Moves(UnlinkThenUnlock, ws[k], steps[k], ws[k + 1]) { }
    Chain(UnlinkThenUnlock, ws, steps);
    assert 1 in LATE_ANSWER.servers && HoldsAuthority(LATE_ANSWER.servers[1]);
    assert Answers(LATE_ANSWER, asks, 7, NoOwner);
  }

  // ---------------------------------------------------------------- what a crash leaves behind

  /** The server in `pc` takes a successful step. */
  lemma Proceeds(w: World, s: nat, pc: ServerPc, v: World, next: ServerPc)
    requires !pc.Listening? && !pc.AlreadyOwned?
    requires Apply(UnlinkThenUnlock, ServerAt(w, s, pc), ServerStep(s, true, 0, true)) == ServerAt(v, s, next)
    ensures Leads(UnlinkThenUnlock, ServerAt(w, s, pc), ServerAt(v, s, next))
  {
    Chain(UnlinkThenUnlock, [ServerAt(w, s, pc), ServerAt(v, s, next)], [ServerStep(s, true, 0, true)]);
  }

  lemma Again(w: World, s: nat, pc: ServerPc, next: ServerPc)
    ensures ServerAt(ServerAt(w, s, pc), s, next) == ServerAt(w, s, next)
  {
    assert w.servers[s := pc][s := next] == w.servers[s := next];
  }

  lemma BindsAndListens(w: World, s: nat)
    requires w.socket.None?
    ensures Leads(UnlinkThenUnlock, ServerAt(w, s, Binding), ServerAt(w.(socket := Some(SocketEntry(0, s, true))), s, Listening(0)))
  {
    var bound := w.(socket := Some(SocketEntry(0, s, true)));
    Again(w, s, Binding, Restricting);
    Proceeds(w, s, Binding, bound, Restricting);
    Again(bound, s, Restricting, Validating);
    Proceeds(bound, s, Restricting, bound, Validating);
    Again(bound, s, Validating, ReadIdentity);
    Proceeds(bound, s, Validating, bound, ReadIdentity);
    Again(bound, s, ReadIdentity, Listening(0));
    Proceeds(bound, s, ReadIdentity, bound, Listening(0));
    hide Leads;
    LeadsOn(UnlinkThenUnlock, ServerAt(w, s, Binding), ServerAt(bound, s, Restricting), ServerAt(bound, s, Validating));
    LeadsOn(UnlinkThenUnlock, ServerAt(w, s, Binding), ServerAt(bound, s, Validating), ServerAt(bound, s, ReadIdentity));
    LeadsOn(UnlinkThenUnlock, ServerAt(w, s, Binding), ServerAt(bound, s, ReadIdentity), ServerAt(bound, s, Listening(0)));
  }

  lemma ClearsStale(w: World, s: nat)
    requires w.socket.None? || w.socket.value.restricted
    ensures Leads(UnlinkThenUnlock, ServerAt(w, s, InspectStale), ServerAt(w.(socket := None), s, Binding))
  {
    if w.socket.None? {
      Again(w, s, InspectStale, Binding);
      Proceeds(w, s, InspectStale, w, Binding);
    } else {
      var stale, cleared := w.socket.value.identity, w.(socket := None);
      Again(w, s, InspectStale, MatchStale(stale));
      Proceeds(w, s, InspectStale, w, MatchStale(stale));
      Again(w, s, MatchStale(stale), UnlinkStale(stale));
      Proceeds(w, s, MatchStale(stale), w, UnlinkStale(stale));
      Again(w, s, UnlinkStale(stale), RecheckStale);
      Proceeds(w, s, UnlinkStale(stale), cleared, RecheckStale);
      Again(cleared, s, RecheckStale, Binding);
      Proceeds(cleared, s, RecheckStale, cleared, Binding);
      LeadsOn(UnlinkThenUnlock, ServerAt(w, s, InspectStale), ServerAt(w, s, MatchStale(stale)), ServerAt(w, s, UnlinkStale(stale)));
      LeadsOn(UnlinkThenUnlock, ServerAt(w, s, InspectStale), ServerAt(w, s, UnlinkStale(stale)), ServerAt(cleared, s, RecheckStale));
      LeadsOn(UnlinkThenUnlock, ServerAt(w, s, InspectStale), ServerAt(cleared, s, RecheckStale), ServerAt(cleared, s, Binding));
    }
  }

  /** Whenever nobody holds the authority and no unrestricted entry is in the way, a new server can become the listener. */
  lemma ListensAfterAll(w: World, s: nat)
    requires w.authority.None? && s !in w.servers && (w.socket.None? || w.socket.value.restricted)
    ensures exists v :: Leads(UnlinkThenUnlock, w, v) && s in v.servers && v.servers[s].Listening?
  {
    var file := w.(authorityFile := true);
    var held := file.(authority := Some(Server(s)));
    Chain(UnlinkThenUnlock, [w, ServerAt(file, s, WantLock)], [StartServer(s)]);
    Again(file, s, WantLock, InspectStale);
    Proceeds(file, s, WantLock, held, InspectStale);
    ClearsStale(held, s);
    var cleared := held.(socket := None);
    BindsAndListens(cleared, s);
    var done := ServerAt(cleared.(socket := Some(SocketEntry(0, s, true))), s, Listening(0));
    LeadsOn(UnlinkThenUnlock, w, ServerAt(file, s, WantLock), ServerAt(held, s, InspectStale));
    LeadsOn(UnlinkThenUnlock, w, ServerAt(held, s, InspectStale), ServerAt(cleared, s, Binding));
    LeadsOn(UnlinkThenUnlock, w, ServerAt(cleared, s, Binding), done);
  }

  /** An unrestricted entry is there, and no server is past inspecting it. */
  ghost predicate Blocked(w: World) {
    && w.socket.Some? && !w.socket.value.restricted
    && forall s :: s in w.servers ==> w.servers[s].WantLock? || w.servers[s].AlreadyOwned? || w.servers[s].InspectStale?
  }

  lemma StepKeepsBlocked(w: World, step: Step)
    requires Blocked(w) && Enabled(w, step)
    ensures Blocked(Apply(UnlinkThenUnlock, w, step))
  {
  }

  lemma {:induction false} BlockedForEver(w: World, steps: seq<Step>, v: World)
    requires Blocked(w) && Reaches(UnlinkThenUnlock, w, steps, v)
    ensures Blocked(v)
    decreases |steps|
  {
    if steps != [] {
      StepKeepsBlocked(w, steps[0]);
      BlockedForEver(Apply(UnlinkThenUnlock, w, steps[0]), steps[1..], v);
    }
  }

  /** With the authority free, a new server can go on to listen exactly if the socket entry is absent or restricted. */
  lemma StaleSocketBlocksIffUnrestricted(w: World, s: nat)
    requires Reachable(w) && w.authority.None? && s !in w.servers
    ensures (exists v :: Leads(UnlinkThenUnlock, w, v) && s in v.servers && v.servers[s].Listening?)
            <==> w.socket.None? || w.socket.value.restricted
  {
    if w.socket.None? || w.socket.value.restricted {
      ListensAfterAll(w, s);
    } else {
      ReachableInv(w);
      forall t | t in w.servers
        ensures w.servers[t].WantLock? || w.servers[t].AlreadyOwned?
      {
        assert ServerOk(w, t) && !HoldsAuthority(w.servers[t]);
      }
      forall v | Leads(UnlinkThenUnlock, w, v)
        ensures Blocked(v)
      {
        var steps :| Reaches(UnlinkThenUnlock, w, steps, v);
        BlockedForEver(w, steps, v);
      }
    }
  }

  const OPEN_ENTRY := Some(SocketEntry(9, 1, false))
  const ABANDONED := Serves(OPEN_ENTRY, None, map[])

  /** A server that dies between binding its socket and restricting it leaves an entry that no later server can remove:
      nobody listens ever again. */
  lemma CrashBeforeRestrictingBlocks()
    ensures Leads(UnlinkThenUnlock, QUIET, ABANDONED) && ABANDONED.authority.None? && ABANDONED.servers == map[]
    ensures forall v, s :: Leads(UnlinkThenUnlock, ABANDONED, v) && s in v.servers ==> !v.servers[s].Listening?
  {
    FirstServerBinds(UnlinkThenUnlock);
    var ws := [FIRST_BINDS, Serves(OPEN_ENTRY, Some(Server(1)), map[1 := Restricting]), ABANDONED];
    var steps := [ServerStep(1, true, 9, false), CrashServer(1)];
    forall k | 0 <= k < |steps| ensures Moves(UnlinkThenUnlock, ws[k], steps[k], ws[k + 1]) { }
    Chain(UnlinkThenUnlock, ws, steps);
    LeadsOn(UnlinkThenUnlock, QUIET, FIRST_BINDS, ABANDONED);
    forall v, s | Leads(UnlinkThenUnlock, ABANDONED, v) && s in v.servers
      ensures !v.servers[s].Listening?
    {
      var run :| Reaches(UnlinkThenUnlock, ABANDONED, run, v);
      BlockedForEver(ABANDONED, run, v);
    }
  }
}

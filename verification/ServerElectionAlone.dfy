/** What a client, a starting server and a destructor come to: exactly, when nobody else moves and nothing fails. */
module ServerElectionAlone {
  import opened Options
  import opened ServerElection

  // ---------------------------------------------------------------- clients

  /** The client takes up to `n` steps alone, each of which goes well, until it has its answer. */
  ghost predicate Asks(w: World, c: nat, n: nat, v: World)
    decreases n
  {
    c in w.clients &&
    if w.clients[c].Answered? then v == w
    else n > 0 && Enabled(w, ClientStep(c, Succeeds)) && Asks(Apply(UnlinkThenUnlock, w, ClientStep(c, Succeeds)), c, n - 1, v)
  }

  lemma {:induction false} AsksIsARun(w: World, c: nat, n: nat, v: World)
    requires Asks(w, c, n, v)
    ensures Leads(UnlinkThenUnlock, w, v)
    decreases n
  {
    if w.clients[c].Answered? {
      assert Reaches(UnlinkThenUnlock, w, [], v);
    } else {
      var u := Apply(UnlinkThenUnlock, w, ClientStep(c, Succeeds));
      AsksIsARun(u, c, n - 1, v);
      Chain(UnlinkThenUnlock, [w, u], [ClientStep(c, Succeeds)]);
      LeadsOn(UnlinkThenUnlock, w, u, v);
    }
  }

  lemma Twice(w: World, c: nat, pc: ClientPc, next: ClientPc)
    ensures ClientAt(ClientAt(w, c, pc), c, next) == ClientAt(w, c, next)
  {
    assert w.clients[c := pc][c := next] == w.clients[c := next];
  }

  lemma AsksOn(w: World, c: nat, pc: ClientPc, u: World, next: ClientPc, n: nat, v: World)
    requires !pc.Answered? && Apply(UnlinkThenUnlock, ClientAt(w, c, pc), ClientStep(c, Succeeds)) == ClientAt(u, c, next)
    requires Asks(ClientAt(u, c, next), c, n, v)
    ensures Asks(ClientAt(w, c, pc), c, n + 1, v)
  {
  }

  /** Who answers at the endpoint: the server behind a restricted entry, while its socket is open. */
  ghost function Answering(w: World): Option<nat> {
    if w.socket.Some? && w.socket.value.restricted && w.socket.value.owner in w.servers && Serving(w.servers[w.socket.value.owner])
    then Some(w.socket.value.owner) else None
  }

  /** The answer of a client that has tried the socket. */
  ghost function Classified(w: World, hasFile: bool, connected: Option<nat>): ClientOutcome {
    if !hasFile || w.authority.None? then NoOwner
    else if connected.Some? then Connected(connected.value)
    else OwnerUnresponsive
  }

  lemma ClassifiesAlone(w: World, c: nat, hasFile: bool, connected: Option<nat>)
    requires c !in w.clients
    ensures Asks(ClientAt(w, c, Classify(hasFile, connected)), c, 2, ClientAt(w, c, Answered(Classified(w, hasFile, connected))))
  {
    var pc, answer := Classify(hasFile, connected), Answered(Classified(w, hasFile, connected));
    Twice(w, c, pc, answer);
    if hasFile && w.authority.None? {
      var held := w.(authority := Some(Probe(c)));
      Twice(w, c, pc, Unlock);
      Twice(w, c, Unlock, answer);
      AsksOn(held, c, Unlock, w, answer, 0, ClientAt(w, c, answer));
      AsksOn(w, c, pc, held, Unlock, 1, ClientAt(w, c, answer));
    } else {
      AsksOn(w, c, pc, w, answer, 1, ClientAt(w, c, answer));
    }
  }

  lemma ConnectsAlone(w: World, c: nat, hasFile: bool)
    requires c !in w.clients && w.socket.Some? && w.socket.value.restricted
    ensures Asks(ClientAt(w, c, Connect(hasFile)), c, 3, ClientAt(w, c, Answered(Classified(w, hasFile, Answering(w)))))
  {
    var next := Classify(hasFile, Answering(w));
    Twice(w, c, Connect(hasFile), next);
    ClassifiesAlone(w, c, hasFile, Answering(w));
    AsksOn(w, c, Connect(hasFile), w, next, 2, ClientAt(w, c, Answered(Classified(w, hasFile, Answering(w)))));
  }

  /** The answer of a client that asks alone. */
  ghost function Answer(w: World): ClientOutcome {
    if w.socket.Some? && !w.socket.value.restricted then Failed else Classified(w, w.authorityFile, Answering(w))
  }

  /** A client that asks alone changes nothing and gets this answer. */
  lemma AskAlone(w: World, c: nat)
    requires c !in w.clients
    ensures Enabled(w, StartClient(c))
    ensures Asks(Apply(UnlinkThenUnlock, w, StartClient(c)), c, 5, ClientAt(w, c, Answered(Answer(w))))
  {
    var v, next := ClientAt(w, c, Answered(Answer(w))), Validate(w.authorityFile);
    Twice(w, c, OpenAuthority, next);
    if w.socket.None? {
      Twice(w, c, next, Classify(w.authorityFile, None));
      ClassifiesAlone(w, c, w.authorityFile, None);
      hide Answer, Classified;
      Longer(ClientAt(w, c, Classify(w.authorityFile, None)), c, 2, v);
      AsksOn(w, c, next, w, Classify(w.authorityFile, None), 3, v);
    } else if w.socket.value.restricted {
      Twice(w, c, next, Connect(w.authorityFile));
      ConnectsAlone(w, c, w.authorityFile);
      AsksOn(w, c, next, w, Connect(w.authorityFile), 3, v);
    } else {
      Twice(w, c, next, Answered(Failed));
      AsksOn(w, c, next, w, Answered(Failed), 3, v);
    }
    AsksOn(w, c, OpenAuthority, w, next, 4, v);
  }

  lemma Longer(w: World, c: nat, n: nat, v: World)
    requires Asks(w, c, n, v)
    ensures Asks(w, c, n + 1, v)
    decreases n
  {
    if !w.clients[c].Answered? {
      Longer(Apply(UnlinkThenUnlock, w, ClientStep(c, Succeeds)), c, n - 1, v);
    }
  }

  /** In every reachable world: a client that asks alone is connected to the server that listens. */
  lemma ListenerIsFound(w: World, s: nat, c: nat)
    requires Reachable(w) && s in w.servers && w.servers[s].Listening? && c !in w.clients
    ensures Enabled(w, StartClient(c))
    ensures Asks(Apply(UnlinkThenUnlock, w, StartClient(c)), c, 5, ClientAt(w, c, Answered(Connected(s))))
  {
    ReachableInv(w);
    assert ServerOk(w, s);
    AskAlone(w, c);
  }

  /** In every reachable world, for every answer: who is connected to whom, who is told that an owner does not respond, and who
      that there is none. */
  lemma AnswersAlone(w: World, c: nat)
    requires Reachable(w) && c !in w.clients
    ensures forall s: nat :: Answer(w) == Connected(s) <==>
      s in w.servers && Serving(w.servers[s]) && w.socket.Some? && w.socket.value.restricted
    ensures Answer(w).NoOwner? <==> !SomeServer(w) && !SomeProbe(w) && (w.socket.None? || w.socket.value.restricted)
    ensures Answer(w).Failed? <==> w.socket.Some? && !w.socket.value.restricted
  {
    ReachableInv(w);
    WhoHoldsTheLock(w);
    forall s | s in w.servers ensures ServerOk(w, s) { }
  }

  // ---------------------------------------------------------------- clients among the others

  /** However the others move: a connection is made exactly to a server whose socket is open. */
  lemma ConnectsIffServing(w: World, c: nat, s: nat)
    requires Reachable(w) && c in w.clients && w.clients[c].Connect?
    ensures Apply(UnlinkThenUnlock, w, ClientStep(c, Succeeds)).clients[c] == Classify(w.clients[c].hasFile, Some(s))
            <==> s in w.servers && Serving(w.servers[s])
  {
    ReachableInv(w);
    if s in w.servers { assert ServerOk(w, s); }
  }

  /** However the others move: a client that saw the authority file is told of its connection, or of an owner that does not
      respond, exactly while a server or another probe holds the lock; else it goes on to answer `NoOwner`. */
  lemma ClassifiedIffLocked(w: World, c: nat)
    requires Reachable(w) && c in w.clients && w.clients[c].Classify?
    ensures var pc, next := w.clients[c], Apply(UnlinkThenUnlock, w, ClientStep(c, Succeeds)).clients[c];
      var busy := pc.hasFile && (SomeServer(w) || SomeProbe(w));
      && (forall s: nat :: next == Answered(Connected(s)) <==> busy && pc.connected == Some(s))
      && (next == Answered(OwnerUnresponsive) <==> busy && pc.connected.None?)
      && (next == Unlock || next == Answered(NoOwner) <==> !busy)
  {
    WhoHoldsTheLock(w);
    hide SomeServer, SomeProbe, Reachable;
  }

  // ---------------------------------------------------------------- servers

  /** The server takes up to `n` steps alone, each of which goes well, until it listens, is refused or is gone. */
  ghost predicate Starts(w: World, s: nat, identity: nat, private: bool, n: nat, v: World)
    decreases n
  {
    if s !in w.servers || w.servers[s].Listening? || w.servers[s].AlreadyOwned? then v == w
    else
      && n > 0 && Enabled(w, ServerStep(s, true, identity, private))
      && Starts(Apply(UnlinkThenUnlock, w, ServerStep(s, true, identity, private)), s, identity, private, n - 1, v)
  }

  lemma StartsOn(w: World, s: nat, pc: ServerPc, identity: nat, private: bool, u: World, next: ServerPc, n: nat, v: World)
    requires !pc.Listening? && !pc.AlreadyOwned?
    requires Apply(UnlinkThenUnlock, ServerAt(w, s, pc), ServerStep(s, true, identity, private)) == ServerAt(u, s, next)
    requires Starts(ServerAt(u, s, next), s, identity, private, n, v)
    ensures Starts(ServerAt(w, s, pc), s, identity, private, n + 1, v)
  {
  }

  lemma StartsLonger(w: World, s: nat, identity: nat, private: bool, n: nat, v: World)
    requires Starts(w, s, identity, private, n, v)
    ensures Starts(w, s, identity, private, n + 1, v)
    decreases n
  {
    if s in w.servers && !w.servers[s].Listening? && !w.servers[s].AlreadyOwned? {
      StartsLonger(Apply(UnlinkThenUnlock, w, ServerStep(s, true, identity, private)), s, identity, private, n - 1, v);
    }
  }

  lemma BindsAlone(w: World, s: nat, identity: nat, private: bool)
    requires w.socket.None?
    ensures Starts(ServerAt(w, s, Binding), s, identity, private, 4,
                   ServerAt(w.(socket := Some(SocketEntry(identity, s, true))), s, Listening(identity)))
  {
    var bound, closed := w.(socket := Some(SocketEntry(identity, s, private))), w.(socket := Some(SocketEntry(identity, s, true)));
    var v := ServerAt(closed, s, Listening(identity));
    Again(closed, s, ReadIdentity, Listening(identity));
    Again(closed, s, Validating, ReadIdentity);
    Again(closed, s, Restricting, Validating);
    Again(bound, s, Binding, Restricting);
    StartsOn(closed, s, ReadIdentity, identity, private, closed, Listening(identity), 0, v);
    StartsOn(closed, s, Validating, identity, private, closed, ReadIdentity, 1, v);
    StartsOn(bound, s, Restricting, identity, private, closed, Validating, 2, v);
    StartsOn(w, s, Binding, identity, private, bound, Restricting, 3, v);
  }

  lemma ClearsAlone(w: World, s: nat, identity: nat, private: bool, v: World)
    requires w.socket.None? || w.socket.value.restricted
    requires Starts(ServerAt(w.(socket := None), s, Binding), s, identity, private, 4, v)
    ensures Starts(ServerAt(w, s, InspectStale), s, identity, private, 8, v)
  {
    var cleared := w.(socket := None);
    if w.socket.None? {
      Again(w, s, InspectStale, Binding);
      hide Starts;
      StartsOn(w, s, InspectStale, identity, private, cleared, Binding, 4, v);
      StartsLonger(ServerAt(w, s, InspectStale), s, identity, private, 5, v);
      StartsLonger(ServerAt(w, s, InspectStale), s, identity, private, 6, v);
      StartsLonger(ServerAt(w, s, InspectStale), s, identity, private, 7, v);
    } else {
      var stale := w.socket.value.identity;
      Again(cleared, s, RecheckStale, Binding);
      Again(cleared, s, UnlinkStale(stale), RecheckStale);
      Again(w, s, MatchStale(stale), UnlinkStale(stale));
      Again(w, s, InspectStale, MatchStale(stale));
      hide Starts;
      StartsOn(cleared, s, RecheckStale, identity, private, cleared, Binding, 4, v);
      StartsOn(w, s, UnlinkStale(stale), identity, private, cleared, RecheckStale, 5, v);
      StartsOn(w, s, MatchStale(stale), identity, private, w, UnlinkStale(stale), 6, v);
      StartsOn(w, s, InspectStale, identity, private, w, MatchStale(stale), 7, v);
    }
  }

  /** What a server that starts alone leaves. */
  ghost function Started(w: World, s: nat, identity: nat): World {
    var file := w.(authorityFile := true);
    if w.authority.Some? then ServerAt(file, s, AlreadyOwned)
    else if w.socket.Some? && !w.socket.value.restricted then file
    else ServerAt(file.(authority := Some(Server(s)), socket := Some(SocketEntry(identity, s, true))), s, Listening(identity))
  }

  /** A server that starts alone listens at its own, restricted entry exactly if the lock is free and no unrestricted entry is
      there; if the lock is taken it reports `AlreadyOwned`, and an unrestricted entry makes it give up. */
  lemma StartAlone(w: World, s: nat, identity: nat, private: bool)
    requires s !in w.servers
    ensures Enabled(w, StartServer(s))
    ensures Starts(Apply(UnlinkThenUnlock, w, StartServer(s)), s, identity, private, 9, Started(w, s, identity))
  {
    var file, v := w.(authorityFile := true), Started(w, s, identity);
    if w.authority.Some? {
      Again(file, s, WantLock, AlreadyOwned);
      StartsOn(file, s, WantLock, identity, private, file, AlreadyOwned, 8, v);
    } else {
      var held := file.(authority := Some(Server(s)));
      Again(file, s, WantLock, InspectStale);
      if w.socket.Some? && !w.socket.value.restricted {
        GivesUpAlone(held, s, identity, private);
      } else {
        BindsAlone(held.(socket := None), s, identity, private);
        hide Starts;
        ClearsAlone(held, s, identity, private, v);
      }
      hide Starts;
      StartsOn(file, s, WantLock, identity, private, held, InspectStale, 8, v);
    }
  }

  lemma GivesUpAlone(held: World, s: nat, identity: nat, private: bool)
    requires s !in held.servers && held.authority == Some(Server(s)) && held.socket.Some? && !held.socket.value.restricted
    ensures Starts(ServerAt(held, s, InspectStale), s, identity, private, 8, held.(authority := None))
  {
    assert held.servers[s := InspectStale] - {s} == held.servers;
  }

  /** The destructor alone: entry, lock and server are gone, and nothing else. */
  lemma DropAlone(w: World, s: nat, identity: nat, private: bool)
    requires Reachable(w) && s in w.servers && w.servers[s].Listening?
    ensures Enabled(w, StartDrop(s))
    ensures Starts(Apply(UnlinkThenUnlock, w, StartDrop(s)), s, identity, private, 3, w.(servers := w.servers - {s}, authority := None, socket := None))
  {
    ReachableInv(w);
    assert ServerOk(w, s) && HoldsAuthority(w.servers[s]);
    var own := w.servers[s].identity;
    var bare, v := w.(socket := None), w.(servers := w.servers - {s}, authority := None, socket := None);
    UnlocksAlone(bare, s, identity, private);
    hide Starts, Reachable, Inv;
    Again(w, s, DropInspect(own), DropUnlink(own));
    Again(bare, s, DropUnlink(own), DropUnlock);
    StartsOn(w, s, DropUnlink(own), identity, private, bare, DropUnlock, 1, v);
    StartsOn(w, s, DropInspect(own), identity, private, w, DropUnlink(own), 2, v);
  }

  lemma UnlocksAlone(w: World, s: nat, identity: nat, private: bool)
    requires w.authority == Some(Server(s))
    ensures Starts(ServerAt(w, s, DropUnlock), s, identity, private, 1, w.(servers := w.servers - {s}, authority := None))
  {
    assert w.servers[s := DropUnlock] - {s} == w.servers - {s};
  }
}

/** The bus seen from outside: runs of steps, what was published in them, and what a subscriber gets. */
module EventBusRuns {
  import opened EventBus

  /** The events of the publishing steps. */
  function Published(steps: seq<Step>): seq<Event> {
    if steps == [] then [] else EventsOf(steps[0]) + Published(steps[1..])
  }

  /** The event of one step, if it publishes. */
  function EventsOf(s: Step): seq<Event> {
    if s.Publish? then [s.event] else []
  }

  lemma Grouped(a: seq<Event>, b: seq<Event>, c: seq<Event>)
    ensures (a + b) + c == a + (b + c)
  {
  }

  lemma {:induction false} PublishedConcat(a: seq<Step>, b: seq<Step>)
    ensures Published(a + b) == Published(a) + Published(b)
  {
    if a == [] {
      assert a + b == b;
      assert [] + Published(b) == Published(b);
    } else {
      var s, rest := a[0], a[1..];
      assert a + b == [s] + (rest + b) && ([s] + (rest + b))[1..] == rest + b;
      PublishedConcat(rest, b);
      Grouped(EventsOf(s), Published(rest), Published(b));
    }
  }

  lemma LogAStep(w: World, s: Step)
    requires Enabled(w, s)
    ensures Apply(w, s).log == w.log + EventsOf(s)
  {
  }

  /** The log is what the run published, in its order. */
  lemma {:induction false} LogIsPublished(w: World, steps: seq<Step>, v: World)
    requires Reaches(w, steps, v)
    ensures v.log == w.log + Published(steps)
    decreases |steps|
  {
    hide Apply, Enabled;
    if steps == [] {
      assert w.log + [] == w.log;
    } else {
      LogAStep(w, steps[0]);
      LogIsPublished(Apply(w, steps[0]), steps[1..], v);
      Grouped(w.log, EventsOf(steps[0]), Published(steps[1..]));
    }
  }

  lemma {:induction false} RunsSplit(w: World, a: seq<Step>, b: seq<Step>, v: World) returns (u: World)
    requires Reaches(w, a + b, v)
    ensures Reaches(w, a, u) && Reaches(u, b, v)
    decreases |a|
  {
    if a == [] {
      u := w;
      assert a + b == b;
    } else {
      assert (a + b)[0] == a[0] && (a + b)[1..] == a[1..] + b;
      u := RunsSplit(Apply(w, a[0]), a[1..], b, v);
    }
  }

  lemma {:induction false} RunsJoin(w: World, a: seq<Step>, u: World, b: seq<Step>, v: World)
    requires Reaches(w, a, u) && Reaches(u, b, v)
    ensures Reaches(w, a + b, v)
    decreases |a|
  {
    if a == [] {
      assert a + b == b;
    } else {
      assert (a + b)[1..] == a[1..] + b;
      RunsJoin(Apply(w, a[0]), a[1..], u, b, v);
    }
  }

  ghost predicate NoClose(steps: seq<Step>, r: nat) {
    forall k :: 0 <= k < |steps| ==> steps[k] != Close(r)
  }

  /** A subscriber that does not leave stays, and the moment of its joining is not forgotten. */
  lemma {:induction false} StaysSubscribed(w: World, steps: seq<Step>, v: World, r: nat)
    requires Reaches(w, steps, v) && NoClose(steps, r) && r in w.channels && w.channels[r].open && r in w.joined && r in w.since
    ensures r in v.channels && v.channels[r].open && r in v.joined && r in v.since
    ensures v.joined[r] == w.joined[r] && v.since[r] == w.since[r]
    decreases |steps|
  {
    if steps != [] {
      assert steps[0] != Close(r);
      assert NoClose(steps[1..], r);
      hide Reaches;
      StaysAStep(w, steps[0], r);
      hide Apply, Enabled;
      assert Reaches(Apply(w, steps[0]), steps[1..], v) by { FirstStep(w, steps, v); }
      StaysSubscribed(Apply(w, steps[0]), steps[1..], v, r);
    }
  }

  lemma FirstStep(w: World, steps: seq<Step>, v: World)
    requires Reaches(w, steps, v) && steps != []
    ensures Enabled(w, steps[0]) && Reaches(Apply(w, steps[0]), steps[1..], v)
  {
  }

  lemma StaysAStep(w: World, s: Step, r: nat)
    requires Enabled(w, s) && s != Close(r) && r in w.channels && w.channels[r].open && r in w.joined && r in w.since
    ensures var v := Apply(w, s);
      && r in v.channels && v.channels[r].open && r in v.joined && r in v.since
      && v.joined[r] == w.joined[r] && v.since[r] == w.since[r]
  {
  }

  /** Nothing is waiting. */
  predicate CaughtUp(w: World) {
    w.ingress == [] && w.worker.Idle?
  }

  /** A subscriber that joined after `a` and has not left gets, once the worker caught up, everything that was published after
      it joined, in order and once, behind some of the last events before: nothing else. */
  lemma SubscriberGetsAll(w: World, a: seq<Step>, r: nat, b: seq<Step>, v: World) returns (early: seq<Event>)
    requires Init(w) && Reaches(w, a + ([Subscribe(r)] + b), v) && NoClose(b, r) && CaughtUp(v)
    ensures r in v.channels && v.channels[r].sent == early + Published(b)
    ensures |early| <= |Published(a)| && early == Published(a)[|Published(a)| - |early|..]
  {
    var u := RunsSplit(w, a, [Subscribe(r)] + b, v);
    assert ([Subscribe(r)] + b)[1..] == b;
    var joined := Apply(u, Subscribe(r));
    LogIsPublished(w, a, u);
    LogIsPublished(joined, b, v);
    StaysSubscribed(joined, b, v, r);
    assert Reachable(v);
    assert u.log == Published(a) && v.log == Published(a) + Published(b) && v.since[r] == |Published(a)| by {
      assert [] + Published(a) == Published(a);
    }
    hide Reaches, Apply, Enabled, Init, Reachable;
    WholeStream(v, r);
    TailOfBoth(Published(a), Published(b), v.joined[r]);
    early := Published(a)[v.joined[r]..];
  }

  lemma TailOfBoth(a: seq<Event>, b: seq<Event>, j: nat)
    requires j <= |a|
    ensures (a + b)[j..] == a[j..] + b && a[|a| - |a[j..]|..] == a[j..]
  {
  }

  /** Caught up, an open subscriber has the whole log from its joining on. */
  lemma WholeStream(v: World, r: nat)
    requires Reachable(v) && CaughtUp(v) && r in v.channels && v.channels[r].open
    ensures r in v.joined && r in v.since && v.joined[r] <= v.since[r] <= |v.log| && v.channels[r].sent == v.log[v.joined[r]..]
  {
    ReachableSatisfiesInv(v);
    OpenStreamIsASegment(v, r);
    assert ChannelOk(v, r) && QueueOk(v);
    hide Inv, ChannelOk, Reachable;
    assert |v.log[v.offered..]| == 0;
    assert Horizon(v, r) == |v.log|;
    assert v.log[v.joined[r]..|v.log|] == v.log[v.joined[r]..];
  }

  // ---------------------------------------------------------------- the worker catches up

  predicate OfWorker(s: Step) {
    s.Receive? || s.Lock? || s.Offer? || s.Unlock?
  }

  ghost predicate WorkerOnly(steps: seq<Step>) {
    forall k :: 0 <= k < |steps| ==> OfWorker(steps[k])
  }

  /** What the worker does next. */
  function WorkersTurn(w: World): Step {
    match w.worker
    case Idle => Receive
    case Received(_) => Lock
    case Offering(_, index, _) => if index < |w.sinks| then Offer else Unlock
  }

  /** How far the worker is with the event in hand. */
  function Phase(w: World): nat {
    match w.worker
    case Idle => 0
    case Received(_) => 2
    case Offering(_, _, _) => 1
  }

  function Remaining(w: World): nat {
    if w.worker.Offering? && w.worker.index < |w.sinks| then |w.sinks| - w.worker.index else 0
  }

  lemma WorkerCanMove(w: World)
    requires Inv(w) && !CaughtUp(w)
    ensures Enabled(w, WorkersTurn(w)) && OfWorker(WorkersTurn(w))
    ensures var v := Apply(w, WorkersTurn(w));
      && v.log == w.log
      && (|v.ingress| < |w.ingress| || (|v.ingress| == |w.ingress| && (Phase(v) < Phase(w) || (Phase(v) == Phase(w) && Remaining(v) < Remaining(w)))))
  {
    assert SinksOk(w);
    if w.worker.Offering? && w.worker.index < |w.sinks| { assert w.sinks[w.worker.index] in w.sinks; }
  }

  /** From every state the worker alone catches up: it never gets stuck, whoever left. */
  lemma {:induction false} WorkerCatchesUp(w: World) returns (steps: seq<Step>, v: World)
    requires Inv(w)
    ensures Reaches(w, steps, v) && WorkerOnly(steps) && CaughtUp(v)
    decreases |w.ingress|, Phase(w), Remaining(w)
  {
    if CaughtUp(w) {
      steps, v := [], w;
    } else {
      var s := WorkersTurn(w);
      WorkerCanMove(w);
      StepKeepsInv(w, s);
      hide Inv, Apply, WorkersTurn, Phase, Remaining, CaughtUp;
      var rest;
      rest, v := WorkerCatchesUp(Apply(w, s));
      steps := [s] + rest;
      assert steps[1..] == rest;
    }
  }

  lemma {:induction false} WorkerPublishesNothing(steps: seq<Step>)
    requires WorkerOnly(steps)
    ensures Published(steps) == [] && forall r :: NoClose(steps, r)
  {
    if steps != [] {
      assert OfWorker(steps[0]);
      assert WorkerOnly(steps[1..]);
      WorkerPublishesNothing(steps[1..]);
      forall r ensures NoClose(steps, r) {
        forall k | 0 <= k < |steps| ensures steps[k] != Close(r) { assert OfWorker(steps[k]); }
      }
    }
  }

  /** So every event reaches every subscriber that stays: after any run, the worker alone brings each of them all that was
      published since it joined. */
  lemma EveryEventArrives(w: World, a: seq<Step>, r: nat, b: seq<Step>, u: World) returns (steps: seq<Step>, v: World, early: seq<Event>)
    requires Init(w) && Reaches(w, a + ([Subscribe(r)] + b), u) && NoClose(b, r)
    ensures WorkerOnly(steps) && Reaches(u, steps, v) && CaughtUp(v)
    ensures r in v.channels && v.channels[r].sent == early + Published(b)
    ensures |early| <= |Published(a)| && early == Published(a)[|Published(a)| - |early|..]
  {
    hide CaughtUp;
    assert Reachable(u);
    ReachableSatisfiesInv(u);
    hide Reaches, Init, Inv, Published, WorkerOnly;
    steps, v := WorkerCatchesUp(u);
    WorkerPublishesNothing(steps);
    RunsJoin(w, a + ([Subscribe(r)] + b), u, steps, v);
    assert a + ([Subscribe(r)] + b) + steps == a + ([Subscribe(r)] + (b + steps));
    assert NoClose(b + steps, r);
    early := SubscriberGetsAll(w, a, r, b + steps, v);
    PublishedConcat(b, steps);
    assert Published(b) + [] == Published(b);
  }

  // ---------------------------------------------------------------- who left is dropped

  /** Subscriber `r` left before the worker began its turn number `n`: while that turn lasts it is not kept, and after it
      nobody offers it anything. */
  ghost predicate OnItsWayOut(w: World, r: nat, n: nat) {
    && r in w.channels && !w.channels[r].open && w.offered >= n && (w.worker.Offering? ==> r !in w.worker.kept)
    && (w.offered > n ==> r !in w.sinks)
  }

  lemma StaysOnItsWayOut(w: World, s: Step, r: nat, n: nat)
    requires OnItsWayOut(w, r, n) && Enabled(w, s)
    ensures OnItsWayOut(Apply(w, s), r, n)
  {
  }

  /** The first turn that begins after a subscriber left ends without it among the sinks, and it never comes back. */
  lemma {:induction false} WhoLeftIsDropped(w: World, steps: seq<Step>, v: World, r: nat)
    requires Reaches(w, steps, v) && r in w.channels && !w.channels[r].open && !w.worker.Offering?
    ensures v.offered > w.offered ==> r !in v.sinks
  {
    LeavesForGood(w, steps, v, r, w.offered);
  }

  lemma {:induction false} LeavesForGood(w: World, steps: seq<Step>, v: World, r: nat, n: nat)
    requires Reaches(w, steps, v) && OnItsWayOut(w, r, n)
    ensures OnItsWayOut(v, r, n)
    decreases |steps|
  {
    hide Apply, Enabled, OnItsWayOut;
    if steps != [] {
      StaysOnItsWayOut(w, steps[0], r, n);
      LeavesForGood(Apply(w, steps[0]), steps[1..], v, r, n);
    }
  }
}

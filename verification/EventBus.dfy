/** In-process fanout: one ingress queue, one worker thread, subscribers that join and leave at any time. A step is what one
    thread does at once: queue operations are atomic, and the worker holds the subscribers' mutex while it offers an event. */
module EventBus {
  datatype Event =
    | IndexingStarted(fileCount: nat)
    | IndexingProgress(current: nat, total: nat)
    | IndexingComplete(durationMs: nat)
    | ShowWarning(message: string)
    | StatusUpdate(message: string)

  /** A subscriber's channel: all that was ever sent into it, and whether its receiver still exists. */
  datatype Channel = Channel(sent: seq<Event>, open: bool)

  /** The worker has nothing in hand, has received an event, or is offering it to the sinks with the mutex held. */
  datatype Worker = Idle | Received(event: Event) | Offering(event: Event, index: nat, kept: seq<nat>)

  /** `log` are all published events; for the proofs, `offered` counts the events whose turn is over, `joined` and `since`
      remember how many were offered and how many were published when a subscriber joined, `left` how many were offered when it
      left. */
  datatype World = World(ingress: seq<Event>, sinks: seq<nat>, channels: map<nat, Channel>, worker: Worker,
                         log: seq<Event>, offered: nat, joined: map<nat, nat>, since: map<nat, nat>, left: map<nat, nat>)

  datatype Step = Publish(event: Event) | Subscribe(r: nat) | Close(r: nat) | Receive | Lock | Offer | Unlock

  predicate Enabled(w: World, s: Step) {
    match s
    case Publish(_) => true
    case Subscribe(r) => r !in w.channels && !w.worker.Offering?
    case Close(r) => r in w.channels && w.channels[r].open
    case Receive => w.worker.Idle? && w.ingress != []
    case Lock => w.worker.Received?
    case Offer => w.worker.Offering? && w.worker.index < |w.sinks| && w.sinks[w.worker.index] in w.channels
    case Unlock => w.worker.Offering? && w.worker.index >= |w.sinks|
  }

  function Apply(w: World, s: Step): World
    requires Enabled(w, s)
  {
    match s
    case Publish(event) => w.(ingress := w.ingress + [event], log := w.log + [event])
    case Subscribe(r) =>
      w.(sinks := w.sinks + [r], channels := w.channels[r := Channel([], true)],
         joined := w.joined[r := w.offered], since := w.since[r := |w.log|])
    case Close(r) => w.(channels := w.channels[r := w.channels[r].(open := false)], left := w.left[r := w.offered])
    case Receive => w.(worker := Received(w.ingress[0]), ingress := w.ingress[1..])
    case Lock => w.(worker := Offering(w.worker.event, 0, []))
    case Offer =>
      var r := w.sinks[w.worker.index];
      var channel := w.channels[r];
      var next := w.worker.(index := w.worker.index + 1);
      if channel.open then
        w.(channels := w.channels[r := channel.(sent := channel.sent + [w.worker.event])], worker := next.(kept := w.worker.kept + [r]))
      else
        w.(worker := next)
    case Unlock => w.(sinks := w.worker.kept, worker := Idle, offered := w.offered + 1)
  }

  ghost predicate Init(w: World) {
    w == World([], [], map[], Idle, [], 0, map[], map[], map[])
  }

  ghost predicate Reaches(w: World, steps: seq<Step>, v: World)
    decreases |steps|
  {
    if steps == [] then w == v else Enabled(w, steps[0]) && Reaches(Apply(w, steps[0]), steps[1..], v)
  }

  ghost predicate Reachable(v: World) {
    exists w, steps :: Init(w) && Reaches(w, steps, v)
  }

  // ---------------------------------------------------------------- the invariant

  /** How many events the worker took out of the queue. */
  function Taken(w: World): nat {
    if w.worker.Idle? then w.offered else w.offered + 1
  }

  ghost predicate QueueOk(w: World) {
    && Taken(w) <= |w.log| && w.ingress == w.log[Taken(w)..]
    && (!w.worker.Idle? ==> w.worker.event == w.log[w.offered])
  }

  ghost predicate Distinct(s: seq<nat>) {
    forall i, j :: 0 <= i < j < |s| ==> s[i] != s[j]
  }

  ghost predicate SinksOk(w: World) {
    && Distinct(w.sinks) && (forall r :: r in w.sinks ==> r in w.channels)
    && w.channels.Keys == w.joined.Keys == w.since.Keys
    && (w.worker.Offering? ==>
          && w.worker.index <= |w.sinks| && Distinct(w.worker.kept)
          && forall r :: r in w.worker.kept ==> r in w.sinks[..w.worker.index])
  }

  /** Subscriber `r` was sent the events from number `joined` to before number `n`. */
  ghost predicate Segment(w: World, r: nat, n: nat)
    requires r in w.channels && r in w.joined
  {
    w.joined[r] <= n <= |w.log| && w.channels[r].sent == w.log[w.joined[r]..n]
  }

  /** The worker has offered the event in hand to `r` already. */
  predicate Served(w: World, r: nat) {
    w.worker.Offering? && w.worker.index <= |w.sinks| && r in w.sinks[..w.worker.index]
  }

  /** The number of the first event that `r` was not sent yet. */
  function Horizon(w: World, r: nat): nat {
    if Served(w, r) then w.offered + 1 else w.offered
  }

  ghost predicate ChannelOk(w: World, r: nat)
    requires r in w.channels && r in w.joined && r in w.since
  {
    && w.joined[r] <= w.offered && w.joined[r] <= w.since[r] <= |w.log|
    && (if w.channels[r].open then
          && r in w.sinks && Segment(w, r, Horizon(w, r))
          && (Served(w, r) ==> r in w.worker.kept)
        else
          r in w.left && exists n: nat :: w.left[r] <= n <= Horizon(w, r) && Segment(w, r, n))
  }

  ghost predicate Inv(w: World) {
    && QueueOk(w) && SinksOk(w)
    && forall r :: r in w.channels ==> ChannelOk(w, r)
  }

  // ---------------------------------------------------------------- every step keeps it

  lemma LongerLog(log: seq<Event>, event: Event, from: nat, to: nat)
    requires from <= to <= |log|
    ensures (log + [event])[from..to] == log[from..to]
  {
  }

  lemma PublishKeepsChannel(w: World, event: Event, r: nat)
    requires r in w.channels && r in w.joined && r in w.since && ChannelOk(w, r)
    ensures ChannelOk(Apply(w, Publish(event)), r)
  {
    var v := Apply(w, Publish(event));
    forall n: nat | Segment(w, r, n)
      ensures Segment(v, r, n)
    {
      LongerLog(w.log, event, w.joined[r], n);
    }
  }

  lemma PublishShape(w: World, event: Event)
    requires QueueOk(w) && SinksOk(w)
    ensures QueueOk(Apply(w, Publish(event))) && SinksOk(Apply(w, Publish(event)))
  {
    hide Distinct;
    assert Apply(w, Publish(event)).log[Taken(w)..] == w.log[Taken(w)..] + [event];
  }

  lemma PublishKeepsInv(w: World, event: Event)
    requires Inv(w)
    ensures Inv(Apply(w, Publish(event)))
  {
    PublishShape(w, event);
    hide ChannelOk, QueueOk, SinksOk;
    forall r | r in w.channels
      ensures ChannelOk(Apply(w, Publish(event)), r)
    {
      ChannelsExist(w, r);
      PublishKeepsChannel(w, event, r);
    }
  }

  /** Subscriber `r` is as it was, and the worker's position moved on for a closed one only. */
  ghost predicate Undisturbed(w: World, v: World, r: nat) {
    && r in w.channels && r in w.joined && r in w.since && r in v.channels && r in v.joined && r in v.since
    && v.channels[r] == w.channels[r] && v.joined[r] == w.joined[r] && v.since[r] == w.since[r]
    && v.log == w.log && v.offered >= w.offered
    && (if w.channels[r].open then
          && Horizon(v, r) == Horizon(w, r) && (r in w.sinks ==> r in v.sinks)
          && (Served(v, r) ==> Served(w, r) && (r in w.worker.kept ==> r in v.worker.kept))
        else
          (r in w.left ==> r in v.left && v.left[r] == w.left[r]) && Horizon(v, r) >= Horizon(w, r))
  }

  lemma ChannelKept(w: World, v: World, r: nat)
    requires r in w.channels && r in w.joined && r in w.since && ChannelOk(w, r) && Undisturbed(w, v, r)
    ensures ChannelOk(v, r)
  {
    hide Horizon, Served;
    assert forall n: nat :: Segment(w, r, n) ==> Segment(v, r, n);
  }

  lemma AllChannelsKept(w: World, v: World)
    requires SinksOk(w) && SinksOk(v) && (forall r :: r in w.channels ==> ChannelOk(w, r))
    requires v.channels.Keys == w.channels.Keys && forall r :: r in w.channels ==> Undisturbed(w, v, r)
    ensures forall r :: r in v.channels ==> ChannelOk(v, r)
  {
    hide ChannelOk, Undisturbed;
    forall r | r in v.channels
      ensures ChannelOk(v, r)
    {
      ChannelKept(w, v, r);
    }
  }

  lemma SubscribeShape(w: World, r: nat)
    requires QueueOk(w) && SinksOk(w) && Enabled(w, Subscribe(r))
    ensures QueueOk(Apply(w, Subscribe(r))) && SinksOk(Apply(w, Subscribe(r)))
    ensures ChannelOk(Apply(w, Subscribe(r)), r)
  {
    DistinctMore(w.sinks, r);
    hide Distinct;
  }

  lemma SubscribeLeavesTheRest(w: World, r: nat, q: nat)
    requires SinksOk(w) && Enabled(w, Subscribe(r)) && q in w.channels
    ensures Undisturbed(w, Apply(w, Subscribe(r)), q)
  {
  }

  lemma SubscribeKeepsInv(w: World, r: nat)
    requires Inv(w) && Enabled(w, Subscribe(r))
    ensures Inv(Apply(w, Subscribe(r)))
  {
    var v := Apply(w, Subscribe(r));
    SubscribeShape(w, r);
    hide ChannelOk, Undisturbed, QueueOk, SinksOk, Enabled;
    forall q | q in v.channels
      ensures ChannelOk(v, q)
    {
      if q != r {
        SubscribeLeavesTheRest(w, r, q);
        ChannelsExist(w, q);
        ChannelKept(w, v, q);
      }
    }
  }

  lemma CloseShape(w: World, r: nat)
    requires QueueOk(w) && SinksOk(w) && Enabled(w, Close(r))
    ensures QueueOk(Apply(w, Close(r))) && SinksOk(Apply(w, Close(r)))
  {
    hide Distinct;
  }

  lemma CloseLeavesTheRest(w: World, r: nat, q: nat)
    requires SinksOk(w) && Enabled(w, Close(r)) && q in w.channels && q != r
    ensures Undisturbed(w, Apply(w, Close(r)), q)
  {
  }

  lemma CloseKeepsInv(w: World, r: nat)
    requires Inv(w) && Enabled(w, Close(r))
    ensures Inv(Apply(w, Close(r)))
  {
    var v := Apply(w, Close(r));
    CloseShape(w, r);
    ChannelsExist(w, r);
    ClosedIsOk(w, r);
    hide ChannelOk, Undisturbed, QueueOk, SinksOk;
    forall q | q in v.channels
      ensures ChannelOk(v, q)
    {
      if q != r {
        CloseLeavesTheRest(w, r, q);
        ChannelsExist(w, q);
        ChannelKept(w, v, q);
      }
    }
  }

  lemma ClosedIsOk(w: World, r: nat)
    requires r in w.channels && r in w.joined && r in w.since && ChannelOk(w, r) && w.channels[r].open
    ensures ChannelOk(Apply(w, Close(r)), r)
  {
    var v := Apply(w, Close(r));
    assert Horizon(v, r) == Horizon(w, r) && Segment(v, r, Horizon(w, r));
  }

  /** Taking an event out of the queue, and taking the mutex: nothing happens to any channel. */
  lemma WorkerPreparesShape(w: World, s: Step)
    requires QueueOk(w) && SinksOk(w) && Enabled(w, s) && (s.Receive? || s.Lock?)
    ensures QueueOk(Apply(w, s)) && SinksOk(Apply(w, s))
  {
    hide Distinct;
    if s.Receive? {
      assert w.ingress[0] == w.log[w.offered];
      assert Apply(w, s).ingress == w.log[w.offered + 1..];
    } else {
      NothingIsDistinct();
    }
  }

  lemma NothingIsDistinct()
    ensures Distinct([])
  {
  }

  lemma WorkerPreparesQuietly(w: World, s: Step, q: nat)
    requires SinksOk(w) && Enabled(w, s) && (s.Receive? || s.Lock?) && q in w.channels
    ensures Undisturbed(w, Apply(w, s), q)
  {
    hide Distinct;
  }

  lemma WorkerPreparesKeepsInv(w: World, s: Step)
    requires Inv(w) && Enabled(w, s) && (s.Receive? || s.Lock?)
    ensures Inv(Apply(w, s))
  {
    WorkerPreparesShape(w, s);
    hide ChannelOk, Undisturbed, QueueOk, SinksOk;
    forall q | q in w.channels
      ensures Undisturbed(w, Apply(w, s), q)
    {
      WorkerPreparesQuietly(w, s, q);
    }
    AllChannelsKept(w, Apply(w, s));
  }

  lemma SentOneMore(log: seq<Event>, from: nat, to: nat)
    requires from <= to < |log|
    ensures log[from..to + 1] == log[from..to] + [log[to]]
  {
  }

  lemma ServedMore(w: World, q: nat)
    requires SinksOk(w) && Enabled(w, Offer)
    ensures Served(Apply(w, Offer), q) <==> Served(w, q) || q == w.sinks[w.worker.index]
    ensures !Served(w, w.sinks[w.worker.index])
  {
    var i := w.worker.index;
    assert w.sinks[..i + 1] == w.sinks[..i] + [w.sinks[i]];
  }

  lemma DistinctMore(kept: seq<nat>, r: nat)
    requires Distinct(kept) && r !in kept
    ensures Distinct(kept + [r])
  {
  }

  lemma OfferKeepsSinks(w: World)
    requires SinksOk(w) && Enabled(w, Offer)
    ensures SinksOk(Apply(w, Offer))
  {
    var i, v := w.worker.index, Apply(w, Offer);
    assert w.sinks[..i + 1] == w.sinks[..i] + [w.sinks[i]];
    assert w.sinks[i] !in w.sinks[..i];
    DistinctMore(w.worker.kept, w.sinks[i]);
    hide Distinct;
  }

  /** What an offer to an open channel leaves in it. */
  lemma OfferedInto(w: World, r: nat)
    requires Enabled(w, Offer) && r == w.sinks[w.worker.index] && w.channels[r].open && r in w.joined
    requires QueueOk(w) && Segment(w, r, w.offered)
    ensures var v := Apply(w, Offer);
      && v.channels[r] == Channel(w.log[w.joined[r]..w.offered + 1], true) && r in v.worker.kept
      && v.offered == w.offered && v.log == w.log && v.joined == w.joined && v.since == w.since && v.sinks == w.sinks
  {
    SentOneMore(w.log, w.joined[r], w.offered);
    hide Segment;
    assert w.channels[r].sent == w.log[w.joined[r]..w.offered];
  }

  lemma OfferedIsOk(w: World)
    requires Inv(w) && Enabled(w, Offer) && w.channels[w.sinks[w.worker.index]].open
    ensures ChannelOk(Apply(w, Offer), w.sinks[w.worker.index])
  {
    var r, v := w.sinks[w.worker.index], Apply(w, Offer);
    assert QueueOk(w) && SinksOk(w);
    ChannelsExist(w, r);
    assert ChannelOk(w, r);
    ServedMore(w, r);
    hide Inv, SinksOk;
    OfferedInto(w, r);
    hide Apply, Enabled;
    assert Served(v, r) && Horizon(v, r) == w.offered + 1;
  }

  lemma OfferLeavesTheRest(w: World, q: nat)
    requires SinksOk(w) && Enabled(w, Offer) && q in w.channels && (q != w.sinks[w.worker.index] || !w.channels[q].open)
    ensures Undisturbed(w, Apply(w, Offer), q)
  {
    ServedMore(w, q);
    hide SinksOk;
  }

  lemma OfferKeepsQueue(w: World)
    requires QueueOk(w) && Enabled(w, Offer)
    ensures QueueOk(Apply(w, Offer)) && Apply(w, Offer).channels.Keys == w.channels.Keys
  {
  }

  lemma OfferKeepsInv(w: World)
    requires Inv(w) && Enabled(w, Offer)
    ensures Inv(Apply(w, Offer))
  {
    var v, r := Apply(w, Offer), w.sinks[w.worker.index];
    OfferKeepsSinks(w);
    OfferKeepsQueue(w);
    if w.channels[r].open { OfferedIsOk(w); }
    hide ChannelOk, SinksOk, QueueOk, Undisturbed, Apply;
    forall q | q in w.channels
      ensures ChannelOk(v, q)
    {
      if q != r || !w.channels[q].open {
        OfferLeavesTheRest(w, q);
        ChannelsExist(w, q);
        ChannelKept(w, v, q);
      }
    }
  }

  lemma ChannelsExist(w: World, q: nat)
    requires SinksOk(w) && q in w.channels
    ensures q in w.joined && q in w.since
  {
  }

  lemma UnlockShape(w: World)
    requires QueueOk(w) && SinksOk(w) && Enabled(w, Unlock)
    ensures QueueOk(Apply(w, Unlock)) && SinksOk(Apply(w, Unlock)) && w.sinks[..w.worker.index] == w.sinks
  {
    hide Distinct;
    assert w.sinks[..w.worker.index] == w.sinks;
  }

  lemma UnlockKeepsChannel(w: World, r: nat)
    requires w.worker.Offering? && w.worker.index == |w.sinks| && w.sinks[..w.worker.index] == w.sinks
    requires r in w.channels && r in w.joined && r in w.since && ChannelOk(w, r)
    ensures ChannelOk(Apply(w, Unlock), r)
  {
    var v := Apply(w, Unlock);
    assert forall n: nat :: Segment(w, r, n) ==> Segment(v, r, n);
  }

  lemma UnlockKeepsInv(w: World)
    requires Inv(w) && Enabled(w, Unlock)
    ensures Inv(Apply(w, Unlock))
  {
    UnlockShape(w);
    assert w.worker.index == |w.sinks|;
    hide ChannelOk, QueueOk, SinksOk;
    forall r | r in w.channels
      ensures ChannelOk(Apply(w, Unlock), r)
    {
      ChannelsExist(w, r);
      UnlockKeepsChannel(w, r);
    }
  }

  lemma StepKeepsInv(w: World, s: Step)
    requires Inv(w) && Enabled(w, s)
    ensures Inv(Apply(w, s))
  {
    hide Inv;
    match s
    case Publish(event) => PublishKeepsInv(w, event);
    case Subscribe(r) => SubscribeKeepsInv(w, r);
    case Close(r) => CloseKeepsInv(w, r);
    case Receive => WorkerPreparesKeepsInv(w, s);
    case Lock => WorkerPreparesKeepsInv(w, s);
    case Offer => OfferKeepsInv(w);
    case Unlock => UnlockKeepsInv(w);
  }

  lemma {:induction false} ReachedStatesSatisfyInv(w: World, steps: seq<Step>, v: World)
    requires Inv(w) && Reaches(w, steps, v)
    ensures Inv(v)
    decreases |steps|
  {
    if steps != [] {
      StepKeepsInv(w, steps[0]);
      ReachedStatesSatisfyInv(Apply(w, steps[0]), steps[1..], v);
    }
  }

  lemma ReachableSatisfiesInv(v: World)
    requires Reachable(v)
    ensures Inv(v)
  {
    var w, steps :| Init(w) && Reaches(w, steps, v);
    ReachedStatesSatisfyInv(w, steps, v);
  }

  // ---------------------------------------------------------------- the theorems

  /** An open subscriber was sent exactly the events from its joining up to the worker's position: in order, none twice,
      none left out, whoever else joined or left. */
  lemma OpenStreamIsASegment(w: World, r: nat)
    requires Reachable(w) && r in w.channels && w.channels[r].open
    ensures r in w.joined && w.joined[r] <= Horizon(w, r) <= |w.log|
    ensures w.channels[r].sent == w.log[w.joined[r]..Horizon(w, r)]
  {
    ReachableSatisfiesInv(w);
    assert ChannelOk(w, r);
  }

  /** What was published after `receiver` returned and has had its turn is in the stream, at its place. */
  lemma LaterEventsArrive(w: World, r: nat, k: nat)
    requires Reachable(w) && r in w.channels && w.channels[r].open
    requires r in w.since && r in w.joined && w.since[r] <= k < w.offered
    ensures k < |w.log| && exists j :: 0 <= j < |w.channels[r].sent| && w.channels[r].sent[j] == w.log[k] && j == k - w.joined[r]
  {
    ReachableSatisfiesInv(w);
    assert ChannelOk(w, r);
    assert w.channels[r].sent[k - w.joined[r]] == w.log[k];
  }

  /** The stream of a subscriber that left is a segment too. It holds every event from its joining on that had its turn before
      it left, and at most those that had theirs since. */
  lemma ClosedStreamIsASegment(w: World, r: nat)
    requires Reachable(w) && r in w.channels && !w.channels[r].open
    ensures r in w.joined && r in w.left
    ensures exists n: nat :: w.joined[r] <= n && w.left[r] <= n <= Horizon(w, r) && n <= |w.log| && w.channels[r].sent == w.log[w.joined[r]..n]
  {
    ReachableSatisfiesInv(w);
    assert ChannelOk(w, r);
    var n: nat :| w.left[r] <= n <= Horizon(w, r) && Segment(w, r, n);
    assert w.joined[r] <= n && w.left[r] <= n <= Horizon(w, r) && w.channels[r].sent == w.log[w.joined[r]..n];
  }

  /** An event that was published after `receiver` returned and had its turn before the subscriber left was sent to it. */
  lemma EventsBeforeLeavingArrive(w: World, r: nat, k: nat)
    requires Reachable(w) && r in w.channels && !w.channels[r].open
    requires r in w.since && r in w.joined && r in w.left && w.since[r] <= k < w.left[r]
    ensures k < |w.log| && exists j :: 0 <= j < |w.channels[r].sent| && w.channels[r].sent[j] == w.log[k] && j == k - w.joined[r]
  {
    ReachableSatisfiesInv(w);
    ClosedStreamIsASegment(w, r);
    assert ChannelOk(w, r);
    assert w.channels[r].sent[k - w.joined[r]] == w.log[k];
  }

  /** A turn that began with an open subscriber among the sinks ends with it among them: only the dead are dropped. */
  lemma OpenSubscribersAreRetained(w: World, r: nat)
    requires Reachable(w) && r in w.channels && w.channels[r].open
    ensures r in w.sinks
    ensures w.worker.Offering? && w.worker.index == |w.sinks| ==> r in w.worker.kept
  {
    ReachableSatisfiesInv(w);
    assert ChannelOk(w, r);
    assert w.worker.Offering? && w.worker.index == |w.sinks| ==> w.sinks[..w.worker.index] == w.sinks;
  }

  // ---------------------------------------------------------------- coming and going affects nobody else

  function Removed(s: seq<nat>, r: nat): seq<nat> {
    if s == [] then [] else (if s[0] == r then [] else [s[0]]) + Removed(s[1..], r)
  }

  lemma {:induction false} RemovedConcat(a: seq<nat>, b: seq<nat>, r: nat)
    ensures Removed(a + b, r) == Removed(a, r) + Removed(b, r)
  {
    if a == [] {
      assert a + b == b;
    } else {
      assert (a + b)[1..] == a[1..] + b;
      RemovedConcat(a[1..], b, r);
    }
  }

  lemma RemovedSnoc(s: seq<nat>, x: nat, r: nat)
    ensures Removed(s + [x], r) == if x == r then Removed(s, r) else Removed(s, r) + [x]
  {
    RemovedConcat(s, [x], r);
    assert [x][1..] == [];
  }

  /** The element at `i` finds its place among those that are left. */
  lemma RemovedAt(s: seq<nat>, i: nat, r: nat)
    requires i < |s|
    ensures |Removed(s[..i], r)| <= |Removed(s, r)| && s[..i + 1] == s[..i] + [s[i]]
    ensures s[i] != r ==> |Removed(s[..i], r)| < |Removed(s, r)| && Removed(s, r)[|Removed(s[..i], r)|] == s[i]
  {
    var front, back := s[..i] + [s[i]], s[i + 1..];
    assert s == front + back;
    RemovedSnoc(s[..i], s[i], r);
    RemovedConcat(front, back, r);
  }

  function WorkerWithout(worker: Worker, sinks: seq<nat>, r: nat): Worker {
    match worker
    case Offering(event, index, kept) =>
      Offering(event, |Removed(if index <= |sinks| then sinks[..index] else sinks, r)|, Removed(kept, r))
    case _ => worker
  }

  /** The same bus if `r` had never existed. */
  function Without(w: World, r: nat): World {
    w.(sinks := Removed(w.sinks, r), channels := w.channels - {r}, worker := WorkerWithout(w.worker, w.sinks, r),
       joined := w.joined - {r}, since := w.since - {r}, left := w.left - {r})
  }

  /** The step is about `r` only: it joins, it leaves, or the worker turns to its sink. */
  predicate Concerns(w: World, s: Step, r: nat) {
    || s == Subscribe(r) || s == Close(r)
    || (s.Offer? && w.worker.Offering? && w.worker.index < |w.sinks| && w.sinks[w.worker.index] == r)
  }

  /** A run without the steps that are about `r` only. */
  function Erased(w: World, steps: seq<Step>, r: nat): seq<Step>
    decreases |steps|
  {
    if steps == [] || !Enabled(w, steps[0]) then []
    else (if Concerns(w, steps[0], r) then [] else [steps[0]]) + Erased(Apply(w, steps[0]), steps[1..], r)
  }

  lemma OwnOfferPlace(w: World, r: nat)
    requires Enabled(w, Offer) && w.sinks[w.worker.index] == r
    ensures WorkerWithout(Apply(w, Offer).worker, w.sinks, r) == WorkerWithout(w.worker, w.sinks, r)
  {
    hide Removed;
    RemovedAt(w.sinks, w.worker.index, r);
    RemovedSnoc(w.sinks[..w.worker.index], r, r);
    RemovedSnoc(w.worker.kept, r, r);
  }

  lemma OwnOfferWithout(w: World, r: nat)
    requires Enabled(w, Offer) && w.sinks[w.worker.index] == r
    ensures Without(Apply(w, Offer), r) == Without(w, r)
  {
    OwnOfferPlace(w, r);
    hide Removed, WorkerWithout;
    assert Apply(w, Offer).channels - {r} == w.channels - {r};
  }

  lemma OfferPlace(w: World, r: nat)
    requires Enabled(w, Offer) && w.sinks[w.worker.index] != r
    ensures var q, n := w.sinks[w.worker.index], |Removed(w.sinks[..w.worker.index], r)|;
      && n < |Removed(w.sinks, r)| && Removed(w.sinks, r)[n] == q
      && WorkerWithout(w.worker, w.sinks, r) == Offering(w.worker.event, n, Removed(w.worker.kept, r))
      && WorkerWithout(Apply(w, Offer).worker, w.sinks, r) ==
         Offering(w.worker.event, n + 1, if w.channels[q].open then Removed(w.worker.kept, r) + [q] else Removed(w.worker.kept, r))
  {
    hide Removed;
    var i, q := w.worker.index, w.sinks[w.worker.index];
    RemovedAt(w.sinks, i, r);
    RemovedSnoc(w.sinks[..i], q, r);
    RemovedSnoc(w.worker.kept, q, r);
  }

  lemma UpdateElsewhere(m: map<nat, Channel>, q: nat, channel: Channel, r: nat)
    requires q != r
    ensures m[q := channel] - {r} == (m - {r})[q := channel]
  {
  }

  /** What an offer changes, in one piece. */
  lemma OfferShape(w: World)
    requires Enabled(w, Offer)
    ensures var q, event, next := w.sinks[w.worker.index], w.worker.event, w.worker.index + 1;
      Apply(w, Offer) ==
        if w.channels[q].open
        then w.(channels := w.channels[q := Channel(w.channels[q].sent + [event], true)], worker := Offering(event, next, w.worker.kept + [q]))
        else w.(worker := Offering(event, next, w.worker.kept))
  {
  }

  lemma CanOfferWithout(w: World, r: nat)
    requires Enabled(w, Offer) && w.sinks[w.worker.index] != r
    ensures var u, q := Without(w, r), w.sinks[w.worker.index];
      Enabled(u, Offer) && u.sinks[u.worker.index] == q && u.channels[q] == w.channels[q] && u.worker.event == w.worker.event
  {
    OfferPlace(w, r);
    hide Removed, WorkerWithout;
  }

  lemma OtherOfferWithout(w: World, r: nat)
    requires Enabled(w, Offer) && w.sinks[w.worker.index] != r
    ensures Enabled(Without(w, r), Offer) && Apply(Without(w, r), Offer) == Without(Apply(w, Offer), r)
  {
    OfferShape(w);
    CanOfferWithout(w, r);
    OfferShape(Without(w, r));
    OfferPlace(w, r);
    hide Removed, WorkerWithout, Apply, Enabled;
    var q := w.sinks[w.worker.index];
    UpdateElsewhere(w.channels, q, Channel(w.channels[q].sent + [w.worker.event], true), r);
  }

  lemma OwnSubscribeWithout(w: World, r: nat)
    requires Enabled(w, Subscribe(r))
    ensures Without(Apply(w, Subscribe(r)), r) == Without(w, r)
  {
    var v := Apply(w, Subscribe(r));
    RemovedSnoc(w.sinks, r, r);
    assert v.channels - {r} == w.channels - {r} && v.joined - {r} == w.joined - {r} && v.since - {r} == w.since - {r};
  }

  lemma OtherSubscribeWithout(w: World, q: nat, r: nat)
    requires Enabled(w, Subscribe(q)) && q != r
    ensures Enabled(Without(w, r), Subscribe(q)) && Apply(Without(w, r), Subscribe(q)) == Without(Apply(w, Subscribe(q)), r)
  {
    var v := Apply(w, Subscribe(q));
    RemovedSnoc(w.sinks, q, r);
    hide Removed;
    assert v.channels - {r} == (w.channels - {r})[q := v.channels[q]];
    assert v.joined - {r} == (w.joined - {r})[q := w.offered] && v.since - {r} == (w.since - {r})[q := |w.log|];
  }

  lemma CloseWithout(w: World, q: nat, r: nat)
    requires Enabled(w, Close(q))
    ensures if q == r then Without(Apply(w, Close(q)), r) == Without(w, r)
            else Enabled(Without(w, r), Close(q)) && Apply(Without(w, r), Close(q)) == Without(Apply(w, Close(q)), r)
  {
    hide Removed;
    var closed := w.channels[q].(open := false);
    assert w.channels[q := closed] - {r} == if q == r then w.channels - {r} else (w.channels - {r})[q := closed];
    assert w.left[q := w.offered] - {r} == if q == r then w.left - {r} else (w.left - {r})[q := w.offered];
  }

  lemma WorkerStepWithout(w: World, s: Step, r: nat)
    requires SinksOk(w) && Enabled(w, s) && (s.Publish? || s.Receive? || s.Lock? || s.Unlock?)
    ensures Enabled(Without(w, r), s) && Apply(Without(w, r), s) == Without(Apply(w, s), r)
  {
    if s.Lock? {
      assert w.sinks[..0] == [];
    } else if s.Unlock? {
      assert w.sinks[..w.worker.index] == w.sinks;
    }
  }

  lemma StepWithout(w: World, s: Step, r: nat)
    requires SinksOk(w) && Enabled(w, s)
    ensures if Concerns(w, s, r) then Without(Apply(w, s), r) == Without(w, r)
            else Enabled(Without(w, r), s) && Apply(Without(w, r), s) == Without(Apply(w, s), r)
  {
    hide Without, SinksOk;
    match s
    case Subscribe(q) => if q == r { OwnSubscribeWithout(w, r); } else { OtherSubscribeWithout(w, q, r); }
    case Offer => if w.sinks[w.worker.index] == r { OwnOfferWithout(w, r); } else { OtherOfferWithout(w, r); }
    case Close(q) => CloseWithout(w, q, r);
    case _ => WorkerStepWithout(w, s, r);
  }

  lemma {:induction false} RunWithout(w: World, steps: seq<Step>, v: World, r: nat)
    requires Inv(w) && Reaches(w, steps, v)
    ensures Reaches(Without(w, r), Erased(w, steps, r), Without(v, r))
    decreases |steps|
  {
    if steps != [] {
      StepWithout(w, steps[0], r);
      StepKeepsInv(w, steps[0]);
      hide Inv, Enabled, Apply, Without, Concerns;
      var rest := Erased(Apply(w, steps[0]), steps[1..], r);
      RunWithout(Apply(w, steps[0]), steps[1..], v, r);
      assert ([steps[0]] + rest)[1..] == rest && [] + rest == rest;
    }
  }

  /** Take any run, and leave out everything that is about one subscriber: what remains is a run, and it sends everybody
      else exactly the same events. */
  lemma ComingAndGoingAffectsNobodyElse(w: World, steps: seq<Step>, v: World, r: nat)
    requires Init(w) && Reaches(w, steps, v)
    ensures Reaches(w, Erased(w, steps, r), Without(v, r))
    ensures forall q :: q != r && q in v.channels ==> q in Without(v, r).channels && Without(v, r).channels[q] == v.channels[q]
    ensures Without(v, r).log == v.log && Without(v, r).offered == v.offered && r !in Without(v, r).channels
  {
    RunWithout(w, steps, v, r);
    assert Without(w, r) == w;
  }
}

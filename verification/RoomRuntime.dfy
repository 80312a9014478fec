/**
 The room runtime as atomic steps, cut where the code awaits: dispatches run one at a time behind a bounded
 queue, and every commit is published, again and again if need be, before the next dispatch starts.
 */
module RoomRuntimes {
  import opened Wrappers
  import opened CommitOutbox

  datatype Reply<S> = Reply(state: S, committed: bool, effects: seq<Effect>)

  /** The room actor: `None` is a dispatch that is rejected with an error. */
  datatype Actor<!S, !C> = Actor(dispatch: (S, C) -> Option<Reply<S>>, revision: S -> nat)

  /** Every commit advances the revision by one, and nothing else moves it. */
  ghost predicate ActorOk<S(!new), C(!new)>(actor: Actor<S, C>) {
    forall s, c {:trigger actor.dispatch(s, c)} :: actor.dispatch(s, c).Some? ==>
      var r := actor.dispatch(s, c).value;
      actor.revision(r.state) == actor.revision(s) + (if r.committed then 1 else 0)
  }

  /** What the work at the head of the queue awaits. */
  datatype Stage<C> =
    | Idle
    | Dispatching(command: C)
    | Publishing(commit: Commit, failed: nat)
    | Retrying(commit: Commit, failed: nat, scheduled: bool)

  datatype Runtime<S, C> = Runtime(
    room: RoomId,
    capacity: nat,
    state: S,
    queue: seq<C>,
    stage: Stage<C>,
    pendingDispatches: nat,
    unpublished: Option<Commit>,
    disposed: bool,
    overlapped: bool,
    committed: seq<Commit>,
    accepted: seq<Commit>)

  function NewRuntime<S, C>(room: RoomId, capacity: nat, state: S): Runtime<S, C> {
    Runtime(room, capacity, state, [], Idle, 0, None, false, false, [], [])
  }

  datatype DispatchOutcome = Enqueued | RuntimeDisposed | QueueFull

  function Dispatch<S, C>(rt: Runtime<S, C>, command: C): (Runtime<S, C>, DispatchOutcome) {
    if rt.disposed then (rt, RuntimeDisposed)
    else if rt.pendingDispatches >= rt.capacity then (rt, QueueFull)
    else (rt.(queue := rt.queue + [command], pendingDispatches := rt.pendingDispatches + 1), Enqueued)
  }

  /** The tail resolves and the next work starts. */
  function StartNext<S, C>(rt: Runtime<S, C>): Runtime<S, C> {
    if rt.disposed || !rt.stage.Idle? || rt.queue == [] then rt
    else rt.(queue := rt.queue[1..], stage := Dispatching(rt.queue[0]))
  }

  /** The work at hand is over; its caller has its answer. */
  function Done<S, C>(rt: Runtime<S, C>): Runtime<S, C> {
    rt.(stage := Idle, pendingDispatches := if rt.pendingDispatches > 0 then rt.pendingDispatches - 1 else 0)
  }

  /** The actor has answered: a commit is published, anything else ends the work. */
  function ActorReplies<S, C>(actor: Actor<S, C>, rt: Runtime<S, C>): Runtime<S, C> {
    if rt.disposed || !rt.stage.Dispatching? then rt
    else match actor.dispatch(rt.state, rt.stage.command)
      case None => Done(rt)
      case Some(reply) =>
        var moved := rt.(state := reply.state);
        if !reply.committed then Done(moved)
        else
          var commit := Commit(rt.room, actor.revision(reply.state), reply.effects);
          if rt.unpublished.Some? && rt.unpublished.value != commit then Done(moved.(overlapped := true))
          else moved.(unpublished := Some(commit), stage := Publishing(commit, 0), committed := rt.committed + [commit])
  }

  function PublishAccepted<S, C>(rt: Runtime<S, C>): Runtime<S, C> {
    if rt.disposed || !rt.stage.Publishing? then rt
    else Done(rt.(unpublished := None, accepted := rt.accepted + [rt.stage.commit]))
  }

  /** A refused commit waits for its retry; if no retry can be scheduled the runtime stops here, keeping the commit. */
  function PublishRefused<S, C>(rt: Runtime<S, C>, scheduled: bool): Runtime<S, C> {
    if rt.disposed || !rt.stage.Publishing? then rt
    else rt.(stage := Retrying(rt.stage.commit, rt.stage.failed + 1, scheduled))
  }

  function RetryElapsed<S, C>(rt: Runtime<S, C>): Runtime<S, C> {
    if rt.disposed || !rt.stage.Retrying? || !rt.stage.scheduled then rt
    else rt.(stage := Publishing(rt.stage.commit, rt.stage.failed))
  }

  function Shut<S, C>(rt: Runtime<S, C>): Runtime<S, C> {
    rt.(disposed := true, queue := [], stage := Idle, pendingDispatches := 0, unpublished := None)
  }

  // ---------------------------------------------------------------- what every step keeps

  /** The commits are numbered from `base` on without a gap, all in this room. */
  predicate Consecutive(cs: seq<Commit>, room: RoomId, base: nat) {
    forall i | 0 <= i < |cs| :: cs[i].revision == base + 1 + i && cs[i].room == room
  }

  /** Serial, bounded, and publishing in order: the accepted commits are all but the one still unpublished. */
  ghost predicate RuntimeOk<S, C>(actor: Actor<S, C>, rt: Runtime<S, C>, base: nat) {
    && !rt.overlapped
    && Consecutive(rt.committed, rt.room, base)
    && rt.accepted <= rt.committed
    && (!rt.disposed ==>
          && rt.pendingDispatches == |rt.queue| + (if rt.stage.Idle? then 0 else 1)
          && rt.pendingDispatches <= rt.capacity
          && actor.revision(rt.state) == base + |rt.committed|
          && (rt.unpublished.Some? <==> rt.stage.Publishing? || rt.stage.Retrying?)
          && |rt.committed| == |rt.accepted| + (if rt.unpublished.Some? then 1 else 0)
          && (rt.unpublished.Some? ==> rt.stage.commit == rt.unpublished.value == rt.committed[|rt.accepted|]))
  }

  datatype Event<C> =
    | Request(command: C)
    | Proceed
    | Answer
    | Accept
    | Refuse(scheduled: bool)
    | Elapse
    | Close

  function TakeEvent<S, C>(actor: Actor<S, C>, rt: Runtime<S, C>, e: Event<C>): Runtime<S, C> {
    match e
    case Request(command) => Dispatch(rt, command).0
    case Proceed => StartNext(rt)
    case Answer => ActorReplies(actor, rt)
    case Accept => PublishAccepted(rt)
    case Refuse(scheduled) => PublishRefused(rt, scheduled)
    case Elapse => RetryElapsed(rt)
    case Close => Shut(rt)
  }

  function RunEvents<S, C>(actor: Actor<S, C>, room: RoomId, capacity: nat, state: S, events: seq<Event<C>>): Runtime<S, C> {
    if events == [] then NewRuntime(room, capacity, state)
    else TakeEvent(actor, RunEvents(actor, room, capacity, state, events[..|events| - 1]), events[|events| - 1])
  }

  lemma AnswerKeepsOk<S(!new), C(!new)>(actor: Actor<S, C>, rt: Runtime<S, C>, base: nat)
    requires ActorOk(actor) && RuntimeOk(actor, rt, base)
    ensures RuntimeOk(actor, ActorReplies(actor, rt), base)
  {
    if !rt.disposed && rt.stage.Dispatching? && actor.dispatch(rt.state, rt.stage.command).Some? {
      var reply := actor.dispatch(rt.state, rt.stage.command).value;
      assert rt.accepted == rt.committed;
    }
  }

  lemma EventKeepsOk<S(!new), C(!new)>(actor: Actor<S, C>, rt: Runtime<S, C>, base: nat, e: Event<C>)
    requires ActorOk(actor) && RuntimeOk(actor, rt, base)
    ensures RuntimeOk(actor, TakeEvent(actor, rt, e), base)
  {
    match e
    case Answer => AnswerKeepsOk(actor, rt, base);
    case Accept =>
      if !rt.disposed && rt.stage.Publishing? {
        assert rt.committed == rt.accepted + [rt.stage.commit];
      }
    case _ =>
  }

  /**
   Serial publication: on every run of the runtime the commits are numbered without a gap, at most one is
   unpublished, the accepted ones are exactly those before it in order, and no dispatch ever finds a commit in
   its way; the dispatches under way never exceed the capacity.
   */
  lemma {:induction false} CommitsArePublishedOneByOne<S(!new), C(!new)>(
    actor: Actor<S, C>, room: RoomId, capacity: nat, state: S, events: seq<Event<C>>)
    requires ActorOk(actor)
    ensures RuntimeOk(actor, RunEvents(actor, room, capacity, state, events), actor.revision(state))
    decreases |events|
  {
    if events != [] {
      CommitsArePublishedOneByOne(actor, room, capacity, state, events[..|events| - 1]);
      EventKeepsOk(actor, RunEvents(actor, room, capacity, state, events[..|events| - 1]), actor.revision(state),
                   events[|events| - 1]);
    }
  }

  // ---------------------------------------------------------------- the runtime as an object

  class RoomRuntime<S, C> {
    const room: RoomId
    const capacity: nat
    const actor: Actor<S, C>
    var state: S
    var queue: seq<C>
    var stage: Stage<C>
    var pendingDispatches: nat
    var unpublished: Option<Commit>
    var disposed: bool
    ghost var overlapped: bool
    ghost var committed: seq<Commit>
    ghost var accepted: seq<Commit>

    ghost function View(): Runtime<S, C>
      reads this
    {
      Runtime(room, capacity, state, queue, stage, pendingDispatches, unpublished, disposed, overlapped, committed, accepted)
    }

    constructor (room: RoomId, capacity: nat, actor: Actor<S, C>, state: S)
      ensures View() == NewRuntime(room, capacity, state) && this.actor == actor
    {
      this.room, this.capacity, this.actor, this.state := room, capacity, actor, state;
      queue, stage, pendingDispatches, unpublished, disposed := [], Idle, 0, None, false;
      overlapped, committed, accepted := false, [], [];
    }

    method Enqueue(command: C) returns (outcome: DispatchOutcome)
      modifies this
      ensures (View(), outcome) == Dispatch(old(View()), command)
    {
      if disposed {
        return RuntimeDisposed;
      }
      if pendingDispatches >= capacity {
        return QueueFull;
      }
      pendingDispatches := pendingDispatches + 1;
      queue := queue + [command];
      return Enqueued;
    }

    method RunNext()
      modifies this
      ensures View() == StartNext(old(View()))
    {
      if disposed || !stage.Idle? || |queue| == 0 {
        return;
      }
      stage := Dispatching(queue[0]);
      queue := queue[1..];
    }

    method Finish()
      modifies this`stage, this`pendingDispatches
      ensures View() == Done(old(View()))
    {
      stage := Idle;
      if pendingDispatches > 0 {
        pendingDispatches := pendingDispatches - 1;
      }
    }

    method AfterDispatch()
      modifies this
      ensures View() == ActorReplies(actor, old(View()))
    {
      if disposed || !stage.Dispatching? {
        return;
      }
      var reply := actor.dispatch(state, stage.command);
      if reply.None? {
        Finish();
        return;
      }
      state := reply.value.state;
      if !reply.value.committed {
        Finish();
        return;
      }
      PublishCommit(Commit(room, actor.revision(state), reply.value.effects));
    }

    method PublishCommit(commit: Commit)
      modifies this
      ensures View() == if old(unpublished).Some? && old(unpublished) != Some(commit) then Done(old(View()).(overlapped := true))
                        else old(View()).(unpublished := Some(commit), stage := Publishing(commit, 0),
                                          committed := old(committed) + [commit])
    {
      if unpublished.Some? && unpublished.value != commit {
        overlapped := true;
        Finish();
        return;
      }
      unpublished := Some(commit);
      stage := Publishing(commit, 0);
      committed := committed + [commit];
    }

    method CommitAccepted()
      modifies this
      ensures View() == PublishAccepted(old(View()))
    {
      if disposed || !stage.Publishing? {
        return;
      }
      accepted := accepted + [stage.commit];
      unpublished := None;
      Finish();
    }

    method CommitRefused(scheduled: bool)
      modifies this
      ensures View() == PublishRefused(old(View()), scheduled)
    {
      if disposed || !stage.Publishing? {
        return;
      }
      stage := Retrying(stage.commit, stage.failed + 1, scheduled);
    }

    method RetryTimerFired()
      modifies this
      ensures View() == RetryElapsed(old(View()))
    {
      if disposed || !stage.Retrying? || !stage.scheduled {
        return;
      }
      stage := Publishing(stage.commit, stage.failed);
    }

    method Dispose()
      modifies this
      ensures View() == Shut(old(View()))
    {
      disposed := true;
      queue, stage, pendingDispatches := [], Idle, 0;
      unpublished := None;
    }
  }
}

/** All rooms' runtimes and the outbox together: effects are delivered in the order the commits were made. */
module RoomDelivery {
  import opened Wrappers
  import opened CommitOutbox
  import opened CommitOutboxLaws
  import opened RoomRuntimes

  /**
   A room's runtime. `base` is the revision it was opened with, and `offered` marks a publication that is waiting
   inside the outbox for its admission.
   */
  datatype Site<S, C> = Site(runtime: Runtime<S, C>, base: nat, offered: bool)

  datatype System<S, C> = System(sites: map<RoomId, Site<S, C>>, outbox: Outbox)

  datatype Action<S, C> =
    | Open(room: RoomId, capacity: nat, state: S)
    | Local(room: RoomId, event: Event<C>)
    | Publish(room: RoomId, scheduled: bool)
    | OfferAnswered(room: RoomId, scheduled: bool)
    | Elsewhere(step: Step)

  /** Only the runtimes offer commits, and only the outbox answers them; everything else happens on its own. */
  predicate ActionOk<S, C>(a: Action<S, C>) {
    match a
    case Local(_, e) => !e.Accept? && !e.Refuse?
    case Elsewhere(step) => !step.Offer? && !step.OfferDurably?
    case _ => true
  }

  predicate Publishes<S, C>(site: Site<S, C>) {
    !site.offered && !site.runtime.disposed && site.runtime.stage.Publishing?
  }

  /** Publishing offers the commit durably: taken at once, taken later, or refused and retried. */
  function PublishNow<S, C>(site: Site<S, C>, outcome: Outcome, scheduled: bool): Site<S, C> {
    match outcome
    case Refused(_) => site.(runtime := PublishRefused(site.runtime, scheduled))
    case Waits => site.(offered := true)
    case _ => site.(runtime := PublishAccepted(site.runtime))
  }

  /** A waiting offer is answered: accepted once it is admitted, refused once the outbox has closed without it. */
  function AnswerOffer<S, C>(site: Site<S, C>, o: Outbox, scheduled: bool): Site<S, C> {
    if !site.offered || site.runtime.disposed || !site.runtime.stage.Publishing? then site
    else if site.runtime.stage.commit in Log(o.admitted, site.runtime.room) then
      site.(runtime := PublishAccepted(site.runtime), offered := false)
    else if o.disposed then site.(runtime := PublishRefused(site.runtime, scheduled), offered := false)
    else site
  }

  function Act<S, C>(actor: Actor<S, C>, s: System<S, C>, a: Action<S, C>): System<S, C> {
    match a
    case Open(room, capacity, state) =>
      if room in s.sites then s
      else s.(sites := s.sites[room := Site(NewRuntime(room, capacity, state), actor.revision(state), false)])
    case Local(room, e) =>
      if room !in s.sites then s
      else s.(sites := s.sites[room := s.sites[room].(runtime := TakeEvent(actor, s.sites[room].runtime, e))])
    case Publish(room, scheduled) =>
      if room !in s.sites || !Publishes(s.sites[room]) then s
      else
        var r := EnqueueDurably(s.outbox, s.sites[room].runtime.stage.commit);
        System(s.sites[room := PublishNow(s.sites[room], r.1, scheduled)], r.0)
    case OfferAnswered(room, scheduled) =>
      if room !in s.sites then s
      else s.(sites := s.sites[room := AnswerOffer(s.sites[room], s.outbox, scheduled)])
    case Elsewhere(step) => s.(outbox := Take(s.outbox, step))
  }

  function RunSystem<S, C>(actor: Actor<S, C>, limits: Limits, actions: seq<Action<S, C>>): System<S, C> {
    if actions == [] then System(map[], NewOutbox(limits))
    else Act(actor, RunSystem(actor, limits, actions[..|actions| - 1]), actions[|actions| - 1])
  }

  predicate AllBelow(cs: seq<Commit>, revision: int) { forall i | 0 <= i < |cs| :: cs[i].revision < revision }

  /**
   What has arrived at the outbox is what the runtime has published, and the commit it is waiting with; once the outbox
   has closed, that commit may have been refused after all.
   */
  predicate Arrivals<S, C>(site: Site<S, C>, arrived: seq<Commit>, closed: bool) {
    var rt := site.runtime;
    && arrived <= rt.committed && |rt.committed| <= |arrived| + 1
    && (!rt.disposed ==>
          && (site.offered ==> rt.stage.Publishing? && arrived == rt.accepted + [rt.stage.commit])
          && (!site.offered ==>
                || arrived == rt.accepted
                || (closed && (rt.stage.Publishing? || rt.stage.Retrying?) && arrived == rt.accepted + [rt.stage.commit])))
  }

  ghost predicate SiteOk<S, C>(actor: Actor<S, C>, site: Site<S, C>, room: RoomId, o: Outbox) {
    && site.runtime.room == room && RuntimeOk(actor, site.runtime, site.base)
    && Arrivals(site, Log(o.arrived, room), o.disposed)
  }

  ghost predicate RoomHolds<S, C>(actor: Actor<S, C>, s: System<S, C>, room: RoomId) {
    if room in s.sites then SiteOk(actor, s.sites[room], room, s.outbox) else Log(s.outbox.arrived, room) == []
  }

  ghost predicate SystemOk<S, C>(actor: Actor<S, C>, s: System<S, C>) { forall room :: RoomHolds(actor, s, room) }

  lemma OtherRoomsArrive(o: Outbox, step: Step, room: RoomId)
    requires (step.Offer? ==> step.commit.room != room) && (step.OfferDurably? ==> step.commit.room != room)
    ensures Log(Take(o, step).arrived, room) == Log(o.arrived, room)
  {
    hide Known, Queued, QueuedDifferently, Pump, HandlerFails;
    match step
    case Offer(c) => KnownOnlyTouches(o, c);
    case OfferDurably(c) => KnownOnlyTouches(o, c);
    case Start(at) => PumpKeepsArrivals(o.(starts := o.starts - multiset{at}), at);
    case Succeed(at) =>
      if Calling(o, at) {
        PumpKeepsArrivals(Settle(o, at, true), at);
      }
    case Fail(at, clockOk, primary, recovery) => FailingKeepsRecords(o, at, clockOk, primary, recovery);
    case Fire(at) =>
    case Close =>
  }

  lemma OfferArrives(o: Outbox, c: Commit)
    ensures var r := EnqueueDurably(o, c);
            Log(r.0.arrived, c.room)
            == if r.1.Admitted? || r.1.Waits? then Log(o.arrived, c.room) + [c] else Log(o.arrived, c.room)
  {
    hide Queued, QueuedDifferently, Known;
    KnownOnlyTouches(o, c);
  }

  /** The commit at hand lies beyond everything that has arrived. */
  lemma PublishedLiesBelow<S(!new), C(!new)>(actor: Actor<S, C>, site: Site<S, C>, room: RoomId, o: Outbox)
    requires SiteOk(actor, site, room, o) && Publishes(site) && !o.disposed
    ensures site.runtime.stage.commit.room == room
    ensures AllBelow(Log(o.arrived, room), site.runtime.stage.commit.revision)
  {
    var arrived := Log(o.arrived, room);
    assert forall i | 0 <= i < |arrived| :: arrived[i] == site.runtime.committed[i];
  }

  lemma ConsecutiveIncrease(cs: seq<Commit>, arrived: seq<Commit>, room: RoomId, base: nat)
    requires Consecutive(cs, room, base) && arrived <= cs
    ensures Increasing(arrived)
  {
    assert forall i | 0 <= i < |arrived| :: arrived[i] == cs[i];
  }

  lemma RoomsArriveInOrder<S(!new), C(!new)>(actor: Actor<S, C>, s: System<S, C>)
    requires SystemOk(actor, s)
    ensures ArrivalsIncrease(s.outbox)
  {
    forall room ensures Increasing(Log(s.outbox.arrived, room)) {
      assert RoomHolds(actor, s, room);
      if room in s.sites {
        var site := s.sites[room];
        ConsecutiveIncrease(site.runtime.committed, Log(s.outbox.arrived, room), room, site.base);
      }
    }
  }

  lemma {:induction false} OfRoomHolds(cs: seq<Commit>, i: nat)
    requires i < |cs|
    ensures cs[i] in OfRoom(cs, cs[i].room)
    decreases |cs|
  {
    if i > 0 {
      OfRoomHolds(cs[1..], i - 1);
    }
  }

  lemma QueuedHasArrived(o: Outbox, c: Commit)
    requires Fifo(o, c.room) && Queued(o, c)
    ensures HasRevision(Log(o.arrived, c.room), c.revision)
  {
    var i :| 0 <= i < |o.waiting| && KeyOf(o.waiting[i]) == KeyOf(c);
    var queued := OfRoom(o.waiting, c.room);
    OfRoomHolds(o.waiting, i);
    var j :| 0 <= j < |queued| && queued[j] == o.waiting[i];
    assert Log(o.arrived, c.room)[|Log(o.admitted, c.room)| + j].revision == c.revision;
  }

  lemma AdmittedHasArrived(o: Outbox, r: RoomId, revision: nat)
    requires Fifo(o, r) && HasRevision(Log(o.admitted, r), revision)
    ensures HasRevision(Log(o.arrived, r), revision)
  {
    var i :| 0 <= i < |Log(o.admitted, r)| && Log(o.admitted, r)[i].revision == revision;
    assert Log(o.arrived, r)[i].revision == revision;
  }

  lemma NothingAtTheTop(cs: seq<Commit>, revision: nat)
    requires AllBelow(cs, revision)
    ensures !HasRevision(cs, revision)
  {
  }

  /** A commit beyond the room's arrivals is neither known nor queued, so no offer of it is taken for a duplicate. */
  lemma NewCommitsAreNoDuplicates(o: Outbox, c: Commit)
    requires RoomOk(o, c.room) && AllBelow(Log(o.arrived, c.room), c.revision)
    ensures !EnqueueDurably(o, c).1.AlreadyKnown?
  {
    hide Known, Fits, HasRevision, AllBelow, Increasing, Members, AllDelivered, Queued, QueuedDifferently, Fifo,
         KnownWereAdmitted;
    NothingAtTheTop(Log(o.arrived, c.room), c.revision);
    if HasRevision(Log(o.admitted, c.room), c.revision) {
      AdmittedHasArrived(o, c.room, c.revision);
    }
    NewRevisionsAreUnknown(o, c);
    if Queued(o, c) {
      QueuedHasArrived(o, c);
    }
  }

  // ---------------------------------------------------------------- one room

  lemma LocalKeepsOk<S(!new), C(!new)>(actor: Actor<S, C>, site: Site<S, C>, room: RoomId, o: Outbox, e: Event<C>)
    requires ActorOk(actor) && SiteOk(actor, site, room, o) && !e.Accept? && !e.Refuse?
    ensures SiteOk(actor, site.(runtime := TakeEvent(actor, site.runtime, e)), room, o)
  {
    EventKeepsOk(actor, site.runtime, site.base, e);
  }

  lemma AcceptingKeepsOk<S(!new), C(!new)>(actor: Actor<S, C>, site: Site<S, C>, room: RoomId, o: Outbox, arrived: seq<Commit>)
    requires ActorOk(actor) && site.runtime.room == room && RuntimeOk(actor, site.runtime, site.base)
    requires !site.runtime.disposed && site.runtime.stage.Publishing?
    requires Log(o.arrived, room) == site.runtime.accepted + [site.runtime.stage.commit]
    ensures SiteOk(actor, site.(runtime := PublishAccepted(site.runtime), offered := false), room, o)
  {
    EventKeepsOk(actor, site.runtime, site.base, Accept);
    assert site.runtime.committed == site.runtime.accepted + [site.runtime.stage.commit];
  }

  lemma PublishKeepsOk<S(!new), C(!new)>(actor: Actor<S, C>, site: Site<S, C>, room: RoomId, o: Outbox, scheduled: bool)
    requires ActorOk(actor) && SiteOk(actor, site, room, o) && Publishes(site) && (!o.disposed ==> RoomOk(o, room))
    ensures var r := EnqueueDurably(o, site.runtime.stage.commit);
            SiteOk(actor, PublishNow(site, r.1, scheduled), room, r.0)
  {
    hide RoomOk;
    var c := site.runtime.stage.commit;
    EventKeepsOk(actor, site.runtime, site.base, Refuse(scheduled));
    assert c.room == room by { CommitsAreOfTheRoom(actor, site, room, o); }
    OfferArrives(o, c);
    OfferStaysOpen(o, c);
    var r := EnqueueDurably(o, c);
    if !o.disposed {
      PublishedLiesBelow(actor, site, room, o);
      NewCommitsAreNoDuplicates(o, c);
      assert site.runtime.committed == site.runtime.accepted + [c];
      if r.1.Admitted? {
        AcceptingKeepsOk(actor, site, room, r.0, Log(r.0.arrived, room));
      }
    }
  }

  lemma CommitsAreOfTheRoom<S(!new), C(!new)>(actor: Actor<S, C>, site: Site<S, C>, room: RoomId, o: Outbox)
    requires SiteOk(actor, site, room, o) && Publishes(site)
    ensures site.runtime.stage.commit.room == room
  {
  }

  lemma OfferStaysOpen(o: Outbox, c: Commit)
    ensures EnqueueDurably(o, c).0.disposed == o.disposed
    ensures o.disposed ==> EnqueueDurably(o, c) == (o, Refused(Disposed))
  {
    hide Queued, QueuedDifferently, Known;
    KnownOnlyTouches(o, c);
  }

  lemma AnswerKeepsSite<S(!new), C(!new)>(actor: Actor<S, C>, site: Site<S, C>, room: RoomId, o: Outbox, scheduled: bool)
    requires ActorOk(actor) && SiteOk(actor, site, room, o)
    ensures SiteOk(actor, AnswerOffer(site, o, scheduled), room, o)
  {
    if site.offered && !site.runtime.disposed && site.runtime.stage.Publishing? {
      EventKeepsOk(actor, site.runtime, site.base, Refuse(scheduled));
      AcceptingKeepsOk(actor, site, room, o, Log(o.arrived, room));
    }
  }

  // ---------------------------------------------------------------- all rooms

  lemma Undisturbed<S(!new), C(!new)>(actor: Actor<S, C>, site: Site<S, C>, room: RoomId, o: Outbox, t: Outbox)
    requires SiteOk(actor, site, room, o) && Log(t.arrived, room) == Log(o.arrived, room) && (o.disposed ==> t.disposed)
    ensures SiteOk(actor, site, room, t)
  {
  }

  lemma ClosingIsFinal(o: Outbox, step: Step)
    ensures o.disposed ==> Take(o, step).disposed
  {
    if o.disposed {
      ClosedStaysPut(o, step);
    }
  }

  lemma OpeningKeepsOk<S(!new), C(!new)>(actor: Actor<S, C>, s: System<S, C>, room: RoomId, capacity: nat, state: S)
    requires RoomHolds(actor, s, room) && room !in s.sites
    ensures RoomHolds(actor, Act(actor, s, Open(room, capacity, state)), room)
  {
  }

  /** What an action does to a room: its own is handled above, any other stays undisturbed. */
  lemma ActionKeepsRoom<S(!new), C(!new)>(actor: Actor<S, C>, s: System<S, C>, a: Action<S, C>, room: RoomId)
    requires ActorOk(actor) && RoomHolds(actor, s, room) && ActionOk(a)
    requires !s.outbox.disposed ==> RoomOk(s.outbox, room)
    requires a.Publish? && a.room in s.sites && Publishes(s.sites[a.room]) ==> s.sites[a.room].runtime.stage.commit.room == a.room
    ensures RoomHolds(actor, Act(actor, s, a), room)
  {
    hide RoomOk, SiteOk, EnqueueDurably, PublishNow, AnswerOffer, TakeEvent;
    match a
    case Open(at, capacity, state) =>
      if at == room && at !in s.sites {
        OpeningKeepsOk(actor, s, room, capacity, state);
      }
    case Local(at, e) =>
      if at == room && at in s.sites {
        LocalKeepsOk(actor, s.sites[room], room, s.outbox, e);
      }
    case Publish(at, scheduled) =>
      if at in s.sites && Publishes(s.sites[at]) {
        var c := s.sites[at].runtime.stage.commit;
        if at == room {
          PublishKeepsOk(actor, s.sites[room], room, s.outbox, scheduled);
        } else {
          OtherRoomsArrive(s.outbox, OfferDurably(c), room);
          ClosingIsFinal(s.outbox, OfferDurably(c));
          if room in s.sites {
            Undisturbed(actor, s.sites[room], room, s.outbox, EnqueueDurably(s.outbox, c).0);
          }
        }
      }
    case OfferAnswered(at, scheduled) =>
      if at == room && at in s.sites {
        AnswerKeepsSite(actor, s.sites[room], room, s.outbox, scheduled);
      }
    case Elsewhere(step) =>
      OtherRoomsArrive(s.outbox, step, room);
      ClosingIsFinal(s.outbox, step);
      if room in s.sites {
        Undisturbed(actor, s.sites[room], room, s.outbox, Take(s.outbox, step));
      }
  }

  lemma ActionKeepsOk<S(!new), C(!new)>(actor: Actor<S, C>, s: System<S, C>, a: Action<S, C>)
    requires ActorOk(actor) && SystemOk(actor, s) && ActionOk(a) && RunOk(s.outbox)
    ensures SystemOk(actor, Act(actor, s, a))
  {
    hide Act, RoomOk, RoomDelivers, SiteOk, Publishes;
    if a.Publish? && a.room in s.sites && Publishes(s.sites[a.room]) {
      assert RoomHolds(actor, s, a.room);
      CommitsAreOfTheRoom(actor, s.sites[a.room], a.room, s.outbox);
    }
    forall room ensures RoomHolds(actor, Act(actor, s, a), room) {
      assert RoomHolds(actor, s, room);
      assert !s.outbox.disposed ==> RoomOk(s.outbox, room);
      ActionKeepsRoom(actor, s, a, room);
    }
  }

  /** The step that an action is for the outbox, if it is one. */
  function StepOf<S, C>(s: System<S, C>, a: Action<S, C>): Option<Step> {
    match a
    case Elsewhere(step) => Some(step)
    case Publish(room, _) =>
      if room in s.sites && Publishes(s.sites[room]) then Some(OfferDurably(s.sites[room].runtime.stage.commit)) else None
    case _ => None
  }

  lemma ActingTakesTheStep<S, C>(actor: Actor<S, C>, s: System<S, C>, a: Action<S, C>)
    ensures Act(actor, s, a).outbox == if StepOf(s, a).Some? then Take(s.outbox, StepOf(s, a).value) else s.outbox
  {
    hide EnqueueDurably, PublishNow, TakeEvent, AnswerOffer;
  }

  /** The outbox's own steps in a run of the system. */
  function OutboxSteps<S, C>(actor: Actor<S, C>, limits: Limits, actions: seq<Action<S, C>>): seq<Step> {
    if actions == [] then []
    else
      var m := |actions| - 1;
      var step := StepOf(RunSystem(actor, limits, actions[..m]), actions[m]);
      if step.Some? then OutboxSteps(actor, limits, actions[..m]) + [step.value] else OutboxSteps(actor, limits, actions[..m])
  }

  lemma {:induction false} OutboxRunsItsSteps<S, C>(actor: Actor<S, C>, limits: Limits, actions: seq<Action<S, C>>)
    ensures RunSystem(actor, limits, actions).outbox == Run(limits, OutboxSteps(actor, limits, actions))
    decreases |actions|
  {
    hide Act, StepOf, Take;
    if actions != [] {
      var m := |actions| - 1;
      OutboxRunsItsSteps(actor, limits, actions[..m]);
      ActingTakesTheStep(actor, RunSystem(actor, limits, actions[..m]), actions[m]);
      var steps, step := OutboxSteps(actor, limits, actions[..m]), StepOf(RunSystem(actor, limits, actions[..m]), actions[m]);
      if step.Some? {
        assert (steps + [step.value])[..|steps|] == steps;
      }
    }
  }

  lemma {:induction false} SystemsAreOk<S(!new), C(!new)>(actor: Actor<S, C>, limits: Limits, actions: seq<Action<S, C>>)
    requires ActorOk(actor) && LimitsOk(limits) && forall i | 0 <= i < |actions| :: ActionOk(actions[i])
    ensures var s := RunSystem(actor, limits, actions);
            SystemOk(actor, s) && ArrivalsIncrease(s.outbox) && RunOk(s.outbox)
    decreases |actions|
  {
    hide Act, RoomHolds, RunOk, ArrivalsIncrease, OutboxSteps;
    var s := RunSystem(actor, limits, actions);
    if actions == [] {
      NothingHasArrived(actor, limits);
    } else {
      var m := |actions| - 1;
      SystemsAreOk(actor, limits, actions[..m]);
      ActionKeepsOk(actor, RunSystem(actor, limits, actions[..m]), actions[m]);
    }
    RoomsArriveInOrder(actor, s);
    OutboxRunsItsSteps(actor, limits, actions);
    RunsAreOk(limits, OutboxSteps(actor, limits, actions));
  }

  lemma NothingHasArrived<S(!new), C(!new)>(actor: Actor<S, C>, limits: Limits)
    ensures SystemOk(actor, System(map[], NewOutbox(limits)))
  {
  }

  /**
   End to end: whatever the rooms are asked, whenever they are opened and closed, however often a publication is refused
   or has to wait, and however handlers and timers interleave, no commit of any room is lost, reordered or doubled on
   its way: the outbox has received the room's commits in order, all but the one being published, and it settles their
   effects in the order of (presence sequence, effect index), each once and none skipped.
   */
  lemma EffectsFollowTheCommits<S(!new), C(!new)>(
    actor: Actor<S, C>, limits: Limits, actions: seq<Action<S, C>>, room: RoomId)
    requires ActorOk(actor) && LimitsOk(limits) && forall i | 0 <= i < |actions| :: ActionOk(actions[i])
    requires room in RunSystem(actor, limits, actions).sites
    ensures var s := RunSystem(actor, limits, actions);
            var site, rt := s.sites[room], s.sites[room].runtime;
            && Consecutive(rt.committed, room, site.base)
            && rt.accepted <= rt.committed
            && (!rt.disposed ==> |rt.committed| == |rt.accepted| + (if rt.unpublished.Some? then 1 else 0))
            && Log(s.outbox.arrived, room) <= rt.committed
            && Arrivals(site, Log(s.outbox.arrived, room), s.outbox.disposed)
            && RoomDelivers(s.outbox, room)
            && (forall i, j | 0 <= i < j < |Log(s.outbox.settled, room)| ::
                  Before(Places(Log(s.outbox.settled, room))[i], Places(Log(s.outbox.settled, room))[j]))
  {
    hide Run, OutboxSteps, RunSystem, RoomDelivers;
    SystemsAreOk(actor, limits, actions);
    OutboxRunsItsSteps(actor, limits, actions);
    assert RoomHolds(actor, RunSystem(actor, limits, actions), room);
    EffectsAreDeliveredInOrder(limits, OutboxSteps(actor, limits, actions), room);
  }
}

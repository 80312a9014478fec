/**
 The room commit outbox as atomic steps, cut where the code awaits: bounded admission with a FIFO of waiters,
 one lane per room that hands effects to a handler one at a time, and timed retries.
 */
module CommitOutbox {
  import opened Wrappers

  type RoomId = nat

  type Effect = nat

  /** A commit's effects are also its fingerprint. */
  datatype Commit = Commit(room: RoomId, revision: nat, effects: seq<Effect>)

  datatype Key = Key(room: RoomId, revision: nat)

  function KeyOf(c: Commit): Key { Key(c.room, c.revision) }

  datatype Pending = Pending(commit: Commit, next: nat, attempt: nat)

  datatype Lane = Lane(commits: seq<Pending>, running: bool, timed: bool)

  datatype Limits = Limits(capacity: nat, waitingCapacity: nat, retention: nat, maxAttempts: Option<nat>)

  predicate LimitsOk(l: Limits) {
    l.capacity >= 1 && l.waitingCapacity >= 1 && l.retention >= 1 && (l.maxAttempts.Some? ==> l.maxAttempts.value >= 1)
  }

  datatype Completed = Completed(key: Key, effects: seq<Effect>)

  /** One effect of one commit, settled by a successful call or by running out of attempts. */
  datatype Settled = Settled(revision: nat, index: nat, effect: Effect, delivered: bool)

  /**
   The outbox. `starts` holds one entry of a room for every start queued for its lane. `arrived`, `admitted`
   and `settled` only record what happened, room by room.
   */
  datatype Outbox = Outbox(
    limits: Limits,
    lanes: map<RoomId, Lane>,
    pending: map<Key, seq<Effect>>,
    waiting: seq<Commit>,
    completed: seq<Completed>,
    starts: multiset<RoomId>,
    disposed: bool,
    arrived: map<RoomId, seq<Commit>>,
    admitted: map<RoomId, seq<Commit>>,
    settled: map<RoomId, seq<Settled>>)

  function NewOutbox(limits: Limits): Outbox {
    Outbox(limits, map[], map[], [], [], multiset{}, false, map[], map[], map[])
  }

  function Log<T>(m: map<RoomId, seq<T>>, r: RoomId): seq<T> { if r in m then m[r] else [] }

  function Logged<T>(m: map<RoomId, seq<T>>, r: RoomId, x: T): map<RoomId, seq<T>> { m[r := Log(m, r) + [x]] }

  function Commits(o: Outbox, r: RoomId): seq<Pending> { if r in o.lanes then o.lanes[r].commits else [] }

  // ---------------------------------------------------------------- admission

  datatype Knowledge = Unknown | Duplicate | Conflict

  function FindCompleted(completed: seq<Completed>, key: Key): Option<seq<Effect>> {
    if completed == [] then None
    else if completed[|completed| - 1].key == key then Some(completed[|completed| - 1].effects)
    else FindCompleted(completed[..|completed| - 1], key)
  }

  function Forget(completed: seq<Completed>, key: Key): seq<Completed> {
    if completed == [] then []
    else if completed[|completed| - 1].key == key then Forget(completed[..|completed| - 1], key)
    else Forget(completed[..|completed| - 1], key) + [completed[|completed| - 1]]
  }

  /** Whether a commit is pending or lately completed; asking about a completed one keeps it longer. */
  function Known(o: Outbox, c: Commit): (Outbox, Knowledge) {
    var key := KeyOf(c);
    if key in o.pending then (o, if o.pending[key] == c.effects then Duplicate else Conflict)
    else match FindCompleted(o.completed, key)
      case None => (o, Unknown)
      case Some(effects) =>
        if effects != c.effects then (o, Conflict)
        else (o.(completed := Forget(o.completed, key) + [Completed(key, effects)]), Duplicate)
  }

  function LaneFor(o: Outbox, r: RoomId): Lane { if r in o.lanes then o.lanes[r] else Lane([], false, false) }

  function Admit(o: Outbox, c: Commit): Outbox {
    var lane := LaneFor(o, c.room);
    o.(pending := o.pending[KeyOf(c) := c.effects],
       lanes := o.lanes[c.room := lane.(commits := lane.commits + [Pending(c, 0, 1)])],
       starts := o.starts + multiset{c.room},
       admitted := Logged(o.admitted, c.room, c))
  }

  /** Admits waiters in order while there is room; one that became known meanwhile leaves the queue. */
  function AdmitWaiting(o: Outbox): Outbox
    decreases |o.waiting|
  {
    if o.disposed || |o.pending| >= o.limits.capacity || o.waiting == [] then o
    else
      var rest := o.(waiting := o.waiting[1..]);
      var known := Known(rest, o.waiting[0]);
      if known.1.Unknown? then AdmitWaiting(Admit(rest, o.waiting[0])) else AdmitWaiting(known.0)
  }

  datatype Outcome = Admitted | AlreadyKnown | Waits | Refused(reason: Refusal)

  datatype Refusal = Disposed | Invalid | RevisionConflict | CapacityReached | WaitCapacityReached

  predicate Queued(o: Outbox, c: Commit) { exists i :: 0 <= i < |o.waiting| && KeyOf(o.waiting[i]) == KeyOf(c) }

  predicate QueuedDifferently(o: Outbox, c: Commit) {
    exists i :: 0 <= i < |o.waiting| && KeyOf(o.waiting[i]) == KeyOf(c) && o.waiting[i].effects != c.effects
  }

  predicate HasRoom(o: Outbox) { o.waiting == [] && |o.pending| < o.limits.capacity }

  function Arrive(o: Outbox, c: Commit): Outbox { o.(arrived := Logged(o.arrived, c.room, c)) }

  /** The synchronous form never waits. */
  function Enqueue(o: Outbox, c: Commit): (Outbox, Outcome) {
    if o.disposed then (o, Refused(Disposed))
    else if c.revision < 1 then (o, Refused(Invalid))
    else
      var known := Known(o, c);
      if known.1.Conflict? then (o, Refused(RevisionConflict))
      else if known.1.Duplicate? then (known.0, AlreadyKnown)
      else if QueuedDifferently(o, c) then (o, Refused(RevisionConflict))
      else if Queued(o, c) || !HasRoom(o) then (o, Refused(CapacityReached))
      else (Admit(Arrive(o, c), c), Admitted)
  }

  /** The durable form waits in turn; a duplicate of a waiter shares its admission. */
  function EnqueueDurably(o: Outbox, c: Commit): (Outbox, Outcome) {
    if o.disposed then (o, Refused(Disposed))
    else if c.revision < 1 then (o, Refused(Invalid))
    else
      var known := Known(o, c);
      if known.1.Conflict? then (o, Refused(RevisionConflict))
      else if known.1.Duplicate? then (known.0, AlreadyKnown)
      else if QueuedDifferently(o, c) then (o, Refused(RevisionConflict))
      else if Queued(o, c) then (o, AlreadyKnown)
      else if HasRoom(o) then (Admit(Arrive(o, c), c), Admitted)
      else if |o.waiting| >= o.limits.waitingCapacity then (o, Refused(WaitCapacityReached))
      else (Arrive(o, c).(waiting := o.waiting + [c]), Waits)
  }

  // ---------------------------------------------------------------- lanes

  function Newest(completed: seq<Completed>, retention: nat): seq<Completed> {
    if |completed| <= retention then completed else completed[|completed| - retention..]
  }

  /** The first commit of a lane is done: it leaves, is remembered, and makes room for waiters. */
  function Complete(o: Outbox, r: RoomId): Outbox
    requires r in o.lanes && o.lanes[r].commits != []
  {
    var lane := o.lanes[r];
    var c := lane.commits[0].commit;
    AdmitWaiting(o.(
      lanes := o.lanes[r := lane.(commits := lane.commits[1..])],
      pending := o.pending - {KeyOf(c)},
      completed := Newest(Forget(o.completed, KeyOf(c)) + [Completed(KeyOf(c), c.effects)], o.limits.retention)))
  }

  lemma {:induction false} AdmittingShrinksTheQueue(o: Outbox)
    ensures |AdmitWaiting(o).waiting| <= |o.waiting|
    ensures |AdmitWaiting(o).waiting| == |o.waiting| ==> AdmitWaiting(o) == o
    decreases |o.waiting|
  {
    if !o.disposed && |o.pending| < o.limits.capacity && o.waiting != [] {
      var rest := o.(waiting := o.waiting[1..]);
      var known := Known(rest, o.waiting[0]);
      AdmittingShrinksTheQueue(if known.1.Unknown? then Admit(rest, o.waiting[0]) else known.0);
    }
  }

  /** Completes finished commits and hands the next effect to the handler, or closes an empty lane. */
  function Pump(o: Outbox, r: RoomId): Outbox
    decreases |o.waiting|, |Commits(o, r)|
  {
    if o.disposed || r !in o.lanes then o
    else
      var lane := o.lanes[r];
      if lane.commits == [] then o.(lanes := o.lanes - {r})
      else if lane.commits[0].next >= |lane.commits[0].commit.effects| then
        AdmittingShrinksTheQueue(o.(
          lanes := o.lanes[r := lane.(commits := lane.commits[1..])],
          pending := o.pending - {KeyOf(lane.commits[0].commit)},
          completed := Newest(Forget(o.completed, KeyOf(lane.commits[0].commit))
                              + [Completed(KeyOf(lane.commits[0].commit), lane.commits[0].commit.effects)],
                              o.limits.retention)));
        Pump(Complete(o, r), r)
      else o.(lanes := o.lanes[r := lane.(running := true)])
  }

  /** A queued start runs: it pumps a lane that neither runs nor waits for its retry. */
  function StartLane(o: Outbox, r: RoomId): Outbox {
    var taken := o.(starts := o.starts - multiset{r});
    if r !in o.starts || o.disposed || r !in o.lanes || o.lanes[r].running || o.lanes[r].timed then taken
    else Pump(taken, r)
  }

  predicate Calling(o: Outbox, r: RoomId) {
    && !o.disposed && r in o.lanes && o.lanes[r].running
    && o.lanes[r].commits != [] && o.lanes[r].commits[0].next < |o.lanes[r].commits[0].commit.effects|
  }

  /** The current effect is settled and the lane moves on. */
  function Settle(o: Outbox, r: RoomId, delivered: bool): Outbox
    requires Calling(o, r)
  {
    var lane := o.lanes[r];
    var head := lane.commits[0];
    o.(lanes := o.lanes[r := lane.(commits := [head.(next := head.next + 1, attempt := 1)] + lane.commits[1..],
                                   running := false)],
       settled := Logged(o.settled, r, Settled(head.commit.revision, head.next, head.commit.effects[head.next], delivered)))
  }

  function HandlerSucceeds(o: Outbox, r: RoomId): Outbox {
    if Calling(o, r) then Pump(Settle(o, r, true), r) else o
  }

  /** What a scheduler does with a retry: refuse it, keep it, run it at once, or run it and then raise an error. */
  datatype Scheduling = Throws | Arms | FiresAtOnce | FiresAndThrows

  /** One scheduler is asked; the answer says whether it took the retry. */
  function Tried(o: Outbox, r: RoomId, s: Scheduling): (Outbox, bool)
    requires r in o.lanes
  {
    match s
    case Throws => (o, false)
    case Arms => (o.(lanes := o.lanes[r := o.lanes[r].(timed := true)]), true)
    case FiresAtOnce => (o.(starts := o.starts + multiset{r}), true)
    case FiresAndThrows => (o.(starts := o.starts + multiset{r}), false)
  }

  /** The recovery scheduler is asked when the primary one has not taken the retry. */
  function Schedule(o: Outbox, r: RoomId, clockOk: bool, primary: Scheduling, recovery: Scheduling): Outbox
    requires r in o.lanes
  {
    if !clockOk then o
    else
      var first := Tried(o, r, primary);
      if first.1 then first.0 else Tried(first.0, r, recovery).0
  }

  predicate Exhausted(o: Outbox, attempt: nat) {
    o.limits.maxAttempts.Some? && attempt >= o.limits.maxAttempts.value
  }

  /** A failed call is retried later, unless its attempts have run out. */
  function HandlerFails(o: Outbox, r: RoomId, clockOk: bool, primary: Scheduling, recovery: Scheduling): Outbox {
    if !Calling(o, r) then o
    else
      var lane := o.lanes[r];
      var head := lane.commits[0];
      if Exhausted(o, head.attempt) then Pump(Settle(o, r, false), r)
      else
        Schedule(o.(lanes := o.lanes[r := lane.(commits := [head.(attempt := head.attempt + 1)] + lane.commits[1..],
                                                running := false)]),
                 r, clockOk, primary, recovery)
  }

  function RetryFires(o: Outbox, r: RoomId): Outbox {
    if o.disposed || r !in o.lanes || !o.lanes[r].timed then o
    else o.(lanes := o.lanes[r := o.lanes[r].(timed := false)], starts := o.starts + multiset{r})
  }

  function Dispose(o: Outbox): Outbox {
    o.(disposed := true, lanes := map[], pending := map[], waiting := [], completed := [])
  }

  datatype Step =
    | Offer(commit: Commit)
    | OfferDurably(commit: Commit)
    | Start(room: RoomId)
    | Succeed(room: RoomId)
    | Fail(room: RoomId, clockOk: bool, primary: Scheduling, recovery: Scheduling)
    | Fire(room: RoomId)
    | Close

  function Take(o: Outbox, step: Step): Outbox {
    match step
    case Offer(c) => Enqueue(o, c).0
    case OfferDurably(c) => EnqueueDurably(o, c).0
    case Start(r) => StartLane(o, r)
    case Succeed(r) => HandlerSucceeds(o, r)
    case Fail(r, clockOk, primary, recovery) => HandlerFails(o, r, clockOk, primary, recovery)
    case Fire(r) => RetryFires(o, r)
    case Close => Dispose(o)
  }

  /** Steps in any order: handlers, timers and microtasks of all rooms interleave freely. */
  function Run(limits: Limits, steps: seq<Step>): Outbox {
    if steps == [] then NewOutbox(limits) else Take(Run(limits, steps[..|steps| - 1]), steps[|steps| - 1])
  }
}

/** The outbox as the object it is; its records of what happened are ghosts. */
module RoomCommitOutboxes {
  import opened Wrappers
  import opened CommitOutbox

  class RoomCommitOutbox {
    const limits: Limits
    var lanes: map<RoomId, Lane>
    var pendingByKey: map<Key, seq<Effect>>
    var waiting: seq<Commit>
    var completed: seq<Completed>
    var starts: multiset<RoomId>
    var disposed: bool
    ghost var arrived: map<RoomId, seq<Commit>>
    ghost var admitted: map<RoomId, seq<Commit>>
    ghost var settled: map<RoomId, seq<Settled>>

    ghost function View(): Outbox
      reads this
    {
      Outbox(limits, lanes, pendingByKey, waiting, completed, starts, disposed, arrived, admitted, settled)
    }

    constructor (limits: Limits)
      requires LimitsOk(limits)
      ensures View() == NewOutbox(limits)
    {
      this.limits, lanes, pendingByKey, waiting, completed := limits, map[], map[], [], [];
      starts, disposed, arrived, admitted, settled := multiset{}, false, map[], map[], map[];
    }

    method IsKnown(c: Commit) returns (known: Knowledge)
      modifies this`completed
      ensures (View(), known) == Known(old(View()), c)
    {
      var key := KeyOf(c);
      if key in pendingByKey {
        return if pendingByKey[key] == c.effects then Duplicate else Conflict;
      }
      var effects := FindCompleted(completed, key);
      if effects.None? {
        return Unknown;
      }
      if effects.value != c.effects {
        return Conflict;
      }
      completed := Forget(completed, key) + [Completed(key, effects.value)];
      return Duplicate;
    }

    method PushLane(c: Commit)
      modifies this`lanes, this`admitted
      ensures View() == old(View()).(
                lanes := old(lanes)[c.room := LaneFor(old(View()), c.room).(
                           commits := LaneFor(old(View()), c.room).commits + [Pending(c, 0, 1)])],
                admitted := Logged(old(admitted), c.room, c))
    {
      var lane := if c.room in lanes then lanes[c.room] else Lane([], false, false);
      lanes := lanes[c.room := lane.(commits := lane.commits + [Pending(c, 0, 1)])];
      admitted := Logged(admitted, c.room, c);
    }

    method AdmitCommit(c: Commit)
      modifies this`lanes, this`admitted, this`pendingByKey, this`starts
      ensures View() == Admit(old(View()), c)
    {
      PushLane(c);
      pendingByKey := pendingByKey[KeyOf(c) := c.effects];
      starts := starts + multiset{c.room};
    }

    /** Admits waiters one by one while there is room. */
    method AdmitWaiters()
      modifies this`lanes, this`admitted, this`pendingByKey, this`starts, this`waiting, this`completed
      ensures View() == AdmitWaiting(old(View()))
    {
      while !disposed && |pendingByKey| < limits.capacity && |waiting| > 0
        invariant AdmitWaiting(View()) == AdmitWaiting(old(View()))
        decreases |waiting|
      {
        var c := waiting[0];
        waiting := waiting[1..];
        var known := IsKnown(c);
        if known.Unknown? {
          AdmitCommit(c);
        }
      }
    }

    predicate Waiting(c: Commit)
      reads this
    {
      exists i :: 0 <= i < |waiting| && KeyOf(waiting[i]) == KeyOf(c)
    }

    predicate WaitingDifferently(c: Commit)
      reads this
    {
      exists i :: 0 <= i < |waiting| && KeyOf(waiting[i]) == KeyOf(c) && waiting[i].effects != c.effects
    }

    method Offer(c: Commit) returns (outcome: Outcome)
      modifies this
      ensures (View(), outcome) == Enqueue(old(View()), c)
    {
      if disposed {
        return Refused(Disposed);
      }
      if c.revision < 1 {
        return Refused(Invalid);
      }
      var known := IsKnown(c);
      if !known.Unknown? {
        return if known.Conflict? then Refused(RevisionConflict) else AlreadyKnown;
      }
      if WaitingDifferently(c) {
        return Refused(RevisionConflict);
      }
      if Waiting(c) || |waiting| > 0 || |pendingByKey| >= limits.capacity {
        return Refused(CapacityReached);
      }
      arrived := Logged(arrived, c.room, c);
      AdmitCommit(c);
      return Admitted;
    }

    method OfferDurably(c: Commit) returns (outcome: Outcome)
      modifies this
      ensures (View(), outcome) == EnqueueDurably(old(View()), c)
    {
      if disposed {
        return Refused(Disposed);
      }
      if c.revision < 1 {
        return Refused(Invalid);
      }
      var known := IsKnown(c);
      if !known.Unknown? {
        return if known.Conflict? then Refused(RevisionConflict) else AlreadyKnown;
      }
      if WaitingDifferently(c) {
        return Refused(RevisionConflict);
      }
      if Waiting(c) {
        return AlreadyKnown;
      }
      if |waiting| == 0 && |pendingByKey| < limits.capacity {
        arrived := Logged(arrived, c.room, c);
        AdmitCommit(c);
        return Admitted;
      }
      if |waiting| >= limits.waitingCapacity {
        return Refused(WaitCapacityReached);
      }
      arrived := Logged(arrived, c.room, c);
      waiting := waiting + [c];
      return Waits;
    }

    method Evict()
      modifies this`completed
      ensures completed == Newest(old(completed), limits.retention)
    {
      ghost var all := completed;
      while |completed| > limits.retention
        invariant |completed| <= |all| && (|completed| >= limits.retention || completed == all)
        invariant completed == all[|all| - |completed|..]
      {
        completed := completed[1..];
      }
    }

    /** Drops a finished commit from its lane and remembers it. */
    method RetireHead(r: RoomId)
      requires r in lanes && lanes[r].commits != []
      modifies this`lanes, this`pendingByKey, this`completed
      ensures var c := old(lanes)[r].commits[0].commit;
              View() == old(View()).(
                lanes := old(lanes)[r := old(lanes)[r].(commits := old(lanes)[r].commits[1..])],
                pending := old(pendingByKey) - {KeyOf(c)},
                completed := Newest(Forget(old(completed), KeyOf(c)) + [Completed(KeyOf(c), c.effects)], limits.retention))
    {
      var lane := lanes[r];
      var c := lane.commits[0].commit;
      lanes := lanes[r := lane.(commits := lane.commits[1..])];
      pendingByKey := pendingByKey - {KeyOf(c)};
      completed := Forget(completed, KeyOf(c)) + [Completed(KeyOf(c), c.effects)];
      Evict();
    }

    method CompleteHead(r: RoomId)
      requires r in lanes && lanes[r].commits != []
      modifies this
      ensures View() == Complete(old(View()), r)
    {
      RetireHead(r);
      AdmitWaiters();
    }

    /** Runs a lane up to its next handler call, or to its end. */
    method PumpLane(r: RoomId)
      modifies this
      ensures View() == Pump(old(View()), r)
    {
      while !disposed && r in lanes && |lanes[r].commits| > 0
            && lanes[r].commits[0].next >= |lanes[r].commits[0].commit.effects|
        invariant Pump(View(), r) == Pump(old(View()), r)
        decreases |waiting|, |Commits(View(), r)|
      {
        ghost var before := View();
        AdmittingShrinksTheQueue(before.(
          lanes := before.lanes[r := before.lanes[r].(commits := before.lanes[r].commits[1..])],
          pending := before.pending - {KeyOf(before.lanes[r].commits[0].commit)},
          completed := Newest(Forget(before.completed, KeyOf(before.lanes[r].commits[0].commit))
                              + [Completed(KeyOf(before.lanes[r].commits[0].commit),
                                           before.lanes[r].commits[0].commit.effects)], before.limits.retention)));
        CompleteHead(r);
      }
      if disposed || r !in lanes {
        return;
      }
      if |lanes[r].commits| == 0 {
        lanes := lanes - {r};
      } else {
        lanes := lanes[r := lanes[r].(running := true)];
      }
    }

    method RunQueuedStart(r: RoomId)
      requires r in starts
      modifies this
      ensures View() == StartLane(old(View()), r)
    {
      starts := starts - multiset{r};
      if disposed || r !in lanes || lanes[r].running || lanes[r].timed {
        return;
      }
      PumpLane(r);
    }

    method SettleHead(r: RoomId, delivered: bool)
      requires Calling(View(), r)
      modifies this`lanes, this`settled
      ensures View() == Settle(old(View()), r, delivered)
    {
      var lane := lanes[r];
      var head := lane.commits[0];
      lanes := lanes[r := lane.(commits := [head.(next := head.next + 1, attempt := 1)] + lane.commits[1..], running := false)];
      settled := Logged(settled, r, Settled(head.commit.revision, head.next, head.commit.effects[head.next], delivered));
    }

    method HandlerSucceeded(r: RoomId)
      requires Calling(View(), r)
      modifies this
      ensures View() == HandlerSucceeds(old(View()), r)
    {
      SettleHead(r, true);
      PumpLane(r);
    }

    method HandlerFailed(r: RoomId, clockOk: bool, primary: Scheduling, recovery: Scheduling)
      requires Calling(View(), r)
      modifies this
      ensures View() == HandlerFails(old(View()), r, clockOk, primary, recovery)
    {
      var lane := lanes[r];
      var head := lane.commits[0];
      if limits.maxAttempts.Some? && head.attempt >= limits.maxAttempts.value {
        SettleHead(r, false);
        PumpLane(r);
        return;
      }
      lanes := lanes[r := lane.(commits := [head.(attempt := head.attempt + 1)] + lane.commits[1..], running := false)];
      ScheduleRetry(r, clockOk, primary, recovery);
    }

    method TrySchedule(r: RoomId, scheduler: Scheduling) returns (taken: bool)
      requires r in lanes
      modifies this`lanes, this`starts
      ensures (View(), taken) == Tried(old(View()), r, scheduler)
      ensures r in lanes
    {
      match scheduler
      case Throws => taken := false;
      case Arms =>
        lanes := lanes[r := lanes[r].(timed := true)];
        taken := true;
      case FiresAtOnce =>
        starts := starts + multiset{r};
        taken := true;
      case FiresAndThrows =>
        starts := starts + multiset{r};
        taken := false;
    }

    method ScheduleRetry(r: RoomId, clockOk: bool, primary: Scheduling, recovery: Scheduling)
      requires r in lanes
      modifies this`lanes, this`starts
      ensures View() == Schedule(old(View()), r, clockOk, primary, recovery)
    {
      if !clockOk {
        return;
      }
      var taken := TrySchedule(r, primary);
      if !taken {
        taken := TrySchedule(r, recovery);
      }
    }

    method RetryFired(r: RoomId)
      modifies this
      ensures View() == RetryFires(old(View()), r)
    {
      if disposed || r !in lanes || !lanes[r].timed {
        return;
      }
      lanes := lanes[r := lanes[r].(timed := false)];
      starts := starts + multiset{r};
    }

    method Close()
      modifies this
      ensures View() == Dispose(old(View()))
    {
      disposed := true;
      waiting := [];
      lanes := map[];
      pendingByKey := map[];
      completed := [];
    }
  }
}

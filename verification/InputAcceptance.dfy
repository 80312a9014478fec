/** Which inputs a match takes, what it answers, and when it hands them to the simulation. */
module InputAcceptance {
  import opened Wrappers
  import opened InputQueues
  import opened InputQueueLaws

  // ---------------------------------------------------------------- acceptance

  /** The next input of a player's current epoch, well formed, from a client whose clock is near enough. */
  predicate InOrder<A>(q: Queue<A>, e: Envelope<A>, now: nat) {
    && e.playerId in q.players
    && e.inputEpoch >= 0 && e.sequence >= 0 && e.clientFrame >= 0 && 1 <= |e.actions| <= 16
    && e.inputEpoch == q.players[e.playerId].epoch
    && e.sequence == q.players[e.playerId].next
    && e.clientFrame + q.window.lag >= now
    && e.clientFrame <= now + q.window.lead
  }

  /** The same input, stamped with the frame it is meant for. */
  function Stamped<A>(e: Envelope<A>, frame: nat): Input<A>
    requires e.inputEpoch >= 0 && e.sequence >= 0 && e.clientFrame >= 0
  {
    Input(e.playerId, e.inputEpoch, e.sequence, e.clientFrame, e.actions, frame)
  }

  /**
   An envelope is taken if and only if it is in order: then it is answered with the frame it is scheduled for, a fixed
   delay from now, stands last among that frame's inputs, and is the only thing that changes besides its player's
   counter and answers. Otherwise nothing changes.
   */
  lemma InputsAreTakenExactlyInOrder<A>(q: Queue<A>, e: Envelope<A>, now: nat)
    ensures var (t, answer) := Enqueued(q, e, now);
            && (t != q <==> InOrder(q, e, now))
            && (InOrder(q, e, now) ==>
                var at := now + q.window.delay;
                && answer == Scheduled(e.sequence, at)
                && Inputs(t.scheduled, at) == Inputs(q.scheduled, at) + [Stamped(e, at)]
                && (forall f: nat | f != at :: Inputs(t.scheduled, f) == Inputs(q.scheduled, f))
                && t.players.Keys == q.players.Keys
                && t.players[e.playerId].next == q.players[e.playerId].next + 1
                && t.players[e.playerId].epoch == q.players[e.playerId].epoch
                && (forall id | id in q.players && id != e.playerId :: t.players[id] == q.players[id]))
  {
    if InOrder(q, e, now) {
      assert Answer(q, e, now).None?;
    }
  }

  /** Why an envelope is not taken: the first thing that is wrong with it. */
  lemma RefusalsNameTheFirstObjection<A>(q: Queue<A>, e: Envelope<A>, now: nat)
    ensures var answer := Enqueued(q, e, now).1;
            if e.playerId !in q.players then answer == Rejected(e.sequence, UnknownPlayer)
            else if e.inputEpoch < 0 || e.sequence < 0 || e.clientFrame < 0 || |e.actions| == 0 || |e.actions| > 16 then
              answer == Rejected(e.sequence, Invalid)
            else if e.inputEpoch != q.players[e.playerId].epoch then answer == Rejected(e.sequence, WrongEpoch)
            else if e.sequence > q.players[e.playerId].next then answer == Rejected(e.sequence, Gap)
            else if e.sequence < q.players[e.playerId].next then
              answer == Recall(q.players[e.playerId].history, e.sequence).GetOr(Rejected(e.sequence, Late))
            else if now > e.clientFrame + q.window.lag then answer == Rejected(e.sequence, Late)
            else if e.clientFrame > now + q.window.lead then answer == Rejected(e.sequence, TooFarFuture)
            else answer == Scheduled(e.sequence, now + q.window.delay)
  {
  }

  // ---------------------------------------------------------------- counting from outside

  /** How often a player was reset. */
  function ResetsOf<A>(ops: seq<Op<A>>, id: PlayerId): nat {
    if ops == [] then 0
    else if ops[|ops| - 1] == ResetPlayer(id) then ResetsOf(ops[..|ops| - 1], id) + 1
    else ResetsOf(ops[..|ops| - 1], id)
  }

  lemma DrainKeepsEpochs<A>(q: Queue<A>, frame: nat)
    ensures Drained(q, frame).0.players.Keys == q.players.Keys
    ensures forall id | id in q.players ::
              Drained(q, frame).0.players[id].epoch == q.players[id].epoch && Drained(q, frame).0.players[id].next == q.players[id].next
  {
    SettledKeepsCounters(q.players, Batches(q.order, q.scheduled, frame + 1), q.window.historySize);
  }

  /**
   What a client has to know: its epoch is the number of its resets, its next sequence the number of its inputs taken since,
   and the window never changes.
   */
  lemma {:induction false} CountersAreCounts<A>(order: seq<PlayerId>, window: Window, ops: seq<Op<A>>, id: PlayerId)
    requires TwoPlayers(order) && id in order && NeverBack(ops)
    ensures var t := Run(order, window, ops);
            && id in t.queue.players && t.queue.window == window
            && t.queue.players[id].epoch == ResetsOf(ops, id)
            && t.queue.players[id].next == |In(t.accepted, id, ResetsOf(ops, id))|
    decreases |ops|
  {
    RunsAreOrderly(order, window, ops, id);
    if ops != [] {
      var m := |ops| - 1;
      var t := Run(order, window, ops[..m]);
      CountersAreCounts(order, window, ops[..m], id);
      match ops[m]
      case Submit(envelope, now) => InputsAreTakenExactlyInOrder(t.queue, envelope, now);
      case Drain(frame) => DrainKeepsEpochs(t.queue, frame);
      case ResetPlayer(gone) =>
    }
  }

  // ---------------------------------------------------------------- delivery

  lemma {:induction false} InsertHolds<A>(order: seq<PlayerId>, s: seq<Input<A>>, x: Input<A>, y: Input<A>)
    ensures y in Insert(order, s, x) <==> y == x || y in s
    decreases |s|
  {
    if s != [] && Before(order, x, s[|s| - 1]) {
      InsertHolds(order, s[..|s| - 1], x, y);
      assert s == s[..|s| - 1] + [s[|s| - 1]];
    }
  }

  lemma {:induction false} SortedHolds<A>(order: seq<PlayerId>, s: seq<Input<A>>, y: Input<A>)
    ensures y in Sorted(order, s) <==> y in s
    decreases |s|
  {
    if s != [] {
      SortedHolds(order, s[..|s| - 1], y);
      InsertHolds(order, Sorted(order, s[..|s| - 1]), s[|s| - 1], y);
      assert s == s[..|s| - 1] + [s[|s| - 1]];
    }
  }

  lemma {:induction false} BatchesHold<A>(order: seq<PlayerId>, s: Schedule<A>, bound: nat, at: nat, y: Input<A>)
    requires at < bound && y in Inputs(s, at)
    ensures y in Batches(order, s, bound)
    decreases bound
  {
    if at == bound - 1 {
      SortedHolds(order, s[at], y);
    } else {
      BatchesHold(order, s, bound - 1, at, y);
    }
  }

  lemma {:induction false} CurrentHolds<A>(players: map<PlayerId, PlayerInput>, xs: seq<Input<A>>, y: Input<A>)
    requires y in xs && IsCurrent(players, y)
    ensures y in Current(players, xs)
    decreases |xs|
  {
    if y != xs[|xs| - 1] {
      CurrentHolds(players, xs[..|xs| - 1], y);
    }
  }

  lemma {:induction false} WithoutHolds<A>(xs: seq<Input<A>>, gone: PlayerId, y: Input<A>)
    requires y in xs && y.playerId != gone
    ensures y in Without(xs, gone)
    decreases |xs|
  {
    if y != xs[|xs| - 1] {
      WithoutHolds(xs[..|xs| - 1], gone, y);
    }
  }

  /** An input that waits for its frame, in its player's current epoch. */
  ghost predicate Waits<A>(q: Queue<A>, x: Input<A>) { x in Inputs(q.scheduled, x.serverFrame) && IsCurrent(q.players, x) }

  /** Neither a reset of the player nor a drain that reaches the frame. */
  predicate LeavesWaiting<A>(op: Op<A>, id: PlayerId, at: nat) {
    match op
    case Submit(_, _) => true
    case Drain(frame) => frame < at
    case ResetPlayer(gone) => gone != id
  }

  lemma WaitingGoesOn<A>(t: Trace<A>, x: Input<A>, op: Op<A>)
    requires Waits(t.queue, x) && LeavesWaiting(op, x.playerId, x.serverFrame)
    ensures Waits(Take(t, op).queue, x)
  {
    match op
    case Submit(envelope, now) =>
      InputsAreTakenExactlyInOrder(t.queue, envelope, now);
      if InOrder(t.queue, envelope, now) && x.serverFrame != now + t.queue.window.delay {
        assert Inputs(Take(t, op).queue.scheduled, x.serverFrame) == Inputs(t.queue.scheduled, x.serverFrame);
      }
    case Drain(frame) => DrainKeepsEpochs(t.queue, frame);
    case ResetPlayer(gone) =>
      if gone in t.queue.players {
        WithoutHolds(Inputs(t.queue.scheduled, x.serverFrame), gone, x);
      }
  }

  lemma {:induction false} WaitingGoesOnAndOn<A>(
    order: seq<PlayerId>, window: Window, ops: seq<Op<A>>, more: seq<Op<A>>, x: Input<A>)
    requires TwoPlayers(order) && Waits(Run(order, window, ops).queue, x)
    requires forall i | 0 <= i < |more| :: LeavesWaiting(more[i], x.playerId, x.serverFrame)
    ensures Waits(Run(order, window, ops + more).queue, x)
    decreases |more|
  {
    if more == [] {
      assert ops + more == ops;
    } else {
      var m := |more| - 1;
      WaitingGoesOnAndOn(order, window, ops, more[..m], x);
      assert (ops + more)[..|ops + more| - 1] == ops + more[..m];
      WaitingGoesOn(Run(order, window, ops + more[..m]), x, more[m]);
    }
  }

  lemma DueInputsAreHandedOut<A>(q: Queue<A>, x: Input<A>, frame: nat)
    requires Waits(q, x) && x.serverFrame <= frame
    ensures x in Drained(q, frame).1
  {
    BatchesHold(q.order, q.scheduled, frame + 1, x.serverFrame, x);
    CurrentHolds(q.players, Batches(q.order, q.scheduled, frame + 1), x);
  }

  lemma {:induction false} PendingHolds<A>(s: Schedule<A>, id: PlayerId, bound: nat, at: nat, y: Input<A>)
    requires at < bound && y in Inputs(s, at) && y.playerId == id
    ensures y in Pending(s, id, bound)
    decreases bound
  {
    if at == bound - 1 {
      OfHolds(s[at], id, y);
    } else {
      PendingHolds(s, id, bound - 1, at, y);
    }
  }

  lemma {:induction false} OfHolds<A>(xs: seq<Input<A>>, id: PlayerId, y: Input<A>)
    requires y in xs && y.playerId == id
    ensures y in Of(xs, id)
    decreases |xs|
  {
    if y != xs[|xs| - 1] {
      OfHolds(xs[..|xs| - 1], id, y);
    }
  }

  lemma {:induction false} InHolds<A>(xs: seq<Input<A>>, id: PlayerId, epoch: nat, y: Input<A>)
    requires y in xs && y.playerId == id && y.inputEpoch == epoch
    ensures y in In(xs, id, epoch)
    decreases |xs|
  {
    if y != xs[|xs| - 1] {
      InHolds(xs[..|xs| - 1], id, epoch, y);
    }
  }

  /** What waits has not been handed out: waiting inputs carry later numbers than drained ones. */
  lemma WaitingIsNotDrained<A>(t: Trace<A>, x: Input<A>)
    requires Orderly(t, x.playerId) && Waits(t.queue, x)
    ensures x !in t.drained
  {
    var id, epoch := x.playerId, x.inputEpoch;
    var drained, pending := In(t.drained, id, epoch), Pending(t.queue.scheduled, id, Horizon(t));
    assert Below(t.queue.scheduled, Horizon(t));
    PendingHolds(t.queue.scheduled, id, Horizon(t), x.serverFrame, x);
    var k :| 0 <= k < |pending| && pending[k] == x;
    var accepted := In(t.accepted, id, epoch);
    assert accepted == drained + pending;
    assert accepted[|drained| + k].sequence == |drained| + k;
    assert forall i | 0 <= i < |drained| :: accepted[i] == drained[i] && drained[i].sequence == i;
    assert x !in drained;
    if x in t.drained {
      InHolds(t.drained, id, epoch, x);
    }
  }

  /**
   An input that is taken is played: whatever is submitted, drained and reset meanwhile, the first drain that reaches the
   frame it was scheduled for hands it out, and no drain before does, unless its player is reset first.
   */
  lemma TakenInputsAreHandedOutInTime<A>(
    order: seq<PlayerId>, window: Window, ops: seq<Op<A>>, e: Envelope<A>, now: nat, more: seq<Op<A>>, frame: nat)
    requires TwoPlayers(order) && e.playerId in order && NeverBack(ops + [Submit(e, now)] + more)
    requires InOrder(Run(order, window, ops).queue, e, now)
    requires frame >= now + window.delay
    requires forall i | 0 <= i < |more| :: LeavesWaiting(more[i], e.playerId, now + window.delay)
    ensures var t := Run(order, window, ops + [Submit(e, now)] + more);
            var x := Stamped(e, now + window.delay);
            x !in t.drained && x in Drained(t.queue, frame).1
  {
    hide *;
    var x := TakenInputsWait(order, window, ops, e, now);
    WaitingInputsAreHandedOutInTime(order, window, ops + [Submit(e, now)], x, more, frame);
  }

  lemma WaitingInputsAreHandedOutInTime<A>(
    order: seq<PlayerId>, window: Window, ops: seq<Op<A>>, x: Input<A>, more: seq<Op<A>>, frame: nat)
    requires TwoPlayers(order) && x.playerId in order && NeverBack(ops + more)
    requires Waits(Run(order, window, ops).queue, x) && frame >= x.serverFrame
    requires forall i | 0 <= i < |more| :: LeavesWaiting(more[i], x.playerId, x.serverFrame)
    ensures var t := Run(order, window, ops + more); x !in t.drained && x in Drained(t.queue, frame).1
  {
    hide Run, Drained, Waits, NeverBack, Orderly, LeavesWaiting;
    WaitingGoesOnAndOn(order, window, ops, more, x);
    RunsAreOrderly(order, window, ops + more, x.playerId);
    var t := Run(order, window, ops + more);
    WaitingIsNotDrained(t, x);
    DueInputsAreHandedOut(t.queue, x, frame);
  }

  lemma TakenInputsWait<A>(order: seq<PlayerId>, window: Window, ops: seq<Op<A>>, e: Envelope<A>, now: nat)
    returns (x: Input<A>)
    requires TwoPlayers(order) && InOrder(Run(order, window, ops).queue, e, now)
    ensures e.inputEpoch >= 0 && e.sequence >= 0 && e.clientFrame >= 0
    ensures x == Stamped(e, now + window.delay) && x.playerId == e.playerId && x.serverFrame == now + window.delay
    ensures Waits(Run(order, window, ops + [Submit(e, now)]).queue, x)
  {
    x := Stamped(e, now + window.delay);
    hide Enqueued;
    var q := Run(order, window, ops).queue;
    WindowsStay(order, window, ops);
    assert (ops + [Submit(e, now)])[..|ops|] == ops;
    InputsAreTakenExactlyInOrder(q, e, now);
    OrderIsCurrent(q, e, now);
  }

  lemma OrderIsCurrent<A>(q: Queue<A>, e: Envelope<A>, now: nat)
    requires InOrder(q, e, now)
    ensures e.playerId in q.players && q.players[e.playerId].epoch == e.inputEpoch
  {
  }

  lemma {:induction false} WindowsStay<A>(order: seq<PlayerId>, window: Window, ops: seq<Op<A>>)
    requires TwoPlayers(order)
    ensures Run(order, window, ops).queue.window == window
    decreases |ops|
  {
    if ops != [] {
      WindowsStay(order, window, ops[..|ops| - 1]);
    }
  }

  // ---------------------------------------------------------------- order within a frame

  /** The first player's inputs come before the second's, and each player's by sequence. */
  predicate InPlayerOrder<A>(order: seq<PlayerId>, xs: seq<Input<A>>)
    requires TwoPlayers(order)
  {
    forall i, j | 0 <= i < j < |xs| ::
      && !(xs[i].playerId == order[1] && xs[j].playerId == order[0])
      && (xs[i].playerId == xs[j].playerId ==> xs[i].sequence <= xs[j].sequence)
  }

  predicate OnlyThese<A>(order: seq<PlayerId>, xs: seq<Input<A>>)
    requires TwoPlayers(order)
  {
    forall i | 0 <= i < |xs| :: xs[i].playerId == order[0] || xs[i].playerId == order[1]
  }

  lemma {:induction false} InsertKeepsOrder<A>(order: seq<PlayerId>, s: seq<Input<A>>, x: Input<A>)
    requires TwoPlayers(order) && OnlyThese(order, s + [x]) && InPlayerOrder(order, s)
    ensures OnlyThese(order, Insert(order, s, x)) && InPlayerOrder(order, Insert(order, s, x))
    decreases |s|
  {
    assert forall i | 0 <= i < |s| :: (s + [x])[i] == s[i];
    assert (s + [x])[|s|] == x;
    if s != [] && Before(order, x, s[|s| - 1]) {
      var front, last := s[..|s| - 1], s[|s| - 1];
      InsertKeepsOrder(order, front, x);
      var t := Insert(order, front, x);
      forall i | 0 <= i < |t|
        ensures !(t[i].playerId == order[1] && last.playerId == order[0])
        ensures t[i].playerId == last.playerId ==> t[i].sequence <= last.sequence
      {
        InsertHolds(order, front, x, t[i]);
        if t[i] != x {
          assert exists k | 0 <= k < |front| :: front[k] == t[i];
        }
      }
    }
  }

  /** A frame's inputs are handed out player by player, each player's by sequence, and none is added or left out. */
  lemma {:induction false} FramesAreHandedOutInOrder<A>(order: seq<PlayerId>, s: seq<Input<A>>)
    requires TwoPlayers(order) && OnlyThese(order, s)
    ensures OnlyThese(order, Sorted(order, s)) && InPlayerOrder(order, Sorted(order, s))
    ensures |Sorted(order, s)| == |s| && forall x :: x in Sorted(order, s) <==> x in s
    decreases |s|
  {
    if s != [] {
      var front := s[..|s| - 1];
      FramesAreHandedOutInOrder(order, front);
      InsertKeepsOrder(order, Sorted(order, front), s[|s| - 1]);
      InsertAddsOne(order, Sorted(order, front), s[|s| - 1]);
    }
    forall x ensures x in Sorted(order, s) <==> x in s {
      SortedHolds(order, s, x);
    }
  }

  lemma {:induction false} InsertAddsOne<A>(order: seq<PlayerId>, s: seq<Input<A>>, x: Input<A>)
    ensures |Insert(order, s, x)| == |s| + 1
    decreases |s|
  {
    if s != [] {
      InsertAddsOne(order, s[..|s| - 1], x);
    }
  }

  // ---------------------------------------------------------------- remembered answers

  /** An answer is remembered as the newest, in place of an older one to the same input; the oldest go first. */
  lemma AnswersAreKeptNewestFirst(p: PlayerInput, d: Disposition, size: nat)
    requires size >= 1
    ensures var h := Remember(p, d, size).history;
            && h != [] && h[|h| - 1] == d && |h| <= size
            && Recall(h, d.sequence) == Some(d)
            && var all := Forget(p.history, d.sequence) + [d];
               |h| == (if |all| <= size then |all| else size) && h == all[|all| - |h|..]
  {
    hide Forget;
    var all := Forget(p.history, d.sequence) + [d];
    assert all[|all| - 1] == d;
  }

  /** An input that is sent again right after it was taken changes nothing and gets the very same answer. */
  lemma EchoesGetTheSameAnswer<A>(q: Queue<A>, e: Envelope<A>, now: nat, later: nat)
    requires InOrder(q, e, now) && q.window.historySize >= 1
    ensures var (t, answer) := Enqueued(q, e, now); Enqueued(t, e, later) == (t, answer)
  {
    InputsAreTakenExactlyInOrder(q, e, now);
    var p := q.players[e.playerId];
    AnswersAreKeptNewestFirst(p.(next := p.next + 1), Scheduled(e.sequence, now + q.window.delay), q.window.historySize);
    hide Remember, Recall, Added;
  }
}

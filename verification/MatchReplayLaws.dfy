/**
 Replay fidelity: reconstructing the log of any run accepts every recorded input and reaches the same
 players, garbage, events and ending, unless a step of the run raised an error.
 */
module MatchReplayLaws {
  import opened Wrappers
  import opened InputQueues
  import opened InputQueueLaws
  import opened MatchCoordination
  import opened MatchReplay

  // ---------------------------------------------------------------- a queue between frames

  /** What is scheduled for the next frame. */
  function Upcoming<A>(q: Queue<A>, frame: nat): seq<Input<A>> { Inputs(q.scheduled, frame + 1) }

  predicate Plays(order: seq<PlayerId>, id: PlayerId) { |order| == 2 && (id == order[0] || id == order[1]) }

  predicate GoodInput<A>(order: seq<PlayerId>, x: Input<A>, frame: nat) {
    Plays(order, x.playerId) && 1 <= |x.actions| <= 16 && x.serverFrame == frame
  }

  predicate AllGood<A>(order: seq<PlayerId>, xs: seq<Input<A>>, frame: nat) {
    forall i | 0 <= i < |xs| :: GoodInput(order, xs[i], frame)
  }

  /** A player's upcoming inputs are the latest sequences of its epoch. */
  predicate PlayerReady<A>(q: Queue<A>, frame: nat, id: PlayerId) {
    && id in q.players
    && var mine := Of(Upcoming(q, frame), id);
       && |mine| <= q.players[id].next
       && NumberedFrom(mine, q.players[id].next - |mine|)
       && AllOf(mine, id, q.players[id].epoch)
  }

  /** Between frames everything scheduled is due in the next one. */
  ghost predicate QueueReady<P, A>(setup: Setup<P, A>, q: Queue<A>, frame: nat) {
    && TwoPlayers(setup.participants)
    && q.order == setup.participants
    && q.window == Window(1, setup.tickRate * 2, setup.tickRate, 128)
    && q.players.Keys == {setup.participants[0], setup.participants[1]}
    && (forall f | f in q.scheduled :: f == frame + 1)
    && AllGood(setup.participants, Upcoming(q, frame), frame + 1)
    && PlayerReady(q, frame, setup.participants[0]) && PlayerReady(q, frame, setup.participants[1])
  }

  /** How many inputs of its epoch a player has been handed. */
  function Taken<A>(q: Queue<A>, frame: nat, id: PlayerId): int {
    if id in q.players then q.players[id].next - |Of(Upcoming(q, frame), id)| else 0
  }

  lemma NewQueueIsReady<P, A>(setup: Setup<P, A>)
    requires TwoPlayers(setup.participants)
    ensures QueueReady(setup, NewQueue<A>(setup.participants, Window(1, setup.tickRate * 2, setup.tickRate, 128)), 0)
  {
  }

  lemma AcceptAddsOne<A>(q: Queue<A>, frame: nat, x: Input<A>, id: PlayerId)
    requires x.playerId in q.players && x.serverFrame == frame + 1
    ensures Of(Upcoming(Accept(q, x), frame), id)
         == if x.playerId == id then Of(Upcoming(q, frame), id) + [x] else Of(Upcoming(q, frame), id)
  {
    assert Upcoming(Accept(q, x), frame) == Upcoming(q, frame) + [x];
    OfSnoc(Upcoming(q, frame), x, id);
  }

  lemma AcceptKeepsPlayerReady<A>(q: Queue<A>, frame: nat, x: Input<A>, id: PlayerId)
    requires x.playerId in q.players && x.serverFrame == frame + 1 && PlayerReady(q, frame, id)
    requires x.inputEpoch == q.players[x.playerId].epoch && x.sequence == q.players[x.playerId].next
    ensures PlayerReady(Accept(q, x), frame, id)
  {
    AcceptAddsOne(q, frame, x, id);
    var before, mine := Of(Upcoming(q, frame), id), Of(Upcoming(Accept(q, x), frame), id);
    assert forall i | 0 <= i < |before| :: mine[i] == before[i];
  }

  lemma AcceptKeepsReady<P, A>(setup: Setup<P, A>, q: Queue<A>, frame: nat, x: Input<A>)
    requires QueueReady(setup, q, frame) && GoodInput(setup.participants, x, frame + 1)
    requires x.inputEpoch == q.players[x.playerId].epoch && x.sequence == q.players[x.playerId].next
    ensures QueueReady(setup, Accept(q, x), frame)
    ensures forall id :: Of(Upcoming(Accept(q, x), frame), id)
                      == if x.playerId == id then Of(Upcoming(q, frame), id) + [x] else Of(Upcoming(q, frame), id)
    ensures forall id | id in q.players ::
              && Accept(q, x).players[id].epoch == q.players[id].epoch
              && Accept(q, x).players[id].next == q.players[id].next + (if x.playerId == id then 1 else 0)
  {
    forall id ensures Of(Upcoming(Accept(q, x), frame), id)
                   == if x.playerId == id then Of(Upcoming(q, frame), id) + [x] else Of(Upcoming(q, frame), id) {
      AcceptAddsOne(q, frame, x, id);
    }
    assert Upcoming(Accept(q, x), frame) == Upcoming(q, frame) + [x];
    AcceptKeepsPlayerReady(q, frame, x, setup.participants[0]);
    AcceptKeepsPlayerReady(q, frame, x, setup.participants[1]);
  }

  lemma EnqueueKeepsReady<P, A>(setup: Setup<P, A>, q: Queue<A>, frame: nat, envelope: Envelope<A>)
    requires QueueReady(setup, q, frame)
    ensures QueueReady(setup, Enqueued(q, envelope, frame).0, frame)
    ensures forall id | id in q.players ::
              && Enqueued(q, envelope, frame).0.players[id].epoch == q.players[id].epoch
              && Taken(Enqueued(q, envelope, frame).0, frame, id) == Taken(q, frame, id)
  {
    if Answer(q, envelope, frame).None? {
      AcceptKeepsReady(setup, q, frame, Timed(envelope, frame + 1));
    }
  }

  lemma ResetKeepsReady<P, A>(setup: Setup<P, A>, q: Queue<A>, frame: nat, gone: PlayerId)
    requires QueueReady(setup, q, frame) && gone in q.players
    ensures QueueReady(setup, Reset(q, gone), frame)
    ensures forall id | id in q.players :: Taken(Reset(q, gone), frame, id) == if id == gone then 0 else Taken(q, frame, id)
  {
    var t := Reset(q, gone);
    assert Upcoming(t, frame) == Without(Upcoming(q, frame), gone);
    WithoutKeepsGood(setup.participants, Upcoming(q, frame), gone, frame + 1);
    forall id ensures Of(Upcoming(t, frame), id) == if id == gone then [] else Of(Upcoming(q, frame), id) {
      OfWithout(Upcoming(q, frame), gone, id);
    }
    forall id | Plays(setup.participants, id) ensures PlayerReady(t, frame, id) {
      assert PlayerReady(q, frame, id);
    }
  }

  lemma {:induction false} WithoutKeepsGood<A>(order: seq<PlayerId>, xs: seq<Input<A>>, gone: PlayerId, frame: nat)
    requires AllGood(order, xs, frame)
    ensures AllGood(order, Without(xs, gone), frame)
    decreases |xs|
  {
    if xs != [] {
      WithoutKeepsGood(order, xs[..|xs| - 1], gone, frame);
    }
  }

  // ---------------------------------------------------------------- draining a ready queue

  lemma {:induction false} InsertKeepsGood<A>(order: seq<PlayerId>, s: seq<Input<A>>, x: Input<A>, frame: nat)
    requires AllGood(order, s, frame) && GoodInput(order, x, frame)
    ensures AllGood(order, Insert(order, s, x), frame)
    decreases |s|
  {
    if s != [] && Before(order, x, s[|s| - 1]) {
      InsertKeepsGood(order, s[..|s| - 1], x, frame);
    }
  }

  lemma {:induction false} SortKeepsGood<A>(order: seq<PlayerId>, s: seq<Input<A>>, frame: nat)
    requires AllGood(order, s, frame)
    ensures AllGood(order, Sorted(order, s), frame)
    decreases |s|
  {
    if s != [] {
      SortKeepsGood(order, s[..|s| - 1], frame);
      InsertKeepsGood(order, Sorted(order, s[..|s| - 1]), s[|s| - 1], frame);
    }
  }

  lemma {:induction false} CurrentKeepsGood<A>(
    order: seq<PlayerId>, players: map<PlayerId, PlayerInput>, xs: seq<Input<A>>, frame: nat)
    requires AllGood(order, xs, frame)
    ensures AllGood(order, Current(players, xs), frame)
    decreases |xs|
  {
    if xs != [] {
      CurrentKeepsGood(order, players, xs[..|xs| - 1], frame);
    }
  }

  lemma {:induction false} CurrentKeepsPlayer<A>(players: map<PlayerId, PlayerInput>, xs: seq<Input<A>>, id: PlayerId)
    requires id in players && AllOf(Of(xs, id), id, players[id].epoch)
    ensures Of(Current(players, xs), id) == Of(xs, id)
    decreases |xs|
  {
    if xs != [] {
      var m := |xs| - 1;
      var before := Of(xs[..m], id);
      assert forall i | 0 <= i < |before| :: before[i] == Of(xs, id)[i];
      CurrentKeepsPlayer(players, xs[..m], id);
      if xs[m].playerId == id {
        assert Of(xs, id)[|before|] == xs[m];
      }
      if IsCurrent(players, xs[m]) {
        OfSnoc(Current(players, xs[..m]), xs[m], id);
      } else {
        assert Current(players, xs) == Current(players, xs[..m]);
      }
    }
  }

  lemma {:induction false} NothingBefore<A>(order: seq<PlayerId>, s: Schedule<A>, bound: nat)
    requires forall f | f in s :: f >= bound
    ensures Batches(order, s, bound) == []
    decreases bound
  {
    if bound > 0 {
      NothingBefore(order, s, bound - 1);
      assert Inputs(s, bound - 1) == [];
    }
  }

  /** The batch a ready queue drains is its one upcoming frame, sorted. */
  lemma BatchIsUpcoming<P, A>(setup: Setup<P, A>, q: Queue<A>, frame: nat)
    requires QueueReady(setup, q, frame)
    ensures Batches(q.order, q.scheduled, frame + 2) == Sorted(q.order, Upcoming(q, frame))
    ensures After(q.scheduled, frame + 1) == map[]
  {
    NothingBefore(q.order, q.scheduled, frame + 1);
    assert Batches(q.order, q.scheduled, frame + 2) == [] + Sorted(q.order, Upcoming(q, frame));
  }

  lemma DrainGivesUpcoming<P, A>(setup: Setup<P, A>, q: Queue<A>, frame: nat, id: PlayerId)
    requires QueueReady(setup, q, frame) && Plays(setup.participants, id)
    ensures Of(Drained(q, frame + 1).1, id) == Of(Upcoming(q, frame), id)
  {
    var mine := Of(Upcoming(q, frame), id);
    assert PlayerReady(q, frame, id);
    BatchIsUpcoming(setup, q, frame);
    SortKeepsPlayer(q.order, Upcoming(q, frame), id, q.players[id].next - |mine|);
    CurrentKeepsPlayer(q.players, Sorted(q.order, Upcoming(q, frame)), id);
  }

  lemma DrainedInputsAreGood<P, A>(setup: Setup<P, A>, q: Queue<A>, frame: nat)
    requires QueueReady(setup, q, frame)
    ensures AllGood(setup.participants, Drained(q, frame + 1).1, frame + 1)
  {
    BatchIsUpcoming(setup, q, frame);
    SortKeepsGood(q.order, Upcoming(q, frame), frame + 1);
    CurrentKeepsGood(q.order, q.players, Sorted(q.order, Upcoming(q, frame)), frame + 1);
  }

  /** A drained queue has nothing scheduled and its counters as they were. */
  ghost predicate IsDrained<A>(q: Queue<A>, t: Queue<A>) {
    && t.order == q.order && t.window == q.window && t.scheduled == map[] && t.players.Keys == q.players.Keys
    && (forall id | id in q.players :: t.players[id].epoch == q.players[id].epoch && t.players[id].next == q.players[id].next)
  }

  lemma DrainLeavesNothing<P, A>(setup: Setup<P, A>, q: Queue<A>, frame: nat)
    requires QueueReady(setup, q, frame)
    ensures IsDrained(q, Drained(q, frame + 1).0)
  {
    BatchIsUpcoming(setup, q, frame);
    SettledKeepsCounters(q.players, Batches(q.order, q.scheduled, frame + 2), q.window.historySize);
  }

  lemma DrainedIsReady<P, A>(setup: Setup<P, A>, q: Queue<A>, t: Queue<A>, frame: nat, later: nat)
    requires QueueReady(setup, q, frame) && IsDrained(q, t)
    ensures QueueReady(setup, t, later)
    ensures forall id | id in q.players :: Taken(t, later, id) == q.players[id].next
  {
    assert Upcoming(t, later) == [];
    assert forall id :: Of(Upcoming(t, later), id) == [];
  }

  // ---------------------------------------------------------------- actions and groups

  lemma {:induction false} ActionsAreFlat<A>(xs: seq<Input<A>>, id: PlayerId)
    ensures Actions(xs, id) == Flat(Of(xs, id))
    decreases |xs|
  {
    if xs != [] {
      var m := |xs| - 1;
      ActionsAreFlat(xs[..m], id);
      if xs[m].playerId == id {
        assert Of(xs, id) == Of(xs[..m], id) + [xs[m]];
        assert Of(xs, id)[..|Of(xs, id)| - 1] == Of(xs[..m], id);
      } else {
        assert Of(xs, id) == Of(xs[..m], id);
        assert Actions(xs, id) == Actions(xs[..m], id);
      }
    }
  }

  lemma {:induction false} FlatAppend<A>(xs: seq<Input<A>>, ys: seq<Input<A>>)
    ensures Flat(xs + ys) == Flat(xs) + Flat(ys)
    decreases |ys|
  {
    if ys == [] {
      assert xs + ys == xs;
    } else {
      var n := |ys| - 1;
      FlatAppend(xs, ys[..n]);
      assert (xs + ys)[..|xs + ys| - 1] == xs + ys[..n];
    }
  }

  /** The recorded actions of a group, cut at its source counts, are the actions of its inputs. */
  lemma SlicesAreInputs<A>(xs: seq<Input<A>>, k: nat)
    requires k < |xs|
    ensures Slice(Flat(xs), |Flat(xs[..k])|, |xs[k].actions|) == xs[k].actions
    ensures |Flat(xs[..k + 1])| == |Flat(xs[..k])| + |xs[k].actions|
  {
    assert xs[..k + 1][..k] == xs[..k];
    assert xs[..k + 1] + xs[k + 1..] == xs;
    FlatAppend(xs[..k + 1], xs[k + 1..]);
    assert Flat(xs[..k + 1]) == Flat(xs[..k]) + xs[k].actions;
  }

  /** An input as reconstruction submits it, at the frame before the one it applies to. */
  function Retimed<A>(x: Input<A>, frame: nat): Input<A> { x.(clientFrame := frame, serverFrame := frame + 1) }

  function RetimedAll<A>(xs: seq<Input<A>>, frame: nat): seq<Input<A>> {
    seq(|xs|, i requires 0 <= i < |xs| => Retimed(xs[i], frame))
  }

  lemma {:induction false} RetimedIsFlat<A>(xs: seq<Input<A>>, frame: nat)
    ensures Flat(RetimedAll(xs, frame)) == Flat(xs)
    decreases |xs|
  {
    if xs != [] {
      RetimedIsFlat(xs[..|xs| - 1], frame);
      assert RetimedAll(xs, frame)[..|xs| - 1] == RetimedAll(xs[..|xs| - 1], frame);
    }
  }

  // ---------------------------------------------------------------- two coordinators in step

  /** The same players, garbage counters and events at the same frame. */
  ghost predicate Same<P, A>(m: Match<P, A>, c: Match<P, A>) {
    && c.frame == m.frame && c.first == m.first && c.second == m.second
    && c.eventSequence == m.eventSequence && c.holeCursor == m.holeCursor && c.events == m.events
  }

  ghost predicate SameStep<P, A>(a: Option<Match<P, A>>, b: Option<Match<P, A>>) {
    (a.None? && b.None?) || (a.Some? && b.Some? && Same(a.value, b.value))
  }

  lemma {:induction false} PacketsAgree<P, A>(
    setup: Setup<P, A>, m: Match<P, A>, c: Match<P, A>, source: Seat, packets: seq<nat>)
    requires Same(m, c)
    ensures SameStep(QueuePackets(setup, m, source, packets), QueuePackets(ReplaySetup(setup), c, source, packets))
    decreases |packets|
  {
    if packets != [] && Deliver(setup, m, source, packets[0]).Some? {
      PacketsAgree(setup, Deliver(setup, m, source, packets[0]).value,
                   Deliver(ReplaySetup(setup), c, source, packets[0]).value, source, packets[1..]);
    }
  }

  ghost predicate SamePlay<P, A>(a: Option<(Match<P, A>, bool, bool)>, b: Option<(Match<P, A>, bool, bool)>) {
    || (a.None? && b.None?)
    || (a.Some? && b.Some? && Same(a.value.0, b.value.0) && a.value.1 == b.value.1 && a.value.2 == b.value.2)
  }

  lemma PlaysAgree<P, A>(setup: Setup<P, A>, m: Match<P, A>, c: Match<P, A>, a: seq<A>, b: seq<A>)
    requires Same(m, c)
    ensures SamePlay(Play(setup, m, a, b), Play(ReplaySetup(setup), c, a, b))
  {
    var x, y := setup.machine.advance(First, m.first, m.frame, a), setup.machine.advance(Second, m.second, m.frame, b);
    if x.Some? && y.Some? {
      var net := Net(x.value.outgoing, y.value.outgoing);
      var moved, moved' := m.(first := x.value.player, second := y.value.player),
                           c.(first := x.value.player, second := y.value.player);
      PacketsAgree(setup, moved, moved', First, net.0);
      if QueuePackets(setup, moved, First, net.0).Some? {
        PacketsAgree(setup, QueuePackets(setup, moved, First, net.0).value,
                     QueuePackets(ReplaySetup(setup), moved', First, net.0).value, Second, net.1);
      }
    }
  }

  /** The reconstruction has been handed exactly the inputs the original has been handed, and holds no other. */
  ghost predicate Mirrors<P, A>(setup: Setup<P, A>, q: Queue<A>, t: Queue<A>, frame: nat) {
    && QueueReady(setup, t, frame) && t.scheduled == map[]
    && MirrorsPlayer(q, t, frame, setup.participants[0]) && MirrorsPlayer(q, t, frame, setup.participants[1])
  }

  predicate MirrorsPlayer<A>(q: Queue<A>, t: Queue<A>, frame: nat, id: PlayerId) {
    && id in q.players && id in t.players
    && t.players[id].epoch == q.players[id].epoch && t.players[id].next == Taken(q, frame, id)
  }

  /** Both matches stand at the same point, finished alike or both unfinished. */
  ghost predicate Level<P, A>(setup: Setup<P, A>, m: Match<P, A>, c: Match<P, A>) {
    && Same(m, c) && c.ending == m.ending
    && (m.ending.None? ==> QueueReady(setup, m.queue, m.frame) && Mirrors(setup, m.queue, c.queue, m.frame))
  }

  ghost predicate LevelStep<P, A>(
    setup: Setup<P, A>, a: Result<Match<P, A>, Match<P, A>>, b: Result<Match<P, A>, Match<P, A>>) {
    (a.Err? && b.Err?) || (a.Ok? && b.Ok? && Level(setup, a.value, b.value))
  }

  /** Two ready queues holding the same actions for each player. */
  ghost predicate SameUpcoming<P, A>(setup: Setup<P, A>, q: Queue<A>, t: Queue<A>, frame: nat) {
    && QueueReady(setup, q, frame) && QueueReady(setup, t, frame)
    && SamePlayer(q, t, frame, setup.participants[0]) && SamePlayer(q, t, frame, setup.participants[1])
  }

  ghost predicate SamePlayer<A>(q: Queue<A>, t: Queue<A>, frame: nat, id: PlayerId) {
    && id in q.players && id in t.players
    && Flat(Of(Upcoming(q, frame), id)) == Flat(Of(Upcoming(t, frame), id))
    && q.players[id].epoch == t.players[id].epoch && q.players[id].next == t.players[id].next
  }

  lemma DueAreFlat<P, A>(m: Match<P, A>, id: PlayerId, mine: seq<Input<A>>)
    requires Of(Drained(m.queue, m.frame + 1).1, id) == mine
    ensures Actions(DueInputs(m), id) == Flat(mine)
  {
    ActionsAreFlat(DueInputs(m), id);
  }

  lemma DueActions<P, A>(setup: Setup<P, A>, m: Match<P, A>, id: PlayerId)
    requires QueueReady(setup, m.queue, m.frame) && Plays(setup.participants, id)
    ensures Actions(DueInputs(m), id) == Flat(Of(Upcoming(m.queue, m.frame), id))
  {
    DrainGivesUpcoming(setup, m.queue, m.frame, id);
    DueAreFlat(m, id, Of(Upcoming(m.queue, m.frame), id));
  }

  lemma DrainedQueuesMirror<P, A>(setup: Setup<P, A>, q: Queue<A>, t: Queue<A>, frame: nat)
    requires SameUpcoming(setup, q, t, frame)
    ensures QueueReady(setup, Drained(q, frame + 1).0, frame + 1)
    ensures Mirrors(setup, Drained(q, frame + 1).0, Drained(t, frame + 1).0, frame + 1)
  {
    DrainLeavesNothing(setup, q, frame);
    DrainLeavesNothing(setup, t, frame);
    DrainedIsReady(setup, q, Drained(q, frame + 1).0, frame, frame + 1);
    DrainedIsReady(setup, t, Drained(t, frame + 1).0, frame, frame + 1);
  }

  lemma ConclusionsAgree<P, A>(setup: Setup<P, A>, m: Match<P, A>, c: Match<P, A>, firstOut: bool, secondOut: bool)
    requires Level(setup, m, c) && m.ending.None?
    ensures Level(setup, Conclude(setup, m, firstOut, secondOut), Conclude(ReplaySetup(setup), c, firstOut, secondOut))
  {
    var d, e := Conclude(setup, m, firstOut, secondOut), Conclude(ReplaySetup(setup), c, firstOut, secondOut);
    assert Same(d, e) && d.ending == e.ending;
    assert d.queue == m.queue && e.queue == c.queue && d.frame == m.frame;
  }

  lemma MovesAgree<P, A>(setup: Setup<P, A>, m: Match<P, A>, c: Match<P, A>, a: seq<A>, b: seq<A>)
    requires Same(m, c) && m.ending.None? && c.ending.None? && SameUpcoming(setup, m.queue, c.queue, m.frame)
    ensures SamePlay(Play(setup, Begin(m), a, b), Play(ReplaySetup(setup), Begin(c), a, b))
    ensures var r, r' := Play(setup, Begin(m), a, b), Play(ReplaySetup(setup), Begin(c), a, b);
            r.Some? ==> Level(setup, r.value.0, r'.value.0) && r.value.0.ending.None?
  {
    PlaysAgree(setup, Begin(m), Begin(c), a, b);
    PlayLeavesTheRest(setup, Begin(m), a, b);
    PlayLeavesTheRest(ReplaySetup(setup), Begin(c), a, b);
    DrainedQueuesMirror(setup, m.queue, c.queue, m.frame);
  }

  /** One frame from level positions with the same upcoming actions ends level. */
  lemma FramesAgree<P, A>(setup: Setup<P, A>, m: Match<P, A>, c: Match<P, A>)
    requires Same(m, c) && m.ending.None? && c.ending.None? && SameUpcoming(setup, m.queue, c.queue, m.frame)
    ensures LevelStep(setup, AdvanceOneFrame(setup, m), AdvanceOneFrame(ReplaySetup(setup), c))
  {
    var p0, p1 := setup.participants[0], setup.participants[1];
    var a, b := Actions(DueInputs(m), p0), Actions(DueInputs(m), p1);
    assert a == Actions(DueInputs(c), p0) by {
      DueActions(setup, m, p0);
      DueActions(setup, c, p0);
    }
    assert b == Actions(DueInputs(c), p1) by {
      DueActions(setup, m, p1);
      DueActions(setup, c, p1);
    }
    MovesAgree(setup, m, c, a, b);
    var r, r' := Play(setup, Begin(m), a, b), Play(ReplaySetup(setup), Begin(c), a, b);
    if r.Some? {
      ConclusionsAgree(setup, r.value.0, r'.value.0, r.value.1, r.value.2);
    }
  }

  // ---------------------------------------------------------------- no false replay

  /**
   Whatever the log says and however it came about, a reconstruction that succeeds ends in a match with exactly the recorded
   ending: the frame, the winner, the reason and the hashes of both players' states.
   */
  lemma ReconstructionsEndAsRecorded<P, A>(
    setup: Setup<P, A>, first: P, second: P, entries: seq<Entry<A>>, end: Ending)
    requires TwoPlayers(setup.participants)
    ensures var r := Reconstruct(setup, first, second, entries, end);
            r.Ok? ==> r.value.ending == Some(end)
  {
    hide CaughtUp, ForceRecordedEnd;
  }
}

/**
 The match coordinator over any deterministic player machine: one frame drains the input queue, advances
 both players, nets the attacks they sent, queues what is left as garbage, and decides the match.
 */
module MatchCoordination {
  import opened Wrappers
  import opened InputQueues

  datatype Seat = First | Second

  function Opposite(seat: Seat): Seat { if seat.First? then Second else First }

  /** One packet of garbage on its way to the opponent, which is also the event that announces it. */
  datatype Delivery = Delivery(eventSequence: nat, source: Seat, amount: nat, appliesAtFrame: nat, hole: int)

  datatype Advanced<P> = Advanced(player: P, outgoing: seq<nat>, toppedOut: bool)

  /** A player simulation as deterministic steps; `None` is a step that raises an error. */
  datatype Machine<!P, !A> = Machine(
    advance: (Seat, P, nat, seq<A>) -> Option<Advanced<P>>,
    clearHeld: P -> P,
    queueGarbage: (Seat, P, Delivery) -> Option<P>,
    travelFrames: nat,
    holes: nat -> int,
    stateHash: (nat, P) -> int)

  datatype Setup<!P, !A> = Setup(
    machine: Machine<P, A>, participants: seq<PlayerId>, tickRate: nat, snapshotRate: nat)

  datatype Reason = Topout | Forfeit | DisconnectTimeout | SimultaneousTopout | Draw

  datatype Ending = Ending(frame: nat, winner: Option<Seat>, reason: Reason, firstHash: int, secondHash: int)

  datatype Match<P, A> = Match(
    frame: nat,
    first: P,
    second: P,
    queue: Queue<A>,
    eventSequence: nat,
    holeCursor: nat,
    events: seq<Delivery>,
    stateSequence: nat,
    accumulator: int,
    ending: Option<Ending>)

  const MAX_RETAINED_EVENTS: nat := 2048

  function NewMatch<P, A>(setup: Setup<P, A>, first: P, second: P): Match<P, A>
    requires TwoPlayers(setup.participants)
  {
    Match(0, first, second, NewQueue(setup.participants, Window(1, setup.tickRate * 2, setup.tickRate, 128)),
          0, 0, [], 0, 0, None)
  }

  function PlayerAt<P, A>(m: Match<P, A>, seat: Seat): P { if seat.First? then m.first else m.second }

  function WithPlayer<P, A>(m: Match<P, A>, seat: Seat, p: P): Match<P, A> {
    if seat.First? then m.(first := p) else m.(second := p)
  }

  function IdAt<P, A>(setup: Setup<P, A>, seat: Seat): PlayerId
    requires TwoPlayers(setup.participants)
  {
    if seat.First? then setup.participants[0] else setup.participants[1]
  }

  function SeatOf<P, A>(setup: Setup<P, A>, id: PlayerId): Option<Seat>
    requires TwoPlayers(setup.participants)
  {
    if id == setup.participants[0] then Some(First) else if id == setup.participants[1] then Some(Second) else None
  }

  // ---------------------------------------------------------------- netting

  function Least(a: nat, b: nat): nat { if a <= b then a else b }

  function Less(packets: seq<nat>, amount: nat): seq<nat>
    requires packets != [] && amount <= packets[0]
  {
    if packets[0] == amount then packets[1..] else [packets[0] - amount] + packets[1..]
  }

  /** Attacks sent in the same frame cancel packet against packet. */
  function Net(left: seq<nat>, right: seq<nat>): (seq<nat>, seq<nat>)
    decreases |left| + |right|
  {
    if left == [] || right == [] then (left, right)
    else
      var amount := Least(left[0], right[0]);
      Net(Less(left, amount), Less(right, amount))
  }

  method NetPacketLists(first: seq<nat>, second: seq<nat>) returns (left: seq<nat>, right: seq<nat>)
    ensures (left, right) == Net(first, second)
  {
    left, right := first, second;
    while |left| > 0 && |right| > 0
      invariant Net(left, right) == Net(first, second)
      decreases |left| + |right|
    {
      ghost var l, r := left, right;
      var amount := Least(left[0], right[0]);
      left, right := left[0 := left[0] - amount], right[0 := right[0] - amount];
      if left[0] == 0 {
        left := left[1..];
      }
      if right[0] == 0 {
        right := right[1..];
      }
      assert left == Less(l, amount) && right == Less(r, amount);
    }
  }

  function Total(packets: seq<nat>): nat { if packets == [] then 0 else packets[0] + Total(packets[1..]) }

  predicate Positive(packets: seq<nat>) { forall i | 0 <= i < |packets| :: packets[i] >= 1 }

  /** Netting removes the same amount from both sides, leaves one side empty, and sends nothing empty. */
  lemma {:induction false} NettingIsFair(left: seq<nat>, right: seq<nat>)
    ensures var (l, r) := Net(left, right);
            && (l == [] || r == [])
            && Total(left) - Total(l) == Total(right) - Total(r) == Least(Total(left), Total(right))
            && (Positive(left) ==> Positive(l)) && (Positive(right) ==> Positive(r))
    decreases |left| + |right|
  {
    if left != [] && right != [] {
      var amount := Least(left[0], right[0]);
      NettingIsFair(Less(left, amount), Less(right, amount));
      LessTakesAmount(left, amount);
      LessTakesAmount(right, amount);
    }
  }

  lemma LessTakesAmount(packets: seq<nat>, amount: nat)
    requires packets != [] && amount <= packets[0]
    ensures Total(Less(packets, amount)) == Total(packets) - amount
    ensures Positive(packets) ==> Positive(Less(packets, amount))
  {
    if packets[0] != amount {
      assert Less(packets, amount)[1..] == packets[1..];
    }
  }

  // ---------------------------------------------------------------- garbage

  function Retained(events: seq<Delivery>): seq<Delivery> {
    if |events| > MAX_RETAINED_EVENTS then events[1..] else events
  }

  function NextDelivery<P, A>(setup: Setup<P, A>, m: Match<P, A>, source: Seat, amount: nat): Delivery {
    Delivery(m.eventSequence + 1, source, amount, m.frame + setup.machine.travelFrames, setup.machine.holes(m.holeCursor))
  }

  function Deliver<P, A>(setup: Setup<P, A>, m: Match<P, A>, source: Seat, amount: nat): Option<Match<P, A>> {
    var target := Opposite(source);
    var d := NextDelivery(setup, m, source, amount);
    match setup.machine.queueGarbage(target, PlayerAt(m, target), d)
    case None => None
    case Some(p) =>
      Some(WithPlayer(m, target, p).(
             eventSequence := m.eventSequence + 1, holeCursor := m.holeCursor + 1, events := Retained(m.events + [d])))
  }

  function QueuePackets<P, A>(setup: Setup<P, A>, m: Match<P, A>, source: Seat, packets: seq<nat>): Option<Match<P, A>>
    decreases |packets|
  {
    if packets == [] then Some(m)
    else match Deliver(setup, m, source, packets[0])
      case None => None
      case Some(t) => QueuePackets(setup, t, source, packets[1..])
  }

  // ---------------------------------------------------------------- frames

  function Finish<P, A>(setup: Setup<P, A>, m: Match<P, A>, winner: Option<Seat>, reason: Reason): Match<P, A> {
    if m.ending.Some? then m
    else m.(ending := Some(Ending(m.frame, winner, reason, setup.machine.stateHash(m.frame, m.first),
                                  setup.machine.stateHash(m.frame, m.second))))
  }

  function ForceFinish<P, A>(setup: Setup<P, A>, m: Match<P, A>, loser: Seat, reason: Reason): Match<P, A> {
    Finish(setup, m, Some(Opposite(loser)), reason)
  }

  function ForceDraw<P, A>(setup: Setup<P, A>, m: Match<P, A>): Match<P, A> { Finish(setup, m, None, Draw) }

  /** One player's actions of a frame, in the order they were drained. */
  function Actions<A>(inputs: seq<Input<A>>, id: PlayerId): seq<A> {
    if inputs == [] then []
    else if inputs[|inputs| - 1].playerId == id then
      Actions(inputs[..|inputs| - 1], id) + inputs[|inputs| - 1].actions
    else Actions(inputs[..|inputs| - 1], id)
  }

  /** The next frame with its inputs taken off the queue, before anybody moves. */
  function Begin<P, A>(m: Match<P, A>): Match<P, A> {
    m.(frame := m.frame + 1, queue := Drained(m.queue, m.frame + 1).0)
  }

  function DueInputs<P, A>(m: Match<P, A>): seq<Input<A>> { Drained(m.queue, m.frame + 1).1 }

  /** Both players advance, and what they send is netted and queued. */
  function Play<P, A>(setup: Setup<P, A>, m: Match<P, A>, a: seq<A>, b: seq<A>): Option<(Match<P, A>, bool, bool)> {
    match setup.machine.advance(First, m.first, m.frame, a)
    case None => None
    case Some(first) =>
      match setup.machine.advance(Second, m.second, m.frame, b)
      case None => None
      case Some(second) =>
        var net := Net(first.outgoing, second.outgoing);
        match QueuePackets(setup, m.(first := first.player, second := second.player), First, net.0)
        case None => None
        case Some(t) =>
          match QueuePackets(setup, t, Second, net.1)
          case None => None
          case Some(u) => Some((u, first.toppedOut, second.toppedOut))
  }

  /** Ends a match a player topped out of; otherwise a snapshot falls due at the snapshot rate. */
  function Conclude<P, A>(setup: Setup<P, A>, m: Match<P, A>, firstOut: bool, secondOut: bool): Match<P, A> {
    if firstOut && secondOut then Finish(setup, m, None, SimultaneousTopout)
    else if firstOut then Finish(setup, m, Some(Second), Topout)
    else if secondOut then Finish(setup, m, Some(First), Topout)
    else
      var total := m.accumulator + setup.snapshotRate;
      if total >= setup.tickRate then m.(accumulator := total - setup.tickRate, stateSequence := m.stateSequence + 1)
      else m.(accumulator := total)
  }

  /** `Err` holds the match a step left behind when it raised an error. */
  function AdvanceOneFrame<P, A>(setup: Setup<P, A>, m: Match<P, A>): Result<Match<P, A>, Match<P, A>>
    requires TwoPlayers(setup.participants)
  {
    if m.ending.Some? then Ok(m)
    else
      var inputs := DueInputs(m);
      match Play(setup, Begin(m), Actions(inputs, setup.participants[0]), Actions(inputs, setup.participants[1]))
      case None => Err(Begin(m))
      case Some((t, firstOut, secondOut)) => Ok(Conclude(setup, t, firstOut, secondOut))
  }

  function EnqueueInput<P, A>(m: Match<P, A>, input: Envelope<A>): (Match<P, A>, Disposition) {
    var r := Enqueued(m.queue, input, m.frame);
    (m.(queue := r.0), r.1)
  }

  function ClearHeldInput<P, A>(setup: Setup<P, A>, m: Match<P, A>, seat: Seat): Match<P, A> {
    WithPlayer(m, seat, setup.machine.clearHeld(PlayerAt(m, seat)))
  }

  function ResetInput<P, A>(setup: Setup<P, A>, m: Match<P, A>, seat: Seat): Match<P, A>
    requires TwoPlayers(setup.participants) && IdAt(setup, seat) in m.queue.players
  {
    ClearHeldInput(setup, m, seat).(queue := Reset(m.queue, IdAt(setup, seat)))
  }
}

/** The coordinator as the object it is, with its counters, players and queue changed in place. */
module MatchCoordinators {
  import opened Wrappers
  import opened InputQueues
  import opened InputQueueLaws
  import opened MatchInputQueues
  import opened MatchCoordination

  class MatchCoordinator<P, A> {
    const setup: Setup<P, A>
    const inputQueue: MatchInputQueue<A>
    var serverFrame: nat
    var first: P
    var second: P
    var eventSequence: nat
    var holeCursor: nat
    var events: seq<Delivery>
    var stateSequence: nat
    var snapshotAccumulator: int
    var ending: Option<Ending>

    function View(): Match<P, A>
      reads this, inputQueue
    {
      Match(serverFrame, first, second, inputQueue.View(), eventSequence, holeCursor, events, stateSequence,
            snapshotAccumulator, ending)
    }

    constructor (setup: Setup<P, A>, first: P, second: P)
      requires TwoPlayers(setup.participants)
      ensures this.setup == setup && fresh(inputQueue)
      ensures View() == NewMatch(setup, first, second)
    {
      this.setup, this.first, this.second := setup, first, second;
      inputQueue := new MatchInputQueue<A>(setup.participants, Window(1, setup.tickRate * 2, setup.tickRate, 128));
      serverFrame, eventSequence, holeCursor, events := 0, 0, 0, [];
      stateSequence, snapshotAccumulator, ending := 0, 0, None;
    }

    method EnqueueInput(input: Envelope<A>) returns (d: Disposition)
      modifies inputQueue
      ensures (View(), d) == MatchCoordination.EnqueueInput(old(View()), input)
    {
      d := inputQueue.Enqueue(input, serverFrame);
    }

    method SetPlayer(seat: Seat, p: P)
      modifies this
      ensures View() == WithPlayer(old(View()), seat, p)
    {
      if seat.First? {
        first := p;
      } else {
        second := p;
      }
    }

    method ClearHeldInput(seat: Seat)
      modifies this
      ensures View() == MatchCoordination.ClearHeldInput(setup, old(View()), seat)
    {
      SetPlayer(seat, setup.machine.clearHeld(if seat.First? then first else second));
    }

    method ResetInput(seat: Seat) returns (epoch: nat)
      requires TwoPlayers(setup.participants) && IdAt(setup, seat) in inputQueue.players
      modifies this, inputQueue
      ensures View() == MatchCoordination.ResetInput(setup, old(View()), seat)
      ensures epoch == View().queue.players[IdAt(setup, seat)].epoch
    {
      ClearHeldInput(seat);
      epoch := inputQueue.ResetPlayer(IdAt(setup, seat));
    }

    method Announce(d: Delivery)
      modifies this
      ensures View() == old(View()).(eventSequence := old(eventSequence) + 1, holeCursor := old(holeCursor) + 1,
                                     events := Retained(old(events) + [d]))
    {
      eventSequence, holeCursor := eventSequence + 1, holeCursor + 1;
      events := events + [d];
      if |events| > MAX_RETAINED_EVENTS {
        events := events[1..];
      }
    }

    method QueueOne(source: Seat, amount: nat) returns (ok: bool)
      modifies this
      ensures ok <==> Deliver(setup, old(View()), source, amount).Some?
      ensures ok ==> View() == Deliver(setup, old(View()), source, amount).value
      ensures inputQueue.View() == old(inputQueue.View())
    {
      var target := Opposite(source);
      var d := Delivery(eventSequence + 1, source, amount, serverFrame + setup.machine.travelFrames,
                        setup.machine.holes(holeCursor));
      var queued := setup.machine.queueGarbage(target, if target.First? then first else second, d);
      if queued.None? {
        return false;
      }
      SetPlayer(target, queued.value);
      Announce(d);
      return true;
    }

    /** Queues each packet at the opponent and announces it. */
    method QueueAll(source: Seat, packets: seq<nat>) returns (ok: bool)
      modifies this
      ensures ok <==> QueuePackets(setup, old(View()), source, packets).Some?
      ensures ok ==> View() == QueuePackets(setup, old(View()), source, packets).value
      ensures inputQueue.View() == old(inputQueue.View())
    {
      hide Deliver;
      for k := 0 to |packets|
        invariant inputQueue.View() == old(inputQueue.View())
        invariant QueuePackets(setup, View(), source, packets[k..]) == QueuePackets(setup, old(View()), source, packets)
      {
        assert packets[k..][0] == packets[k] && packets[k..][1..] == packets[k + 1..];
        var queued := QueueOne(source, packets[k]);
        if !queued {
          return false;
        }
      }
      return true;
    }

    method EndMatch(winner: Option<Seat>, reason: Reason)
      modifies this
      ensures View() == Finish(setup, old(View()), winner, reason)
    {
      if ending.None? {
        ending := Some(Ending(serverFrame, winner, reason, setup.machine.stateHash(serverFrame, first),
                              setup.machine.stateHash(serverFrame, second)));
      }
    }

    method ForceFinish(loser: Seat, reason: Reason) returns (done: bool)
      modifies this
      ensures View() == MatchCoordination.ForceFinish(setup, old(View()), loser, reason)
      ensures done <==> old(ending).None?
    {
      done := ending.None?;
      EndMatch(Some(Opposite(loser)), reason);
    }

    method ForceDraw() returns (done: bool)
      modifies this
      ensures View() == MatchCoordination.ForceDraw(setup, old(View()))
      ensures done <==> old(ending).None?
    {
      done := ending.None?;
      EndMatch(None, Draw);
    }

    /** Ends the match or lets a snapshot fall due. */
    method Decide(firstOut: bool, secondOut: bool)
      modifies this
      ensures View() == Conclude(setup, old(View()), firstOut, secondOut)
    {
      if firstOut || secondOut {
        if firstOut && secondOut {
          EndMatch(None, SimultaneousTopout);
        } else {
          EndMatch(Some(if firstOut then Second else First), Topout);
        }
        return;
      }
      snapshotAccumulator := snapshotAccumulator + setup.snapshotRate;
      if snapshotAccumulator >= setup.tickRate {
        snapshotAccumulator := snapshotAccumulator - setup.tickRate;
        stateSequence := stateSequence + 1;
      }
    }

    /** Both players take their actions and exchange garbage. */
    method Exchange(a: seq<A>, b: seq<A>) returns (r: Option<(bool, bool)>)
      modifies this
      ensures inputQueue.View() == old(inputQueue.View())
      ensures r.Some? <==> Play(setup, old(View()), a, b).Some?
      ensures r.Some? ==> (View(), r.value.0, r.value.1) == Play(setup, old(View()), a, b).value
    {
      var x := setup.machine.advance(First, first, serverFrame, a);
      if x.None? {
        return None;
      }
      var y := setup.machine.advance(Second, second, serverFrame, b);
      if y.None? {
        return None;
      }
      var left, right := NetPacketLists(x.value.outgoing, y.value.outgoing);
      SetPlayer(First, x.value.player);
      SetPlayer(Second, y.value.player);
      var ok := QueueAll(First, left);
      if !ok {
        return None;
      }
      ok := QueueAll(Second, right);
      if !ok {
        return None;
      }
      return Some((x.value.toppedOut, y.value.toppedOut));
    }

    /** Collects one player's actions from the drained inputs, input by input. */
    method CollectActions(drained: seq<Input<A>>, id: PlayerId) returns (actions: seq<A>)
      ensures actions == Actions(drained, id)
    {
      actions := [];
      for k := 0 to |drained|
        invariant actions == Actions(drained[..k], id)
      {
        assert drained[..k + 1][..k] == drained[..k];
        if drained[k].playerId == id {
          actions := actions + drained[k].actions;
        }
      }
      assert drained[..|drained|] == drained;
    }

    /** One frame; `threw` reports a raised error, and `drained` is what the frame took off the queue. */
    method AdvanceOneFrame() returns (threw: bool, drained: seq<Input<A>>)
      requires TwoPlayers(setup.participants)
      modifies this, inputQueue
      ensures old(ending).None? ==> drained == DueInputs(old(View()))
      ensures threw <==> MatchCoordination.AdvanceOneFrame(setup, old(View())).Err?
      ensures !threw ==> View() == MatchCoordination.AdvanceOneFrame(setup, old(View())).value
    {
      if ending.Some? {
        return false, [];
      }
      ghost var before := View();
      serverFrame := serverFrame + 1;
      drained := inputQueue.Drain(serverFrame);
      assert View() == Begin(before) && drained == DueInputs(before);
      var a := CollectActions(drained, setup.participants[0]);
      var b := CollectActions(drained, setup.participants[1]);
      var out := Exchange(a, b);
      if out.None? {
        return true, drained;
      }
      Decide(out.value.0, out.value.1);
      threw := false;
    }
  }
}

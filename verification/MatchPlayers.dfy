/**
 Each player of a match runs its own simulation: the match hands it frames of its own actions and the garbage the
 opponent's attacks leave after netting, and nothing else. So whatever holds of a single player's runs holds in matches.
 */
module MatchPlayers {
  import opened Wrappers
  import opened Boards
  import opened Garbage
  import opened GarbageRows
  import opened Simulation
  import opened SimulationLaws
  import opened SimulationLedger
  import opened SimulationFlow
  import opened InputQueues
  import opened MatchCoordination
  import opened MatchReplay
  import opened MatchLedger
  import opened MatchEvents

  // ---------------------------------------------------------------- netting, packet by packet

  lemma {:induction false} UnspentNothing(packets: seq<nat>)
    requires Positive(packets)
    ensures Unspent(packets, 0) == packets
    decreases |packets|
  {
    if packets != [] {
      UnspentNothing(packets[1..]);
    }
  }

  lemma UnspentLess(packets: seq<nat>, amount: nat, spent: nat)
    requires packets != [] && amount <= packets[0] && amount <= spent
    ensures Unspent(Less(packets, amount), spent - amount) == Unspent(packets, spent)
  {
    if packets[0] != amount {
      assert Less(packets, amount)[1..] == packets[1..];
    }
  }

  /** Netting: each side keeps what its packets have left when the other side's total is taken off their front. */
  lemma {:induction false} NettingSpendsTheFront(left: seq<nat>, right: seq<nat>)
    requires Positive(left) && Positive(right)
    ensures Net(left, right).0 == Unspent(left, Total(right)) && Net(left, right).1 == Unspent(right, Total(left))
    decreases |left| + |right|
  {
    if left == [] || right == [] {
      UnspentNothing(left);
      UnspentNothing(right);
    } else {
      var amount := Least(left[0], right[0]);
      LessTakesAmount(left, amount);
      LessTakesAmount(right, amount);
      NettingSpendsTheFront(Less(left, amount), Less(right, amount));
      UnspentLess(left, amount, Total(right));
      UnspentLess(right, amount, Total(left));
    }
  }

  // ---------------------------------------------------------------- what a player is handed

  /** The match's `n`-th packet: the next hole of the stream, due when it has travelled. */
  function Parcel(d: Duel, n: nat, source: Seat, amount: int, frame: nat): Packet
    requires n >= 1
  {
    Packet(d.labels(n), if source.First? then d.firstName else d.secondName, amount, frame + d.travelFrames, d.holes(n - 1))
  }

  function Parcels(d: Duel, n: nat, source: Seat, amounts: seq<int>, frame: nat): seq<Op>
    requires n >= 1
  {
    seq(|amounts|, k requires 0 <= k < |amounts| => Incoming(Parcel(d, n + k, source, amounts[k], frame)))
  }

  /** What a player's locks send in the next frame. */
  function SentBy(d: Duel, setup: Setup<Book, Action>, m: Match<Book, Action>, seat: Seat): seq<nat>
    requires TwoPlayers(setup.participants)
  {
    if !RulesOk(EnvAt(d, seat).rules) then []
    else match AdvanceFrame(EnvAt(d, seat), PlayerAt(m, seat).sim, m.frame + 1, Actions(DueInputs(m), IdAt(setup, seat)))
      case Err(_) => []
      case Ok(r) => Outgoing(r.sim.frameLocks)
  }

  /** What arrives at a player in the next frame: the opponent's attacks less its own. The first player's are numbered first. */
  function Arrivals(d: Duel, setup: Setup<Book, Action>, m: Match<Book, Action>, seat: Seat): seq<Op>
    requires TwoPlayers(setup.participants)
  {
    var first, second := SentBy(d, setup, m, First), SentBy(d, setup, m, Second);
    var fromFirst := Unspent(first, Total(second));
    if seat.Second? then Parcels(d, m.eventSequence + 1, First, fromFirst, m.frame + 1)
    else Parcels(d, m.eventSequence + 1 + |fromFirst|, Second, Unspent(second, Total(first)), m.frame + 1)
  }

  /** One player's part in a match, as operations on its own simulation. */
  function PlayerOps(
    d: Duel, setup: Setup<Book, Action>, firstBoard: FieldBoard, secondBoard: FieldBoard, ops: seq<MatchOp<Action>>, seat: Seat)
    : seq<Op>
    requires TwoPlayers(setup.participants)
    decreases |ops|
  {
    if ops == [] then []
    else
      var before, op := ops[..|ops| - 1], ops[|ops| - 1];
      var past, m := PlayerOps(d, setup, firstBoard, secondBoard, before, seat), RunDuel(d, setup, firstBoard, secondBoard, before).m;
      past + PlayerPart(d, setup, m, op, seat)
  }

  function PlayerPart(d: Duel, setup: Setup<Book, Action>, m: Match<Book, Action>, op: MatchOp<Action>, seat: Seat): seq<Op>
    requires TwoPlayers(setup.participants)
  {
    if m.ending.Some? then []
    else match op
      case Release(id) => if id == IdAt(setup, seat) then [SimulationLedger.Release] else []
      case RestartInput(id) => if id == IdAt(setup, seat) && id in m.queue.players then [SimulationLedger.Release] else []
      case Advance =>
        if Crowded(setup, m) then []
        else [Frame(m.frame + 1, Actions(DueInputs(m), IdAt(setup, seat)))] + Arrivals(d, setup, m, seat)
      case SubmitInput(_) => []
      case Forfeited(_, _) => []
      case Abort => []
  }

  // ---------------------------------------------------------------- one frame

  /** A run, from anywhere. */
  function RunFrom(env: Env, b: Book, ops: seq<Op>): Book
    requires RulesOk(env.rules)
    decreases |ops|
  {
    if ops == [] then b
    else match Apply(env, b, ops[0])
      case Err(_) => RunFrom(env, b, ops[1..])
      case Ok(t) => RunFrom(env, t, ops[1..])
  }

  lemma {:induction false} RunContinues(env: Env, board: FieldBoard, ops: seq<Op>, more: seq<Op>)
    requires RulesOk(env.rules)
    ensures Run(env, board, ops + more) == RunFrom(env, Run(env, board, ops), more)
    decreases |more|
  {
    hide Apply;
    if more == [] {
      assert ops + more == ops;
    } else {
      var one := ops + [more[0]];
      assert one[..|ops|] == ops;
      assert ops + more == one + more[1..];
      RunContinues(env, board, one, more[1..]);
    }
  }

  lemma {:induction false} PacketsArrive(
    d: Duel, setup: Setup<Book, Action>, m: Match<Book, Action>, source: Seat, packets: seq<nat>)
    requires DuelOk(d) && setup.machine == BookMachine(d) && m.holeCursor == m.eventSequence
    requires QueuePackets(setup, m, source, packets).Some?
    ensures var t, target := QueuePackets(setup, m, source, packets).value, Opposite(source);
            && PlayerAt(t, target) == RunFrom(EnvAt(d, target), PlayerAt(m, target),
                                              Parcels(d, m.eventSequence + 1, source, packets, m.frame))
            && PlayerAt(t, source) == PlayerAt(m, source)
            && t.eventSequence == m.eventSequence + |packets| && t.holeCursor == t.eventSequence && t.frame == m.frame
    decreases |packets|
  {
    hide DuelOk, Retained, Deliver, Apply, Parcel;
    if packets != [] {
      var t := Deliver(setup, m, source, packets[0]).value;
      PacketArrives(d, setup, m, source, packets[0]);
      PacketsArrive(d, setup, t, source, packets[1..]);
      ParcelsFromTheFront(d, m.eventSequence + 1, source, packets, m.frame);
    }
  }

  lemma ParcelsFromTheFront(d: Duel, n: nat, source: Seat, amounts: seq<int>, frame: nat)
    requires n >= 1 && amounts != []
    ensures var all := Parcels(d, n, source, amounts, frame);
            && all != [] && all[0] == Incoming(Parcel(d, n, source, amounts[0], frame))
            && all[1..] == Parcels(d, n + 1, source, amounts[1..], frame)
  {
  }

  lemma PacketArrives(d: Duel, setup: Setup<Book, Action>, m: Match<Book, Action>, source: Seat, amount: nat)
    requires DuelOk(d) && setup.machine == BookMachine(d) && m.holeCursor == m.eventSequence
    requires Deliver(setup, m, source, amount).Some?
    ensures var t, target := Deliver(setup, m, source, amount).value, Opposite(source);
            && Apply(EnvAt(d, target), PlayerAt(m, target), Incoming(Parcel(d, m.eventSequence + 1, source, amount, m.frame)))
               == Ok(PlayerAt(t, target))
            && PlayerAt(t, source) == PlayerAt(m, source)
            && t.eventSequence == m.eventSequence + 1 && t.holeCursor == t.eventSequence && t.frame == m.frame
  {
    hide Retained;
  }

  /** What both sent, less what nets out, reaches the other side's queue: the first player's packets first. */
  lemma ExchangeArrives(d: Duel, setup: Setup<Book, Action>, m: Match<Book, Action>, x: seq<nat>, y: seq<nat>)
    requires DuelOk(d) && setup.machine == BookMachine(d) && m.holeCursor == m.eventSequence
    requires AllPositive(x) && AllPositive(y)
    requires QueuePackets(setup, m, First, Net(x, y).0).Some?
    requires QueuePackets(setup, QueuePackets(setup, m, First, Net(x, y).0).value, Second, Net(x, y).1).Some?
    ensures var u := QueuePackets(setup, QueuePackets(setup, m, First, Net(x, y).0).value, Second, Net(x, y).1).value;
            var toSecond, toFirst := Unspent(x, Total(y)), Unspent(y, Total(x));
            && u.second == RunFrom(d.second, m.second, Parcels(d, m.eventSequence + 1, First, toSecond, m.frame))
            && u.first == RunFrom(d.first, m.first, Parcels(d, m.eventSequence + 1 + |toSecond|, Second, toFirst, m.frame))
  {
    hide DuelOk, Net, Unspent, RunFrom, QueuePackets, Total, Parcels;
    NettingSpendsTheFront(x, y);
    PacketsArrive(d, setup, m, First, Net(x, y).0);
    PacketsArrive(d, setup, QueuePackets(setup, m, First, Net(x, y).0).value, Second, Net(x, y).1);
  }

  lemma FrameThenArrivals(d: Duel, setup: Setup<Book, Action>, m: Match<Book, Action>, seat: Seat, t: Book)
    requires EnvFits(EnvAt(d, seat)) && TwoPlayers(setup.participants) && m.ending.None? && !Crowded(setup, m)
    requires Apply(EnvAt(d, seat), PlayerAt(m, seat), Frame(m.frame + 1, Actions(DueInputs(m), IdAt(setup, seat)))) == Ok(t)
    ensures RunFrom(EnvAt(d, seat), PlayerAt(m, seat), PlayerPart(d, setup, m, Advance, seat))
         == RunFrom(EnvAt(d, seat), t, Arrivals(d, setup, m, seat))
  {
    hide Apply, Crowded, Arrivals, RollsOk, CapFits;
    var part := PlayerPart(d, setup, m, Advance, seat);
    assert part[1..] == Arrivals(d, setup, m, seat);
  }

  /** `t` is `m` with both players moved through a frame and what it sends them. */
  predicate MovesBoth(d: Duel, setup: Setup<Book, Action>, m: Match<Book, Action>, t: Match<Book, Action>)
    requires TwoPlayers(setup.participants) && RulesOk(d.first.rules) && RulesOk(d.second.rules)
  {
    && t.first == RunFrom(d.first, m.first, PlayerPart(d, setup, m, Advance, First))
    && t.second == RunFrom(d.second, m.second, PlayerPart(d, setup, m, Advance, Second))
  }

  /** What both players make of the frame, before the exchange. */
  lemma BothAreHanded(d: Duel, setup: Setup<Book, Action>, m: Match<Book, Action>)
    returns (x: Advanced<Book>, y: Advanced<Book>)
    requires DuelOk(d) && setup.machine == BookMachine(d) && TwoPlayers(setup.participants)
    requires m.ending.None? && Booked(d, m) && !Crowded(setup, m)
    ensures var due := DueInputs(m);
            && setup.machine.advance(First, m.first, m.frame + 1, Actions(due, setup.participants[0])) == Some(x)
            && setup.machine.advance(Second, m.second, m.frame + 1, Actions(due, setup.participants[1])) == Some(y)
    ensures AllPositive(x.outgoing) && x.outgoing == SentBy(d, setup, m, First)
    ensures AllPositive(y.outgoing) && y.outgoing == SentBy(d, setup, m, Second)
    ensures RunFrom(d.first, m.first, PlayerPart(d, setup, m, Advance, First))
         == RunFrom(d.first, x.player, Arrivals(d, setup, m, First))
    ensures RunFrom(d.second, m.second, PlayerPart(d, setup, m, Advance, Second))
         == RunFrom(d.second, y.player, Arrivals(d, setup, m, Second))
  {
    var due := DueInputs(m);
    PlayerIsHanded(d, setup, m, First);
    PlayerIsHanded(d, setup, m, Second);
    hide Booked, SentBy, PlayerPart, Arrivals, RunFrom, AdvanceBook, Apply, Crowded, EnvFits, AllPositive;
    x := AdvanceBook(d, First, m.first, m.frame + 1, Actions(due, setup.participants[0])).value;
    y := AdvanceBook(d, Second, m.second, m.frame + 1, Actions(due, setup.participants[1])).value;
    FrameThenArrivals(d, setup, m, First, x.player);
    FrameThenArrivals(d, setup, m, Second, y.player);
  }

  lemma PlayUnfolds<P, A>(setup: Setup<P, A>, m: Match<P, A>, a: seq<A>, b: seq<A>, x: Advanced<P>, y: Advanced<P>)
    requires setup.machine.advance(First, m.first, m.frame, a) == Some(x)
    requires setup.machine.advance(Second, m.second, m.frame, b) == Some(y)
    requires Play(setup, m, a, b).Some?
    ensures var moved, net := m.(first := x.player, second := y.player), Net(x.outgoing, y.outgoing);
            && QueuePackets(setup, moved, First, net.0).Some?
            && QueuePackets(setup, QueuePackets(setup, moved, First, net.0).value, Second, net.1)
               == Some(Play(setup, m, a, b).value.0)
  {
    hide QueuePackets, Net;
  }

  lemma PlayMovesBoth(d: Duel, setup: Setup<Book, Action>, m: Match<Book, Action>)
    requires DuelOk(d) && setup.machine == BookMachine(d) && TwoPlayers(setup.participants)
    requires m.ending.None? && Booked(d, m) && RetainsLatest(m) && !Crowded(setup, m)
    ensures var due := DueInputs(m);
            var r := Play(setup, Begin(m), Actions(due, setup.participants[0]), Actions(due, setup.participants[1]));
            r.Some? && MovesBoth(d, setup, m, r.value.0)
  {
    hide Booked, Play, SentBy, PlayerPart, RunFrom, Net, QueuePackets, Unspent, Total, Parcels, Numbered, Conclude, BookMachine;
    hide AllPositive, EnvFits;
    var due, begun := DueInputs(m), Begin(m);
    var a, b := Actions(due, setup.participants[0]), Actions(due, setup.participants[1]);
    FrameIsBooked(d, setup, m);
    assert Play(setup, begun, a, b).Some?;
    var x, y := BothAreHanded(d, setup, m);
    PlayUnfolds(setup, begun, a, b, x, y);
    ExchangeArrives(d, setup, begun.(first := x.player, second := y.player), x.outgoing, y.outgoing);
  }

  /** Both players take their frame, then what is sent to them. */
  lemma PlayIsTwoRuns(d: Duel, setup: Setup<Book, Action>, m: Match<Book, Action>)
    requires DuelOk(d) && setup.machine == BookMachine(d) && TwoPlayers(setup.participants)
    requires m.ending.None? && Booked(d, m) && RetainsLatest(m) && !Crowded(setup, m)
    ensures AdvanceOneFrame(setup, m).Ok? && MovesBoth(d, setup, m, AdvanceOneFrame(setup, m).value)
  {
    hide Booked, DuelOk, Play, RetainsLatest, Crowded, RunFrom, PlayerPart, BookMachine;
    FrameIsBooked(d, setup, m);
    PlayMovesBoth(d, setup, m);
  }

  lemma PlayerIsHanded(d: Duel, setup: Setup<Book, Action>, m: Match<Book, Action>, seat: Seat)
    requires DuelOk(d) && setup.machine == BookMachine(d) && TwoPlayers(setup.participants)
    requires m.ending.None? && Booked(d, m) && !Crowded(setup, m)
    ensures var actions := Actions(DueInputs(m), IdAt(setup, seat));
            var r := AdvanceBook(d, seat, PlayerAt(m, seat), m.frame + 1, actions);
            && r.Some? && AllPositive(r.value.outgoing) && r.value.outgoing == SentBy(d, setup, m, seat)
            && Apply(EnvAt(d, seat), PlayerAt(m, seat), Frame(m.frame + 1, actions)) == Ok(r.value.player)
  {
    hide AdvanceFrame, PlayerOk;
    var actions := Actions(DueInputs(m), IdAt(setup, seat));
    LaterBound(d, m);
    PlayerAdvances(d, seat, PlayerAt(m, seat), m.frame + 1, actions, m.frame + d.travelFrames);
    ReportsMatch(EnvAt(d, seat), PlayerAt(m, seat).sim, m.frame + 1, actions);
  }

  // ---------------------------------------------------------------- whole matches

  predicate PlayersRun(
    d: Duel, setup: Setup<Book, Action>, firstBoard: FieldBoard, secondBoard: FieldBoard, ops: seq<MatchOp<Action>>)
    requires TwoPlayers(setup.participants) && RulesOk(d.first.rules) && RulesOk(d.second.rules)
  {
    var m := RunDuel(d, setup, firstBoard, secondBoard, ops).m;
    && m.first == Run(d.first, firstBoard, PlayerOps(d, setup, firstBoard, secondBoard, ops, First))
    && m.second == Run(d.second, secondBoard, PlayerOps(d, setup, firstBoard, secondBoard, ops, Second))
  }

  lemma OpIsTwoRuns(d: Duel, setup: Setup<Book, Action>, r: Recording<Book, Action>, op: MatchOp<Action>, seat: Seat)
    requires DuelOk(d) && setup.machine == BookMachine(d) && TwoPlayers(setup.participants)
    requires r.m.ending.None? ==> Booked(d, r.m) && RetainsLatest(r.m)
    ensures PlayerAt(TakeOp(setup, r, op).m, seat)
         == RunFrom(EnvAt(d, seat), PlayerAt(r.m, seat), PlayerPart(d, setup, r.m, op, seat))
  {
    hide Booked, RetainsLatest, RollsOk, CapFits, Apply, RunFrom, PlayerPart, TakeOp, BookMachine, RulesOk;
    if r.m.ending.None? && op.Advance? {
      AdvanceIsTwoRuns(d, setup, r, seat);
    } else {
      OtherOpIsTwoRuns(d, setup, r, op, seat);
    }
  }

  lemma OtherOpIsTwoRuns(d: Duel, setup: Setup<Book, Action>, r: Recording<Book, Action>, op: MatchOp<Action>, seat: Seat)
    requires RulesOk(EnvAt(d, seat).rules) && setup.machine == BookMachine(d) && TwoPlayers(setup.participants)
    requires r.m.ending.Some? || !op.Advance?
    ensures PlayerAt(TakeOp(setup, r, op).m, seat)
         == RunFrom(EnvAt(d, seat), PlayerAt(r.m, seat), PlayerPart(d, setup, r.m, op, seat))
  {
    hide Reset, Enqueued, Arrivals, Crowded, StepMatch, Apply, RulesOk, AdvanceBook, QueueBook;
    ReleaseIsARun(EnvAt(d, seat), PlayerAt(r.m, seat));
    hide RunFrom;
  }

  lemma ReleaseIsARun(env: Env, b: Book)
    requires RulesOk(env.rules)
    ensures RunFrom(env, b, []) == b && RunFrom(env, b, [SimulationLedger.Release]) == ReleaseBook(b)
  {
  }

  lemma AdvanceIsTwoRuns(d: Duel, setup: Setup<Book, Action>, r: Recording<Book, Action>, seat: Seat)
    requires DuelOk(d) && setup.machine == BookMachine(d) && TwoPlayers(setup.participants)
    requires r.m.ending.None? && Booked(d, r.m) && RetainsLatest(r.m)
    ensures PlayerAt(TakeOp(setup, r, Advance).m, seat)
         == RunFrom(EnvAt(d, seat), PlayerAt(r.m, seat), PlayerPart(d, setup, r.m, Advance, seat))
  {
    FrameIsBooked(d, setup, r.m);
    hide Booked, RetainsLatest, AdvanceOneFrame, Arrivals, Crowded, Apply, BookMachine, RollsOk, CapFits;
    if Crowded(setup, r.m) {
      FailedFramesLeavePlayers(setup, r.m);
    } else {
      PlayIsTwoRuns(d, setup, r.m);
    }
  }

  lemma FailedFramesLeavePlayers<P, A>(setup: Setup<P, A>, m: Match<P, A>)
    requires TwoPlayers(setup.participants) && AdvanceOneFrame(setup, m).Err?
    ensures AdvanceOneFrame(setup, m).error == Begin(m)
  {
  }

  /**
   A match is two single-player runs: each player's simulation and books are those of the run that hands it its own drained
   actions frame by frame, then, in order and due after the travel time, whatever of the opponent's attacks its own attacks
   of that frame have not netted out, and the release of its keys whenever its input is cleared or reset.
   */
  lemma {:induction false} PlayersRunTheirSimulations(
    d: Duel, setup: Setup<Book, Action>, firstBoard: FieldBoard, secondBoard: FieldBoard, ops: seq<MatchOp<Action>>)
    requires MatchOk(d, setup, firstBoard, secondBoard)
    ensures PlayersRun(d, setup, firstBoard, secondBoard, ops)
    decreases |ops|
  {
    hide Booked, RetainsLatest, TakeOp, NewSim, PlayerPart, Apply, NoFullRow, Run, BookedSoFar;
    if ops == [] {
      FreshPlayers(d, setup, firstBoard, secondBoard);
    } else {
      var before, op := ops[..|ops| - 1], ops[|ops| - 1];
      PlayersRunTheirSimulations(d, setup, firstBoard, secondBoard, before);
      BookedBefore(d, setup, firstBoard, secondBoard, before);
      var r := RunDuel(d, setup, firstBoard, secondBoard, before);
      OpIsTwoRuns(d, setup, r, op, First);
      OpIsTwoRuns(d, setup, r, op, Second);
      RunContinues(d.first, firstBoard, PlayerOps(d, setup, firstBoard, secondBoard, before, First),
                   PlayerPart(d, setup, r.m, op, First));
      RunContinues(d.second, secondBoard, PlayerOps(d, setup, firstBoard, secondBoard, before, Second),
                   PlayerPart(d, setup, r.m, op, Second));
    }
  }

  lemma FreshPlayers(d: Duel, setup: Setup<Book, Action>, firstBoard: FieldBoard, secondBoard: FieldBoard)
    requires TwoPlayers(setup.participants) && RulesOk(d.first.rules) && RulesOk(d.second.rules)
    ensures PlayersRun(d, setup, firstBoard, secondBoard, [])
  {
  }

  lemma BookedBefore(
    d: Duel, setup: Setup<Book, Action>, firstBoard: FieldBoard, secondBoard: FieldBoard, ops: seq<MatchOp<Action>>)
    requires MatchOk(d, setup, firstBoard, secondBoard)
    ensures var m := RunDuel(d, setup, firstBoard, secondBoard, ops).m; m.ending.None? ==> Booked(d, m) && RetainsLatest(m)
  {
    RunsAreBooked(d, setup, firstBoard, secondBoard, ops);
    RunsRetainLatest(setup, Start(d.first, firstBoard), Start(d.second, secondBoard), ops);
  }
}

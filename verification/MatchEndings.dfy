/**
 How matches end. Who wins is read off the two simulations, or off the request that forced the end; and frames and
 snapshots are counted off the requests to advance.
 */
module MatchEndings {
  import opened Wrappers
  import opened Boards
  import opened Garbage
  import opened Simulation
  import opened SimulationLedger
  import opened InputQueues
  import opened MatchCoordination
  import opened MatchReplay
  import opened MatchLedger
  import Quotients

  predicate IsOut(m: Match<Book, Action>, seat: Seat) { PlayerAt(m, seat).sim.toppedOut }

  /** The verdict a match should have, given who is out of the game. */
  predicate FairVerdict(e: Ending, firstOut: bool, secondOut: bool) {
    match e.reason
    case Topout =>
      || (e.winner == Some(First) && secondOut && !firstOut)
      || (e.winner == Some(Second) && firstOut && !secondOut)
    case SimultaneousTopout => e.winner.None? && firstOut && secondOut
    case Draw => e.winner.None? && !firstOut && !secondOut
    case Forfeit => e.winner.Some? && !firstOut && !secondOut
    case DisconnectTimeout => e.winner.Some? && !firstOut && !secondOut
  }

  /** Nobody is out of an unfinished match, and a finished one has a fair verdict on the state it ended in. */
  predicate EndsFairly(d: Duel, m: Match<Book, Action>) {
    match m.ending
    case None => !IsOut(m, First) && !IsOut(m, Second)
    case Some(e) =>
      && e.frame == m.frame
      && FairVerdict(e, IsOut(m, First), IsOut(m, Second))
      && e.firstHash == d.stateHash(m.frame, m.first.sim) && e.secondHash == d.stateHash(m.frame, m.second.sim)
  }

  lemma FramesEndFairly(d: Duel, setup: Setup<Book, Action>, m: Match<Book, Action>)
    requires DuelOk(d) && setup.machine == BookMachine(d) && TwoPlayers(setup.participants)
    requires m.ending.None? && Booked(d, m)
    ensures AdvanceOneFrame(setup, m).Ok? ==> EndsFairly(d, AdvanceOneFrame(setup, m).value)
    ensures AdvanceOneFrame(setup, m).Err? ==> AdvanceOneFrame(setup, m).error == Begin(m)
  {
    hide Booked, Play, DuelOk;
    var due := DueInputs(m);
    LaterBound(d, m);
    PlayIsBooked(d, setup, Begin(m), Actions(due, setup.participants[0]), Actions(due, setup.participants[1]));
  }

  lemma UnfinishedIsAlive(d: Duel, m: Match<Book, Action>)
    requires Booked(d, m)
    ensures !IsOut(m, First) && !IsOut(m, Second)
  {
  }

  lemma OpsEndFairly(d: Duel, setup: Setup<Book, Action>, r: Recording<Book, Action>, op: MatchOp<Action>)
    requires DuelOk(d) && setup.machine == BookMachine(d) && TwoPlayers(setup.participants)
    requires r.m.ending.None? && Booked(d, r.m)
    ensures EndsFairly(d, TakeOp(setup, r, op).m)
  {
    hide Booked, DuelOk, AdvanceOneFrame, Reset, Enqueued;
    UnfinishedIsAlive(d, r.m);
    FramesEndFairly(d, setup, r.m);
  }

  /**
   Fair endings, on every run of a match between real simulations: while it is unfinished nobody is out. A match that
   ends by topout was won by the player who is still in, against one who is out; it is a simultaneous topout, without
   winner, exactly when both are out; and a draw, a forfeit or a disconnect ends a match nobody is out of. The ending
   carries the number of the last frame and the hashes of the two final states.
   */
  lemma {:induction false} MatchesEndFairly(
    d: Duel, setup: Setup<Book, Action>, firstBoard: FieldBoard, secondBoard: FieldBoard, ops: seq<MatchOp<Action>>)
    requires MatchOk(d, setup, firstBoard, secondBoard)
    ensures EndsFairly(d, RunDuel(d, setup, firstBoard, secondBoard, ops).m)
    decreases |ops|
  {
    hide EndsFairly, Booked, DuelOk, TakeOp, NewSim;
    if ops == [] {
      FreshMatchesEndFairly(d, setup, firstBoard, secondBoard);
    } else {
      var before := ops[..|ops| - 1];
      MatchesEndFairly(d, setup, firstBoard, secondBoard, before);
      RunsAreBooked(d, setup, firstBoard, secondBoard, before);
      var r := RunDuel(d, setup, firstBoard, secondBoard, before);
      if r.m.ending.None? {
        OpsEndFairly(d, setup, r, ops[|ops| - 1]);
      } else {
        FinishedStays(setup, r, ops[|ops| - 1]);
      }
    }
  }

  lemma FreshMatchesEndFairly(d: Duel, setup: Setup<Book, Action>, firstBoard: FieldBoard, secondBoard: FieldBoard)
    requires MatchOk(d, setup, firstBoard, secondBoard)
    ensures EndsFairly(d, RunDuel(d, setup, firstBoard, secondBoard, []).m)
  {
  }

  lemma FinishedStays<P, A>(setup: Setup<P, A>, r: Recording<P, A>, op: MatchOp<A>)
    requires TwoPlayers(setup.participants) && r.m.ending.Some?
    ensures TakeOp(setup, r, op) == r
  {
  }

  // ---------------------------------------------------------------- forced ends

  /** Did request `i` end an unfinished match by taking `loser` out of it? */
  predicate ForcedAt<P, A>(
    setup: Setup<P, A>, first: P, second: P, ops: seq<MatchOp<A>>, i: nat, winner: PlayerId, reason: Reason)
    requires TwoPlayers(setup.participants) && i < |ops|
  {
    && RunMatch(setup, first, second, ops[..i]).m.ending.None?
    && ops[i].Forfeited? && ops[i].reason == reason && (reason == Forfeit || reason == DisconnectTimeout)
    && ops[i].loser in setup.participants && winner in setup.participants && winner != ops[i].loser
  }

  ghost predicate Forced<P(!new), A(!new)>(
    setup: Setup<P, A>, first: P, second: P, ops: seq<MatchOp<A>>, winner: PlayerId, reason: Reason)
    requires TwoPlayers(setup.participants)
  {
    exists i: nat :: i < |ops| && ForcedAt(setup, first, second, ops, i, winner, reason)
  }

  /** A verdict that no frame of play gives. */
  predicate ByRequest(e: Ending) { e.reason == Forfeit || e.reason == DisconnectTimeout }

  lemma ForcedStays<P(!new), A(!new)>(
    setup: Setup<P, A>, first: P, second: P, ops: seq<MatchOp<A>>, more: MatchOp<A>, winner: PlayerId, reason: Reason)
    requires TwoPlayers(setup.participants) && Forced(setup, first, second, ops, winner, reason)
    ensures Forced(setup, first, second, ops + [more], winner, reason)
  {
    hide RunMatch;
    var i: nat :| i < |ops| && ForcedAt(setup, first, second, ops, i, winner, reason);
    assert (ops + [more])[..i] == ops[..i];
    assert ForcedAt(setup, first, second, ops + [more], i, winner, reason);
  }

  lemma PlayEndsByTopout<P, A>(setup: Setup<P, A>, m: Match<P, A>)
    requires TwoPlayers(setup.participants) && m.ending.None?
    ensures match AdvanceOneFrame(setup, m)
            case Ok(t) => t.ending.Some? ==> t.ending.value.reason == Topout || t.ending.value.reason == SimultaneousTopout
            case Err(t) => t.ending.None?
  {
    hide Play;
    var inputs := DueInputs(m);
    PlayLeavesTheRest(setup, Begin(m), Actions(inputs, setup.participants[0]), Actions(inputs, setup.participants[1]));
  }

  lemma RequestEnds<P(!new), A(!new)>(setup: Setup<P, A>, first: P, second: P, ops: seq<MatchOp<A>>, op: MatchOp<A>)
    requires TwoPlayers(setup.participants) && RunMatch(setup, first, second, ops).m.ending.None?
    requires var m := TakeOp(setup, RunMatch(setup, first, second, ops), op).m; m.ending.Some? && ByRequest(m.ending.value)
    ensures var e := TakeOp(setup, RunMatch(setup, first, second, ops), op).m.ending.value;
            e.winner.Some? && Forced(setup, first, second, ops + [op], IdAt(setup, e.winner.value), e.reason)
  {
    hide AdvanceOneFrame, RunMatch, Reset, Enqueued;
    var m := RunMatch(setup, first, second, ops).m;
    PlayEndsByTopout(setup, m);
    assert op.Forfeited?;
    var e := TakeOp(setup, RunMatch(setup, first, second, ops), op).m.ending.value;
    assert (ops + [op])[..|ops|] == ops;
    assert ForcedAt(setup, first, second, ops + [op], |ops|, IdAt(setup, e.winner.value), e.reason);
  }

  /**
   A forced end is never won by the player it takes out: on every run of any two players, a match that ended by forfeit or
   disconnect was ended by a request that names one of its players, while it was unfinished, and the other one won.
   */
  lemma {:induction false} ForcedEndsNameTheOther<P(!new), A(!new)>(
    setup: Setup<P, A>, first: P, second: P, ops: seq<MatchOp<A>>)
    requires TwoPlayers(setup.participants)
    requires RunMatch(setup, first, second, ops).m.ending.Some?
    requires ByRequest(RunMatch(setup, first, second, ops).m.ending.value)
    ensures var e := RunMatch(setup, first, second, ops).m.ending.value;
            e.winner.Some? && Forced(setup, first, second, ops, IdAt(setup, e.winner.value), e.reason)
    decreases |ops|
  {
    hide TakeOp, Forced;
    var before, op := ops[..|ops| - 1], ops[|ops| - 1];
    assert ops == before + [op];
    var r := RunMatch(setup, first, second, before);
    if r.m.ending.Some? {
      FinishedStays(setup, r, op);
      ForcedEndsNameTheOther(setup, first, second, before);
      var e := r.m.ending.value;
      ForcedStays(setup, first, second, before, op, IdAt(setup, e.winner.value), e.reason);
    } else {
      RequestEnds(setup, first, second, before, op);
    }
  }

  // ---------------------------------------------------------------- frames and snapshots

  /** The requests to advance that reached the match while it was unfinished. */
  function Advances<P, A>(setup: Setup<P, A>, first: P, second: P, ops: seq<MatchOp<A>>): nat
    requires TwoPlayers(setup.participants)
    decreases |ops|
  {
    if ops == [] then 0
    else
      var before := ops[..|ops| - 1];
      if ops[|ops| - 1].Advance? && RunMatch(setup, first, second, before).m.ending.None?
      then Advances(setup, first, second, before) + 1
      else Advances(setup, first, second, before)
  }

  /** The accumulator holds what the frames so far leave over when snapshots are taken out. */
  predicate Sampled<P, A>(setup: Setup<P, A>, m: Match<P, A>) {
    && 0 <= m.accumulator < setup.tickRate
    && m.stateSequence * setup.tickRate + m.accumulator == m.frame * setup.snapshotRate
  }

  lemma {:induction false} PacketsLeaveTheSamples<P, A>(setup: Setup<P, A>, m: Match<P, A>, source: Seat, packets: seq<nat>)
    ensures var r := QueuePackets(setup, m, source, packets);
            r.Some? ==> r.value.stateSequence == m.stateSequence && r.value.accumulator == m.accumulator
    decreases |packets|
  {
    if packets != [] && Deliver(setup, m, source, packets[0]).Some? {
      PacketsLeaveTheSamples(setup, Deliver(setup, m, source, packets[0]).value, source, packets[1..]);
    }
  }

  lemma PlayLeavesTheSamples<P, A>(setup: Setup<P, A>, m: Match<P, A>, a: seq<A>, b: seq<A>)
    ensures var r := Play(setup, m, a, b);
            r.Some? ==> r.value.0.stateSequence == m.stateSequence && r.value.0.accumulator == m.accumulator
  {
    var x, y := setup.machine.advance(First, m.first, m.frame, a), setup.machine.advance(Second, m.second, m.frame, b);
    if x.Some? && y.Some? {
      var net := Net(x.value.outgoing, y.value.outgoing);
      var moved := m.(first := x.value.player, second := y.value.player);
      PacketsLeaveTheSamples(setup, moved, First, net.0);
      if QueuePackets(setup, moved, First, net.0).Some? {
        PacketsLeaveTheSamples(setup, QueuePackets(setup, moved, First, net.0).value, Second, net.1);
      }
    }
  }

  lemma OneMoreSample(sequence: int, accumulator: int, frame: int, snapshotRate: int, tickRate: int)
    requires 0 <= accumulator < tickRate && 1 <= snapshotRate <= tickRate
    requires sequence * tickRate + accumulator == frame * snapshotRate
    ensures var total := accumulator + snapshotRate;
            if total >= tickRate
            then 0 <= total - tickRate < tickRate
                 && (sequence + 1) * tickRate + (total - tickRate) == (frame + 1) * snapshotRate
            else sequence * tickRate + total == (frame + 1) * snapshotRate
  {
    assert (sequence + 1) * tickRate == sequence * tickRate + tickRate;
    assert (frame + 1) * snapshotRate == frame * snapshotRate + snapshotRate;
  }

  lemma FramesAreSampled<P, A>(setup: Setup<P, A>, m: Match<P, A>)
    requires TwoPlayers(setup.participants) && 1 <= setup.snapshotRate <= setup.tickRate
    requires m.ending.None? && Sampled(setup, m) && AdvanceOneFrame(setup, m).Ok?
    ensures var t := AdvanceOneFrame(setup, m).value; t.frame == m.frame + 1 && (t.ending.None? ==> Sampled(setup, t))
  {
    hide Play;
    var inputs := DueInputs(m);
    var a, b := Actions(inputs, setup.participants[0]), Actions(inputs, setup.participants[1]);
    PlayLeavesTheRest(setup, Begin(m), a, b);
    PlayLeavesTheSamples(setup, Begin(m), a, b);
    OneMoreSample(m.stateSequence, m.accumulator, m.frame, setup.snapshotRate, setup.tickRate);
  }

  lemma OpsAreSampled<P, A>(setup: Setup<P, A>, r: Recording<P, A>, op: MatchOp<A>)
    requires TwoPlayers(setup.participants) && 1 <= setup.snapshotRate <= setup.tickRate
    requires r.m.ending.None? && Sampled(setup, r.m)
    ensures var t := TakeOp(setup, r, op).m;
            && t.frame == r.m.frame + (if op.Advance? then 1 else 0)
            && (t.ending.None? ==> Sampled(setup, t))
  {
    hide AdvanceOneFrame, Reset, Enqueued;
    if op.Advance? {
      if AdvanceOneFrame(setup, r.m).Ok? {
        FramesAreSampled(setup, r.m);
      } else {
        FailuresBegin(setup, r.m);
      }
    }
  }

  lemma FailuresBegin<P, A>(setup: Setup<P, A>, m: Match<P, A>)
    requires TwoPlayers(setup.participants) && AdvanceOneFrame(setup, m).Err?
    ensures AdvanceOneFrame(setup, m).error == Begin(m)
  {
  }

  /**
   Counting: the frame number is the number of requests to advance that found the match unfinished, and while it is
   unfinished the state sequence is the number of snapshots due by then at the snapshot rate.
   */
  lemma {:induction false} SnapshotsKeepTheRate<P, A>(setup: Setup<P, A>, first: P, second: P, ops: seq<MatchOp<A>>)
    requires TwoPlayers(setup.participants) && 1 <= setup.snapshotRate <= setup.tickRate
    ensures var m := RunMatch(setup, first, second, ops).m;
            && m.frame == Advances(setup, first, second, ops)
            && (m.ending.None? ==> Sampled(setup, m) && m.stateSequence == m.frame * setup.snapshotRate / setup.tickRate)
    decreases |ops|
  {
    hide TakeOp, Sampled;
    var m := RunMatch(setup, first, second, ops).m;
    if ops == [] {
      FreshIsSampled(setup, first, second);
    } else {
      var before, op := ops[..|ops| - 1], ops[|ops| - 1];
      SnapshotsKeepTheRate(setup, first, second, before);
      var r := RunMatch(setup, first, second, before);
      if r.m.ending.None? {
        OpsAreSampled(setup, r, op);
      } else {
        FinishedStays(setup, r, op);
      }
    }
    if m.ending.None? {
      SampledIsQuotient(setup, m);
    }
  }

  lemma FreshIsSampled<P, A>(setup: Setup<P, A>, first: P, second: P)
    requires TwoPlayers(setup.participants) && setup.tickRate >= 1
    ensures Sampled(setup, NewMatch(setup, first, second))
  {
  }

  lemma SampledIsQuotient<P, A>(setup: Setup<P, A>, m: Match<P, A>)
    requires setup.tickRate >= 1 && Sampled(setup, m)
    ensures m.stateSequence == m.frame * setup.snapshotRate / setup.tickRate
  {
    Quotients.QuotientIsUnique(m.frame * setup.snapshotRate, setup.tickRate, m.stateSequence, m.accumulator);
  }
}

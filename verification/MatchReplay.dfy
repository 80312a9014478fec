/**
 The replay log and its reconstruction. The recorder keeps the inputs each frame drained, grouped by
 player, and the control frames; idle frames leave no trace. Reconstruction feeds the log back through
 a fresh coordinator and its input queue.
 */
module MatchReplay {
  import opened Wrappers
  import opened InputQueues
  import opened InputQueueLaws
  import opened MatchCoordination

  // ---------------------------------------------------------------- recording

  datatype Source = Source(inputEpoch: nat, sequence: nat, actionCount: nat)

  datatype PlayerActions<A> = PlayerActions(
    playerId: PlayerId, actions: seq<A>, sourceSequences: seq<nat>, sources: seq<Source>)

  datatype Control = ClearHeld(playerId: PlayerId) | ResetTo(playerId: PlayerId, inputEpoch: nat)

  datatype Entry<A> =
    | AppliedInputs(frame: nat, players: seq<PlayerActions<A>>)
    | Controls(frame: nat, controls: seq<Control>)

  datatype Log<A> = Log(entries: seq<Entry<A>>, lastApplied: int, lastRecorded: int)

  datatype RecordError = NotIncreasing | BehindLog | StrangePlayer | BadInput | EmptyControls

  function NewLog<A>(): Log<A> { Log([], -1, -1) }

  function Later(a: int, b: int): int { if a >= b then a else b }

  /** All actions of a list of inputs, in order. */
  function Flat<A>(xs: seq<Input<A>>): seq<A> {
    if xs == [] then [] else Flat(xs[..|xs| - 1]) + xs[|xs| - 1].actions
  }

  function Sources<A>(xs: seq<Input<A>>): seq<Source> {
    seq(|xs|, i requires 0 <= i < |xs| => Source(xs[i].inputEpoch, xs[i].sequence, |xs[i].actions|))
  }

  function Sequences<A>(xs: seq<Input<A>>): seq<nat> { seq(|xs|, i requires 0 <= i < |xs| => xs[i].sequence) }

  function Group<A>(id: PlayerId, xs: seq<Input<A>>): seq<PlayerActions<A>> {
    if xs == [] then [] else [PlayerActions(id, Flat(xs), Sequences(xs), Sources(xs))]
  }

  function Grouped<A>(participants: seq<PlayerId>, drained: seq<Input<A>>): seq<PlayerActions<A>>
    requires TwoPlayers(participants)
  {
    Joined(Group(participants[0], Of(drained, participants[0])), Group(participants[1], Of(drained, participants[1])))
  }

  function RecordApplied<A>(
    participants: seq<PlayerId>, log: Log<A>, frame: nat, drained: seq<Input<A>>): Result<Log<A>, RecordError>
    requires TwoPlayers(participants)
  {
    if frame <= log.lastApplied then Err(NotIncreasing)
    else if frame < Later(log.lastApplied, log.lastRecorded) then Err(BehindLog)
    else if exists i :: 0 <= i < |drained| && drained[i].playerId !in participants then Err(StrangePlayer)
    else if exists i :: 0 <= i < |drained| && (drained[i].serverFrame > frame || drained[i].actions == []) then Err(BadInput)
    else
      var groups := Grouped(participants, drained);
      if groups == [] then Ok(log.(lastApplied := frame))
      else Ok(Log(log.entries + [AppliedInputs(frame, groups)], frame, frame))
  }

  function RecordControl<A>(participants: seq<PlayerId>, log: Log<A>, frame: nat, controls: seq<Control>)
    : Result<Log<A>, RecordError>
  {
    if frame < Later(log.lastApplied, log.lastRecorded) then Err(BehindLog)
    else if controls == [] then Err(EmptyControls)
    else if exists i :: 0 <= i < |controls| && controls[i].playerId !in participants then Err(StrangePlayer)
    else Ok(log.(entries := log.entries + [Controls(frame, controls)], lastRecorded := frame))
  }

  // ---------------------------------------------------------------- recorded runs

  /** What a match is asked to do from outside. */
  datatype MatchOp<A> =
    | SubmitInput(envelope: Envelope<A>)
    | Release(playerId: PlayerId)
    | RestartInput(playerId: PlayerId)
    | Advance
    | Forfeited(loser: PlayerId, reason: Reason)
    | Abort

  /** A match with its log; `threw` marks a match drawn because a step raised an error. */
  datatype Recording<P, A> = Recording(m: Match<P, A>, log: Result<Log<A>, RecordError>, threw: bool)

  function Note<P, A>(r: Recording<P, A>, m: Match<P, A>, log: Result<Log<A>, RecordError>): Recording<P, A> {
    Recording(m, if r.log.Err? then r.log else log, r.threw)
  }

  function Controlled<P, A>(setup: Setup<P, A>, r: Recording<P, A>, m: Match<P, A>, control: Control): Recording<P, A> {
    if r.log.Err? then Recording(m, r.log, r.threw)
    else Recording(m, RecordControl(setup.participants, r.log.value, r.m.frame, [control]), r.threw)
  }

  /** A step that raises an error is reported, and its match is drawn. */
  function StepMatch<P, A>(setup: Setup<P, A>, r: Recording<P, A>): Recording<P, A>
    requires TwoPlayers(setup.participants)
  {
    var log := if r.log.Err? then r.log
               else RecordApplied(setup.participants, r.log.value, r.m.frame + 1, DueInputs(r.m));
    match AdvanceOneFrame(setup, r.m)
    case Ok(t) => Recording(t, log, false)
    case Err(t) => Recording(ForceDraw(setup, t), log, true)
  }

  /** A finished match is retired: nothing more reaches it or its log. */
  function TakeOp<P, A>(setup: Setup<P, A>, r: Recording<P, A>, op: MatchOp<A>): Recording<P, A>
    requires TwoPlayers(setup.participants)
  {
    if r.m.ending.Some? then r
    else match op
      case SubmitInput(envelope) => r.(m := EnqueueInput(r.m, envelope).0)
      case Release(id) =>
        (match SeatOf(setup, id)
         case None => r
         case Some(seat) => Controlled(setup, r, MatchCoordination.ClearHeldInput(setup, r.m, seat), ClearHeld(id)))
      case RestartInput(id) =>
        (match SeatOf(setup, id)
         case None => r
         case Some(seat) =>
           if id !in r.m.queue.players then r
           else
             var m := MatchCoordination.ResetInput(setup, r.m, seat);
             Controlled(setup, r, m, ResetTo(id, m.queue.players[id].epoch)))
      case Advance => StepMatch(setup, r)
      case Forfeited(loser, reason) =>
        (match SeatOf(setup, loser)
         case None => r
         case Some(seat) =>
           if reason.Forfeit? || reason.DisconnectTimeout? then r.(m := ForceFinish(setup, r.m, seat, reason)) else r)
      case Abort => r.(m := ForceDraw(setup, r.m))
  }

  function RunMatch<P, A>(setup: Setup<P, A>, first: P, second: P, ops: seq<MatchOp<A>>): Recording<P, A>
    requires TwoPlayers(setup.participants)
  {
    if ops == [] then Recording(NewMatch(setup, first, second), Ok(NewLog()), false)
    else TakeOp(setup, RunMatch(setup, first, second, ops[..|ops| - 1]), ops[|ops| - 1])
  }

  // ---------------------------------------------------------------- reconstruction

  datatype ReplayError =
    | OrderInvalid | FramesAfterEnd | NotMonotonic | StepThrew | InputRefused | BadSources | EpochDiffers
    | UnknownParticipant | EndNotReproduced | EndDiffers | HashDiffers

  /** Reconstruction runs at the default snapshot rate, whatever the rate of the original. */
  function ReplaySetup<P, A>(setup: Setup<P, A>): Setup<P, A> { setup.(snapshotRate := 30) }

  function AdvanceTo<P, A>(setup: Setup<P, A>, m: Match<P, A>, target: int): Result<Match<P, A>, ReplayError>
    requires TwoPlayers(setup.participants)
    decreases target - m.frame
  {
    if target < 0 then Err(OrderInvalid)
    else if m.frame < target then
      if m.ending.Some? then Err(FramesAfterEnd)
      else
        match AdvanceOneFrame(setup, m)
        case Err(_) => Err(StepThrew)
        case Ok(t) =>
          FramesCount(setup, m);
          AdvanceTo(setup, t, target)
    else if m.frame != target then Err(NotMonotonic)
    else Ok(m)
  }

  function Slice<T>(s: seq<T>, from: nat, count: nat): seq<T> { s[Least(from, |s|)..Least(from + count, |s|)] }

  /** Feeds a player's sources from index `k` on back through the queue. */
  function ReplaySources<P, A>(m: Match<P, A>, p: PlayerActions<A>, k: nat, offset: nat): Result<Match<P, A>, ReplayError>
    requires k <= |p.sources| == |p.sourceSequences|
    decreases |p.sources| - k
  {
    if k == |p.sources| then if offset == |p.actions| then Ok(m) else Err(BadSources)
    else
      var source := p.sources[k];
      if p.sourceSequences[k] != source.sequence then Err(BadSources)
      else
        var r := EnqueueInput(m, Envelope(p.playerId, source.inputEpoch, source.sequence, m.frame,
                                          Slice(p.actions, offset, source.actionCount)));
        if !r.1.Scheduled? then Err(InputRefused)
        else ReplaySources(r.0, p, k + 1, offset + source.actionCount)
  }

  function ReplayPlayer<P, A>(m: Match<P, A>, p: PlayerActions<A>): Result<Match<P, A>, ReplayError> {
    if |p.sourceSequences| != |p.sources| then Err(BadSources) else ReplaySources(m, p, 0, 0)
  }

  function ReplayPlayers<P, A>(m: Match<P, A>, ps: seq<PlayerActions<A>>): Result<Match<P, A>, ReplayError> {
    if ps == [] then Ok(m)
    else match ReplayPlayers(m, ps[..|ps| - 1])
      case Err(e) => Err(e)
      case Ok(t) => ReplayPlayer(t, ps[|ps| - 1])
  }

  function ApplyControl<P, A>(setup: Setup<P, A>, m: Match<P, A>, control: Control): Result<Match<P, A>, ReplayError>
    requires TwoPlayers(setup.participants)
  {
    match SeatOf(setup, control.playerId)
    case None => Err(UnknownParticipant)
    case Some(seat) =>
      match control
      case ClearHeld(_) => Ok(MatchCoordination.ClearHeldInput(setup, m, seat))
      case ResetTo(id, epoch) =>
        if id !in m.queue.players then Err(UnknownParticipant)
        else
          var t := MatchCoordination.ResetInput(setup, m, seat);
          if t.queue.players[id].epoch != epoch then Err(EpochDiffers) else Ok(t)
  }

  function ApplyControls<P, A>(setup: Setup<P, A>, m: Match<P, A>, controls: seq<Control>): Result<Match<P, A>, ReplayError>
    requires TwoPlayers(setup.participants)
  {
    if controls == [] then Ok(m)
    else match ApplyControls(setup, m, controls[..|controls| - 1])
      case Err(e) => Err(e)
      case Ok(t) => ApplyControl(setup, t, controls[|controls| - 1])
  }

  function ApplyEntry<P, A>(setup: Setup<P, A>, m: Match<P, A>, entry: Entry<A>): Result<Match<P, A>, ReplayError>
    requires TwoPlayers(setup.participants)
  {
    match entry
    case AppliedInputs(frame, players) =>
      (match AdvanceTo(setup, m, frame - 1)
       case Err(e) => Err(e)
       case Ok(t) =>
         match ReplayPlayers(t, players)
         case Err(e) => Err(e)
         case Ok(u) =>
           match AdvanceOneFrame(setup, u)
           case Err(_) => Err(StepThrew)
           case Ok(v) => Ok(v))
    case Controls(frame, controls) =>
      match AdvanceTo(setup, m, frame)
      case Err(e) => Err(e)
      case Ok(t) => ApplyControls(setup, t, controls)
  }

  function ReplayEntries<P, A>(setup: Setup<P, A>, m: Match<P, A>, entries: seq<Entry<A>>): Result<Match<P, A>, ReplayError>
    requires TwoPlayers(setup.participants)
  {
    if entries == [] then Ok(m)
    else match ReplayEntries(setup, m, entries[..|entries| - 1])
      case Err(e) => Err(e)
      case Ok(t) => ApplyEntry(setup, t, entries[|entries| - 1])
  }

  function ForceRecordedEnd<P, A>(setup: Setup<P, A>, m: Match<P, A>, end: Ending): Result<Match<P, A>, ReplayError> {
    if m.ending.Some? then Ok(m)
    else if end.reason.Draw? then Ok(ForceDraw(setup, m))
    else if end.reason.Forfeit? || end.reason.DisconnectTimeout? then
      Ok(ForceFinish(setup, m, if end.winner == Some(First) then Second else First, end.reason))
    else Err(EndNotReproduced)
  }

  /** A fresh coordinator fed with the log and advanced to a frame. */
  function CaughtUp<P, A>(setup: Setup<P, A>, first: P, second: P, entries: seq<Entry<A>>, target: int)
    : Result<Match<P, A>, ReplayError>
    requires TwoPlayers(setup.participants)
  {
    match ReplayEntries(setup, NewMatch(setup, first, second), entries)
    case Err(e) => Err(e)
    case Ok(m) => AdvanceTo(setup, m, target)
  }

  function Reconstruct<P, A>(setup: Setup<P, A>, first: P, second: P, entries: seq<Entry<A>>, end: Ending)
    : Result<Match<P, A>, ReplayError>
    requires TwoPlayers(setup.participants)
  {
    match CaughtUp(ReplaySetup(setup), first, second, entries, end.frame)
    case Err(e) => Err(e)
    case Ok(t) =>
      match ForceRecordedEnd(ReplaySetup(setup), t, end)
      case Err(e) => Err(e)
      case Ok(u) =>
        if u.ending.None? then Err(EndNotReproduced)
        else
          var ended := u.ending.value;
          if ended.frame != end.frame || ended.winner != end.winner || ended.reason != end.reason then Err(EndDiffers)
          else if ended.firstHash != end.firstHash || ended.secondHash != end.secondHash then Err(HashDiffers)
          else Ok(u)
  }

  // ---------------------------------------------------------------- frames advance one at a time

  lemma {:induction false} PacketsLeaveTheRest<P, A>(setup: Setup<P, A>, m: Match<P, A>, source: Seat, packets: seq<nat>)
    ensures var r := QueuePackets(setup, m, source, packets);
            r.Some? ==> r.value.frame == m.frame && r.value.queue == m.queue && r.value.ending == m.ending
    decreases |packets|
  {
    if packets != [] && Deliver(setup, m, source, packets[0]).Some? {
      PacketsLeaveTheRest(setup, Deliver(setup, m, source, packets[0]).value, source, packets[1..]);
    }
  }

  lemma PlayLeavesTheRest<P, A>(setup: Setup<P, A>, m: Match<P, A>, a: seq<A>, b: seq<A>)
    ensures var r := Play(setup, m, a, b);
            r.Some? ==> r.value.0.frame == m.frame && r.value.0.queue == m.queue && r.value.0.ending == m.ending
  {
    var x, y := setup.machine.advance(First, m.first, m.frame, a), setup.machine.advance(Second, m.second, m.frame, b);
    if x.Some? && y.Some? {
      var net := Net(x.value.outgoing, y.value.outgoing);
      var moved := m.(first := x.value.player, second := y.value.player);
      PacketsLeaveTheRest(setup, moved, First, net.0);
      if QueuePackets(setup, moved, First, net.0).Some? {
        PacketsLeaveTheRest(setup, QueuePackets(setup, moved, First, net.0).value, Second, net.1);
      }
    }
  }

  lemma FramesCount<P, A>(setup: Setup<P, A>, m: Match<P, A>)
    requires TwoPlayers(setup.participants) && m.ending.None?
    ensures AdvanceOneFrame(setup, m).Ok? ==>
              && AdvanceOneFrame(setup, m).value.frame == m.frame + 1
              && AdvanceOneFrame(setup, m).value.queue == Begin(m).queue
  {
    var inputs := DueInputs(m);
    PlayLeavesTheRest(setup, Begin(m), Actions(inputs, setup.participants[0]), Actions(inputs, setup.participants[1]));
  }
}

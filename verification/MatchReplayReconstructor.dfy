/** The recorder and the reconstruction as the objects and loops they are. */
module MatchReplayReconstructor {
  import opened Wrappers
  import opened InputQueues
  import opened InputQueueLaws
  import opened MatchCoordination
  import opened MatchCoordinators
  import opened MatchReplay

  datatype RecorderError = Refused(error: RecordError) | Finalizing

  class MatchReplayRecorder<A> {
    const participants: seq<PlayerId>
    var open: bool
    var entries: seq<Entry<A>>
    var lastApplied: int
    var lastRecorded: int

    function View(): Log<A>
      reads this
    {
      Log(entries, lastApplied, lastRecorded)
    }

    constructor (participants: seq<PlayerId>)
      ensures this.participants == participants && open && View() == NewLog()
    {
      this.participants, open, entries, lastApplied, lastRecorded := participants, true, [], -1, -1;
    }

    /** Groups a frame's inputs by player; `None` for inputs that cannot be recorded. */
    method GroupInputs(frame: nat, drained: seq<Input<A>>) returns (r: Result<seq<PlayerActions<A>>, RecordError>)
      requires TwoPlayers(participants)
      ensures r == if exists i :: 0 <= i < |drained| && drained[i].playerId !in participants then Err(StrangePlayer)
                   else if exists i :: 0 <= i < |drained| && (drained[i].serverFrame > frame || drained[i].actions == [])
                   then Err(BadInput)
                   else Ok(Grouped(participants, drained))
    {
      var bad := false;
      for k := 0 to |drained|
        invariant forall i | 0 <= i < k :: drained[i].playerId in participants
        invariant bad <==> exists i :: 0 <= i < k && (drained[i].serverFrame > frame || drained[i].actions == [])
      {
        if drained[k].playerId !in participants {
          return Err(StrangePlayer);
        }
        if drained[k].serverFrame > frame || |drained[k].actions| == 0 {
          bad := true;
        }
      }
      if bad {
        return Err(BadInput);
      }
      return Ok(Grouped(participants, drained));
    }

    method RecordAppliedFrame(frame: nat, drained: seq<Input<A>>) returns (error: Option<RecorderError>)
      requires TwoPlayers(participants)
      modifies this
      ensures open == old(open)
      ensures !open ==> error == Some(Finalizing) && View() == old(View())
      ensures open ==> match RecordApplied(participants, old(View()), frame, drained)
                       case Ok(log) => error.None? && View() == log
                       case Err(e) => error == Some(Refused(e)) && View() == old(View())
    {
      if !open {
        return Some(Finalizing);
      }
      if frame <= lastApplied {
        return Some(Refused(NotIncreasing));
      }
      if frame < Later(lastApplied, lastRecorded) {
        return Some(Refused(BehindLog));
      }
      var grouped := GroupInputs(frame, drained);
      if grouped.Err? {
        return Some(Refused(grouped.error));
      }
      if |grouped.value| > 0 {
        entries := entries + [AppliedInputs(frame, grouped.value)];
        lastRecorded := frame;
      }
      lastApplied := frame;
      return None;
    }

    method RecordControlFrame(frame: nat, controls: seq<Control>) returns (error: Option<RecorderError>)
      modifies this
      ensures open == old(open)
      ensures !open ==> error == Some(Finalizing) && View() == old(View())
      ensures open ==> match RecordControl(participants, old(View()), frame, controls)
                       case Ok(log) => error.None? && View() == log
                       case Err(e) => error == Some(Refused(e)) && View() == old(View())
    {
      if !open {
        return Some(Finalizing);
      }
      if frame < Later(lastApplied, lastRecorded) {
        return Some(Refused(BehindLog));
      }
      if |controls| == 0 {
        return Some(Refused(EmptyControls));
      }
      for k := 0 to |controls|
        invariant forall i | 0 <= i < k :: controls[i].playerId in participants
      {
        if controls[k].playerId !in participants {
          return Some(Refused(StrangePlayer));
        }
      }
      entries := entries + [Controls(frame, controls)];
      lastRecorded := frame;
      return None;
    }

    /** Closes the log at an end frame that is not behind it. */
    method Finalize(frame: nat) returns (error: Option<RecorderError>)
      modifies this`open
      ensures error == if !old(open) then Some(Finalizing)
                       else if frame < Later(lastApplied, lastRecorded) then Some(Refused(BehindLog)) else None
      ensures open == (old(open) && error.Some?)
    {
      if !open {
        return Some(Finalizing);
      }
      if frame < Later(lastApplied, lastRecorded) {
        return Some(Refused(BehindLog));
      }
      open := false;
      return None;
    }
  }

  /** What a reconstruction step promises: the outcome of the specification, and its state when there is no error. */
  ghost predicate Does<P, A>(game: MatchCoordinator<P, A>, error: Option<ReplayError>, r: Result<Match<P, A>, ReplayError>)
    reads game, game.inputQueue
  {
    match r
    case Ok(m) => error.None? && game.View() == m
    case Err(e) => error == Some(e)
  }

  method AdvanceMatchTo<P, A>(game: MatchCoordinator<P, A>, target: int) returns (error: Option<ReplayError>)
    requires TwoPlayers(game.setup.participants)
    modifies game, game.inputQueue
    ensures Does(game, error, AdvanceTo(game.setup, old(game.View()), target))
  {
    if target < 0 {
      return Some(OrderInvalid);
    }
    while game.serverFrame < target
      invariant AdvanceTo(game.setup, game.View(), target) == AdvanceTo(game.setup, old(game.View()), target)
      decreases target - game.serverFrame
    {
      if game.ending.Some? {
        return Some(FramesAfterEnd);
      }
      FramesCount(game.setup, game.View());
      var threw, _ := game.AdvanceOneFrame();
      if threw {
        return Some(StepThrew);
      }
    }
    if game.serverFrame != target {
      return Some(NotMonotonic);
    }
    return None;
  }

  method FeedPlayer<P, A>(game: MatchCoordinator<P, A>, p: PlayerActions<A>) returns (error: Option<ReplayError>)
    modifies game.inputQueue
    ensures Does(game, error, ReplayPlayer(old(game.View()), p))
  {
    if |p.sourceSequences| != |p.sources| {
      return Some(BadSources);
    }
    var actionOffset: nat := 0;
    for k := 0 to |p.sources|
      invariant ReplaySources(game.View(), p, k, actionOffset) == ReplayPlayer(old(game.View()), p)
    {
      var source := p.sources[k];
      if p.sourceSequences[k] != source.sequence {
        return Some(BadSources);
      }
      var actions := Slice(p.actions, actionOffset, source.actionCount);
      actionOffset := actionOffset + source.actionCount;
      var d := game.EnqueueInput(Envelope(p.playerId, source.inputEpoch, source.sequence, game.serverFrame, actions));
      if !d.Scheduled? {
        return Some(InputRefused);
      }
    }
    if actionOffset != |p.actions| {
      return Some(BadSources);
    }
    return None;
  }

  method FeedPlayers<P, A>(game: MatchCoordinator<P, A>, players: seq<PlayerActions<A>>) returns (error: Option<ReplayError>)
    modifies game.inputQueue
    ensures Does(game, error, ReplayPlayers(old(game.View()), players))
  {
    for k := 0 to |players|
      invariant ReplayPlayers(old(game.View()), players[..k]) == Ok(game.View())
    {
      assert players[..k + 1][..k] == players[..k];
      error := FeedPlayer(game, players[k]);
      if error.Some? {
        ReplayStopsAtTheFirstError(old(game.View()), players, k + 1);
        return;
      }
    }
    assert players[..|players|] == players;
    error := None;
  }

  lemma {:induction false} ReplayStopsAtTheFirstError<P, A>(m: Match<P, A>, players: seq<PlayerActions<A>>, k: nat)
    requires k <= |players| && ReplayPlayers(m, players[..k]).Err?
    ensures ReplayPlayers(m, players) == ReplayPlayers(m, players[..k])
    decreases |players| - k
  {
    if k == |players| {
      assert players[..k] == players;
    } else {
      assert players[..k + 1][..k] == players[..k];
      ReplayStopsAtTheFirstError(m, players, k + 1);
    }
  }

  method PerformControl<P, A>(game: MatchCoordinator<P, A>, control: Control) returns (error: Option<ReplayError>)
    requires TwoPlayers(game.setup.participants)
    modifies game, game.inputQueue
    ensures Does(game, error, ApplyControl(game.setup, old(game.View()), control))
  {
    var seat := SeatOf(game.setup, control.playerId);
    if seat.None? {
      return Some(UnknownParticipant);
    }
    if control.ClearHeld? {
      game.ClearHeldInput(seat.value);
      return None;
    }
    if control.playerId !in game.inputQueue.players {
      return Some(UnknownParticipant);
    }
    var epoch := game.ResetInput(seat.value);
    return if epoch != control.inputEpoch then Some(EpochDiffers) else None;
  }

  method PerformControls<P, A>(game: MatchCoordinator<P, A>, controls: seq<Control>) returns (error: Option<ReplayError>)
    requires TwoPlayers(game.setup.participants)
    modifies game, game.inputQueue
    ensures Does(game, error, ApplyControls(game.setup, old(game.View()), controls))
  {
    for k := 0 to |controls|
      invariant ApplyControls(game.setup, old(game.View()), controls[..k]) == Ok(game.View())
    {
      assert controls[..k + 1][..k] == controls[..k];
      error := PerformControl(game, controls[k]);
      if error.Some? {
        ControlsStopAtTheFirstError(game.setup, old(game.View()), controls, k + 1);
        return;
      }
    }
    assert controls[..|controls|] == controls;
    error := None;
  }

  lemma {:induction false} ControlsStopAtTheFirstError<P, A>(
    setup: Setup<P, A>, m: Match<P, A>, controls: seq<Control>, k: nat)
    requires TwoPlayers(setup.participants)
    requires k <= |controls| && ApplyControls(setup, m, controls[..k]).Err?
    ensures ApplyControls(setup, m, controls) == ApplyControls(setup, m, controls[..k])
    decreases |controls| - k
  {
    if k == |controls| {
      assert controls[..k] == controls;
    } else {
      assert controls[..k + 1][..k] == controls[..k];
      ControlsStopAtTheFirstError(setup, m, controls, k + 1);
    }
  }

  method ApplyReplayFrame<P, A>(game: MatchCoordinator<P, A>, entry: Entry<A>) returns (error: Option<ReplayError>)
    requires TwoPlayers(game.setup.participants)
    modifies game, game.inputQueue
    ensures Does(game, error, ApplyEntry(game.setup, old(game.View()), entry))
  {
    match entry
    case AppliedInputs(frame, players) =>
      error := AdvanceMatchTo(game, frame - 1);
      if error.Some? {
        return;
      }
      error := FeedPlayers(game, players);
      if error.Some? {
        return;
      }
      var threw, _ := game.AdvanceOneFrame();
      return if threw then Some(StepThrew) else None;
    case Controls(frame, controls) =>
      error := AdvanceMatchTo(game, frame);
      if error.Some? {
        return;
      }
      error := PerformControls(game, controls);
  }

  method ApplyReplayFrames<P, A>(game: MatchCoordinator<P, A>, entries: seq<Entry<A>>) returns (error: Option<ReplayError>)
    requires TwoPlayers(game.setup.participants)
    modifies game, game.inputQueue
    ensures Does(game, error, ReplayEntries(game.setup, old(game.View()), entries))
  {
    for k := 0 to |entries|
      invariant ReplayEntries(game.setup, old(game.View()), entries[..k]) == Ok(game.View())
    {
      assert entries[..k + 1][..k] == entries[..k];
      error := ApplyReplayFrame(game, entries[k]);
      if error.Some? {
        EntriesStopAtTheFirstError(game.setup, old(game.View()), entries, k + 1);
        return;
      }
    }
    assert entries[..|entries|] == entries;
    error := None;
  }

  lemma {:induction false} EntriesStopAtTheFirstError<P, A>(
    setup: Setup<P, A>, m: Match<P, A>, entries: seq<Entry<A>>, k: nat)
    requires TwoPlayers(setup.participants)
    requires k <= |entries| && ReplayEntries(setup, m, entries[..k]).Err?
    ensures ReplayEntries(setup, m, entries) == ReplayEntries(setup, m, entries[..k])
    decreases |entries| - k
  {
    if k == |entries| {
      assert entries[..k] == entries;
    } else {
      assert entries[..k + 1][..k] == entries[..k];
      EntriesStopAtTheFirstError(setup, m, entries, k + 1);
    }
  }

  /** Ends the reconstructed match the way the recorded one was ended, unless it ended by itself. */
  method ForceEnd<P, A>(game: MatchCoordinator<P, A>, end: Ending) returns (error: Option<ReplayError>)
    modifies game
    ensures Does(game, error, ForceRecordedEnd(game.setup, old(game.View()), end))
  {
    if game.ending.Some? {
      return None;
    }
    if end.reason.Draw? {
      var _ := game.ForceDraw();
      return None;
    }
    if end.reason.Forfeit? || end.reason.DisconnectTimeout? {
      var _ := game.ForceFinish(if end.winner == Some(First) then Second else First, end.reason);
      return None;
    }
    return Some(EndNotReproduced);
  }

  /** The whole reconstruction, from a fresh coordinator to the compared ending. */
  method ReconstructMatchReplay<P, A>(setup: Setup<P, A>, first: P, second: P, entries: seq<Entry<A>>, end: Ending)
    returns (r: Result<Match<P, A>, ReplayError>)
    requires TwoPlayers(setup.participants)
    ensures r == Reconstruct(setup, first, second, entries, end)
  {
    var game := new MatchCoordinator<P, A>(ReplaySetup(setup), first, second);
    var error := ApplyReplayFrames(game, entries);
    if error.Some? {
      return Err(error.value);
    }
    error := AdvanceMatchTo(game, end.frame);
    if error.Some? {
      return Err(error.value);
    }
    error := ForceEnd(game, end);
    if error.Some? {
      return Err(error.value);
    }
    if game.ending.None? {
      return Err(EndNotReproduced);
    }
    var ended := game.ending.value;
    if ended.frame != end.frame || ended.winner != end.winner || ended.reason != end.reason {
      return Err(EndDiffers);
    }
    if ended.firstHash != end.firstHash || ended.secondHash != end.secondHash {
      return Err(HashDiffers);
    }
    return Ok(game.View());
  }
}

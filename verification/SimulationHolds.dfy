/** Between two locks a player holds at most once, and the hold swaps exactly the piece in play. */
module SimulationHolds {
  import opened Wrappers
  import opened Pieces
  import opened Boards
  import opened Garbage
  import opened Rotation
  import opened Simulation
  import opened SimulationLaws
  import opened SimulationLedger

  /** Nothing was drawn, held or swapped. */
  predicate Unheld(s: Sim, t: Sim) {
    && t.canHold == s.canHold && t.hold == s.hold && t.cursor == s.cursor
    && (s.active.Some? <==> t.active.Some?)
    && (s.active.Some? ==> t.active.value.kind == s.active.value.kind)
  }

  /** The piece in play went into the hold; a piece was drawn exactly when the hold was empty. */
  predicate HeldOnce(s: Sim, t: Sim) {
    && s.active.Some? && s.canHold && !t.canHold
    && t.hold == Some(s.active.value.kind)
    && t.cursor == s.cursor + (if s.hold.None? then 1 else 0)
  }

  predicate OneHold(s: Sim, t: Sim) {
    && s.piecesPlaced <= t.piecesPlaced
    && (s.piecesPlaced == t.piecesPlaced && s.generation.None? ==>
          t.generation.None? && (Unheld(s, t) || HeldOnce(s, t)))
  }

  predicate OneHoldResult(s: Sim, r: Result<Sim, Fault>) { r.Ok? ==> OneHold(s, r.value) }

  lemma OneHoldTwice(s: Sim, t: Sim, u: Sim)
    requires OneHold(s, t) && OneHold(t, u)
    ensures OneHold(s, u)
  {
  }

  lemma MovedIsOneHold(s: Sim, t: Sim)
    requires Moved(s, t)
    ensures OneHold(s, t)
  {
  }

  lemma HoldIsOneHold(env: Env, s: Sim)
    ensures OneHoldResult(s, PerformHold(env, s))
  {
  }

  lemma LockIsOneHold(env: Env, s: Sim, frame: int, cause: SpawnCause)
    requires Lock(env, s, frame, cause).Ok? && s.active.Some?
    ensures Lock(env, s, frame, cause).value.piecesPlaced == s.piecesPlaced + 1
  {
  }

  lemma ActionIsOneHold(env: Env, s: Sim, action: Action, frame: int)
    requires s.generation.None?
    ensures OneHoldResult(s, ApplyAction(env, s, action, frame))
  {
    if s.active.Some? && !s.toppedOut {
      match action
      case Move(side, pressed) =>
        SetHorizontalMoves(env, s, side, pressed);
        MovedIsOneHold(s, SetHorizontal(env, s, side, pressed));
      case MoveStep(side) =>
        StepMoves(env, s, side);
        MovedIsOneHold(s, MoveHorizontal(env, s, side));
      case MoveToWall(side) =>
        WallMoves(env, s, side);
        MovedIsOneHold(s, MoveToTheWall(env, s, side));
      case SoftDrop(_) =>
      case SoftDropStep(cells) =>
        var n: nat := if cells > 0 then cells else 0;
        FallMoves(s, n);
        MovedIsOneHold(s, Fall(s, n));
      case SonicDrop =>
        FloorMoves(s);
        MovedIsOneHold(s, FallToFloor(s));
      case Rotate(direction) =>
        TurnMoves(env, s, direction);
        MovedIsOneHold(s, Turn(env, s, direction));
      case Hold => HoldIsOneHold(env, s);
      case HardDrop =>
        FloorMoves(s);
        if Lock(env, FallToFloor(s), frame, ByHardDrop).Ok? {
          LockIsOneHold(env, FallToFloor(s), frame, ByHardDrop);
        }
      case ClearHeld =>
    }
  }

  lemma FinishIsOneHold(env: Env, s: Sim)
    ensures OneHold(s, Finish(env, s)) && Finish(env, s).generation.None?
    ensures Finish(env, s).piecesPlaced == s.piecesPlaced
  {
  }

  lemma TakeActionIsOneHold(env: Env, s: Sim, action: Action, frame: int)
    ensures OneHoldResult(s, TakeAction(env, s, action, frame))
  {
    FinishIsOneHold(env, s);
    ActionIsOneHold(env, Finish(env, s), action, frame);
  }

  lemma {:induction false} TakeActionsIsOneHold(env: Env, s: Sim, actions: seq<Action>, frame: int)
    ensures OneHoldResult(s, TakeActions(env, s, actions, frame))
    decreases |actions|
  {
    if actions != [] && TakeAction(env, s, actions[0], frame).Ok? {
      var t := TakeAction(env, s, actions[0], frame).value;
      TakeActionIsOneHold(env, s, actions[0], frame);
      TakeActionsIsOneHold(env, t, actions[1..], frame);
      if TakeActions(env, t, actions[1..], frame).Ok? {
        OneHoldTwice(s, t, TakeActions(env, t, actions[1..], frame).value);
      }
    }
  }

  lemma AdvanceLockIsOneHold(env: Env, s: Sim, frame: int)
    requires s.active.Some?
    ensures OneHoldResult(s, AdvanceLock(env, s, frame))
  {
    AdvanceLockCases(env, s, frame);
    if Lock(env, WithLockFrames(s, s.lockFrames + 1), frame, Automatic).Ok? {
      LockIsOneHold(env, WithLockFrames(s, s.lockFrames + 1), frame, Automatic);
    }
  }

  lemma ClockIsOneHold(env: Env, s: Sim, frame: int)
    requires RulesOk(env.rules)
    ensures OneHoldResult(s, ClockPhase(env, s, frame))
  {
    if !s.toppedOut && s.active.Some? {
      var moved := ApplyGravity(env, RepeatHorizontal(env, s));
      ClockMoves(env, s);
      MovedIsOneHold(s, moved);
      AdvanceLockIsOneHold(env, moved, frame);
      if AdvanceLock(env, moved, frame).Ok? {
        var ticked := AdvanceLock(env, moved, frame).value;
        FinishIsOneHold(env, ticked);
        OneHoldTwice(s, moved, ticked);
        OneHoldTwice(s, ticked, Finish(env, ticked));
      }
    }
  }

  lemma FrameIsOneHold(env: Env, s: Sim, frame: int, actions: seq<Action>)
    requires RulesOk(env.rules) && AdvanceFrame(env, s, frame, actions).Ok?
    ensures OneHold(s, AdvanceFrame(env, s, frame, actions).value.sim)
  {
    var begun := FreshFrame(s);
    assert OneHold(s, begun);
    if !s.toppedOut {
      TakeActionsIsOneHold(env, begun, actions, frame);
      var acted := TakeActions(env, begun, actions, frame).value;
      var finished := Finish(env, acted);
      FinishIsOneHold(env, acted);
      ClockIsOneHold(env, finished, frame);
      var ticked := ClockPhase(env, finished, frame).value;
      OneHoldTwice(s, begun, acted);
      OneHoldTwice(s, acted, finished);
      OneHoldTwice(s, finished, ticked);
    }
  }

  lemma OpIsOneHold(env: Env, b: Book, op: Op)
    requires RulesOk(env.rules) && Apply(env, b, op).Ok?
    ensures OneHold(b.sim, Apply(env, b, op).value.sim)
  {
    if op.Frame? {
      FrameIsOneHold(env, b.sim, op.frame, op.actions);
    }
  }

  /**
   At most one hold per locked piece: when a run continues without locking a piece, either no piece was held
   or drawn since, or exactly one hold took the piece in play and holding is closed until the next lock.
   */
  lemma AtMostOneHoldPerLock(env: Env, board: FieldBoard, ops: seq<Op>, more: seq<Op>)
    requires RollsOk(env) && CapFits(env) && RulesOk(env.rules) && NoFullRow(board)
    ensures var s, t := Run(env, board, ops).sim, Run(env, board, ops + more).sim;
            && s.piecesPlaced <= t.piecesPlaced
            && (s.piecesPlaced == t.piecesPlaced ==> Unheld(s, t) || HeldOnce(s, t))
  {
    OneHoldsOverRuns(env, board, ops, more);
    RunsAreSound(env, I, board, ops);
  }

  lemma {:induction false} OneHoldsOverRuns(env: Env, board: FieldBoard, ops: seq<Op>, more: seq<Op>)
    requires RulesOk(env.rules)
    ensures OneHold(Run(env, board, ops).sim, Run(env, board, ops + more).sim)
    decreases |more|
  {
    var m := |more| - 1;
    if more == [] {
      assert ops + more == ops;
    } else {
      OneHoldsOverRuns(env, board, ops, more[..m]);
      assert (ops + more)[..|ops + more| - 1] == ops + more[..m];
      var before := Run(env, board, ops + more[..m]);
      if Apply(env, before, more[m]).Ok? {
        OpIsOneHold(env, before, more[m]);
        OneHoldTwice(Run(env, board, ops).sim, before.sim, Apply(env, before, more[m]).value.sim);
      }
    }
  }
}

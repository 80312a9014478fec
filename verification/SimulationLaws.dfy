/**
 What the simulation keeps: every reachable state is well formed, so no error is ever raised, and
 pieces, garbage and attack are conserved over whole runs.
 */
module SimulationLaws {
  import opened Wrappers
  import opened Pieces
  import opened Boards
  import opened Garbage
  import opened Attack
  import opened Rotation
  import opened Simulation

  // ---------------------------------------------------------------- what movement may change

  predicate Fits(s: Sim) { s.active.Some? && PlacementValid(s.board, s.active.value) }

  /** `t` is `s` after movement: the same piece, still fitting if it did, and only movement fields touched. */
  predicate Moved(s: Sim, t: Sim) {
    && t == s.(active := t.active, held := t.held, horizontal := t.horizontal, horizontalFrames := t.horizontalFrames,
               gravityRemainder := t.gravityRemainder, lockFrames := t.lockFrames, lockResets := t.lockResets,
               lastRotation := t.lastRotation)
    && (s.active.Some? <==> t.active.Some?)
    && (s.active.Some? ==> t.active.value.kind == s.active.value.kind)
    && (Fits(s) ==> Fits(t))
  }

  lemma MovedTwice(s: Sim, t: Sim, u: Sim)
    requires Moved(s, t) && Moved(t, u)
    ensures Moved(s, u)
  {
  }

  lemma StepMoves(env: Env, s: Sim, side: Side)
    ensures Moved(s, MoveHorizontal(env, s, side))
  {
  }

  lemma {:induction false} WallMoves(env: Env, s: Sim, side: Side)
    ensures Moved(s, MoveToTheWall(env, s, side))
    decreases if CanStep(s, side) then Room(Step(s.active.value, side), side) + 1 else 0
  {
    if CanStep(s, side) {
      FittingPieceHasRoom(s.board, Step(s.active.value, side), side);
      var moved := MoveHorizontal(env, s, side);
      StepMoves(env, s, side);
      WallMoves(env, moved, side);
      MovedTwice(s, moved, MoveToTheWall(env, moved, side));
    }
  }

  lemma {:induction false} FallMoves(s: Sim, cells: nat)
    ensures Moved(s, Fall(s, cells))
    decreases cells
  {
    if cells > 0 && CanFall(s) {
      FallMoves(s.(active := Some(Below(s.active.value))), cells - 1);
    }
  }

  lemma {:induction false} FloorMoves(s: Sim)
    ensures Moved(s, FallToFloor(s)) && !CanFall(FallToFloor(s))
    decreases if CanFall(s) then s.active.value.y + 4 else 0
  {
    if CanFall(s) {
      FittingPieceHasRoom(s.board, Below(s.active.value), Left);
      FloorMoves(s.(active := Some(Below(s.active.value))));
    }
  }

  lemma TurnMoves(env: Env, s: Sim, direction: Direction)
    ensures Moved(s, Turn(env, s, direction))
  {
    if s.active.Some? {
      var p := s.active.value;
      RotationTakesTheFirstFit(s.board, p, direction, env.kicks(p.kind, p.rotation, direction), 0);
    }
  }

  lemma SetHorizontalMoves(env: Env, s: Sim, side: Side, pressed: bool)
    ensures Moved(s, SetHorizontal(env, s, side, pressed))
  {
    var held := s.(held := WithSide(s.held, side, pressed));
    StepMoves(env, held.(horizontal := Some(side), horizontalFrames := 0), side);
    StepMoves(env, held.(horizontal := Some(Other(side)), horizontalFrames := 0), Other(side));
  }

  lemma RepeatMoves(env: Env, s: Sim)
    requires RulesOk(env.rules)
    ensures Moved(s, RepeatHorizontal(env, s))
  {
    if s.horizontal.Some? {
      var ticked := s.(horizontalFrames := s.horizontalFrames + 1);
      StepMoves(env, ticked, s.horizontal.value);
      WallMoves(env, ticked, s.horizontal.value);
    }
  }

  lemma GravityMoves(env: Env, s: Sim)
    requires RulesOk(env.rules)
    ensures Moved(s, ApplyGravity(env, s))
  {
    forall r: int, cells: nat
      ensures Moved(s, Fall(s.(gravityRemainder := r), cells))
    {
      FallMoves(s.(gravityRemainder := r), cells);
    }
  }

  lemma ClockMoves(env: Env, s: Sim)
    requires RulesOk(env.rules)
    ensures Moved(s, ApplyGravity(env, RepeatHorizontal(env, s)))
  {
    RepeatMoves(env, s);
    GravityMoves(env, RepeatHorizontal(env, s));
    MovedTwice(s, RepeatHorizontal(env, s), ApplyGravity(env, RepeatHorizontal(env, s)));
  }

  // ---------------------------------------------------------------- well-formed states

  /** Without a pending generation the buffers are empty, and a live player has a piece that fits. */
  predicate Settled(s: Sim) {
    && (s.generation.None? ==>
        !s.bufferedHold && s.bufferedRotation.None? && (!s.toppedOut ==> Fits(s)))
    && (s.generation.Some? ==> !s.toppedOut)
  }

  predicate Valid(s: Sim) { NoFullRow(s.board) && Settled(s) }

  /** A step that raises no error and ends in a well-formed state. */
  predicate SafeResult(r: Result<Sim, Fault>) { r.Ok? && Valid(r.value) }

  /** The stream of rounding rolls yields numbers in [0, 1). */
  ghost predicate RollsOk(env: Env) { forall i: nat :: 0.0 <= env.rolls(i) < 1.0 }

  lemma {:induction false} SearchFindsFits(
    env: Env, b: FieldBoard, kind: Kind, rotation: Option<Direction>, y: int, highest: int)
    ensures var placed := SearchPlacement(env, b, kind, rotation, y, highest);
            placed.active.Some? ==> PlacementValid(b, placed.active.value) && placed.active.value.kind == kind
    decreases highest - y + 1
  {
    if y <= highest {
      if rotation.Some? {
        var base := Piece(kind, 0, env.rules.spawnX, y);
        RotationTakesTheFirstFit(b, base, rotation.value, env.kicks(kind, 0, rotation.value), 0);
      }
      if PlacementAt(env, b, kind, y, rotation).active.None? {
        SearchFindsFits(env, b, kind, rotation, y + 1, highest);
      }
    }
  }

  /** The kind a pending generation will bring into play. */
  function GeneratedKind(env: Env, s: Sim): Kind
    requires s.generation.Some?
  {
    if !(s.bufferedHold && s.generation.value.allowBufferedHold) then s.generation.value.incoming
    else if s.hold.Some? then s.hold.value else env.pieces(s.cursor)
  }

  lemma FinishSettles(env: Env, s: Sim)
    requires Valid(s)
    ensures Valid(Finish(env, s)) && Finish(env, s).generation.None?
    ensures s.generation.Some? && !Finish(env, s).toppedOut ==>
              Finish(env, s).active.value.kind == GeneratedKind(env, s)
  {
    if s.generation.Some? {
      SearchFindsFits(env, s.board, GeneratedKind(env, s), s.bufferedRotation, env.rules.spawnY,
                      HighestSpawn(env, s.generation.value.allowClutchLift));
    }
  }

  lemma HoldIsSafe(env: Env, s: Sim)
    requires Valid(s) && s.generation.None? && !s.toppedOut
    ensures SafeResult(PerformHold(env, s))
    ensures PerformHold(env, s).value.generation.None?
  {
    if s.canHold {
      FinishSettles(env, SwapHold(env, s).(
        generation := Some(Generation(Replacement(env, s), false, Some(ByHold), s.allowClutchLift, false))));
    }
  }

  predicate CapFits(env: Env) { 1 <= env.rules.garbageCap <= HEIGHT }

  /** What a clearing lock does to the queue: it cancels with its attacks, in order. */
  lemma ClearingCancels(env: Env, s: Sim, kind: Kind, locked: LockResult, spin: Spin)
    returns (attacks: seq<nat>, multiplier: Multiplier)
    requires IsBoard(locked.board) && locked.Lines() > 0 && ResolveClearing(env, s, kind, locked, spin).Ok?
    ensures var o := ResolveClearing(env, s, kind, locked, spin).value;
            var c := CancelAll(s.pendingGarbage, attacks, multiplier);
            && o.pendingGarbage == c.0 && o.summary.cancelledGarbage == c.1 && o.summary.outgoingAttacks == c.2
            && o.totalAttackSent == s.totalAttackSent + Sum(c.2)
            && o.summary.piece == kind && o.summary.appliedGarbageHoles == []
  {
    hide CancelAll, Amount, Sum;
    var event := ClearEvent(locked.Lines(), spin, s.combo + 1, locked.perfectClear, locked.clearedGarbageLineCount > 0);
    var roll := if NeedsRoll(event, s.streak, env.logScale) then env.rolls(s.rollCursor) else 0.0;
    var attack := ResolveClear(event, s.streak, roll, env.logScale);
    attacks := [attack.clearAttack] + attack.surge;
    multiplier := OpenerMultiplier(s.piecesPlaced, Amount(s.pendingGarbage), s.totalAttackSent);
  }

  lemma LockOutcomeIsSafe(env: Env, s: Sim, frame: int)
    requires Fits(s) && NoFullRow(s.board) && frame >= 0
    requires RollsOk(env) && CapFits(env)
    ensures ResolveLock(env, s, frame).Ok?
    ensures NoFullRow(ResolveLock(env, s, frame).value.board)
    ensures ResolveLock(env, s, frame).value.summary.lines <= 4
  {
    var piece := s.active.value;
    LockingLeavesNoFullRow(s.board, piece);
    LockingClearsAtMostFour(s.board, piece);
    TakingConserves(s.pendingGarbage, frame, env.rules.garbageCap);
    var holes := TakeReady(s.pendingGarbage, frame, env.rules.garbageCap).1;
    InsertingShiftsRows(LockPiece(s.board, piece).value.board, holes);
    InsertingKeepsBoard(LockPiece(s.board, piece).value.board, holes);
  }

  lemma LockIsSafe(env: Env, s: Sim, frame: int, cause: SpawnCause)
    requires Valid(s) && s.generation.None? && !s.toppedOut && frame >= 0
    requires RollsOk(env) && CapFits(env)
    ensures SafeResult(Lock(env, s, frame, cause))
  {
    LockOutcomeIsSafe(env, s, frame);
  }

  lemma MovedStaysValid(s: Sim, t: Sim)
    requires Valid(s) && Moved(s, t)
    ensures Valid(t)
  {
  }

  lemma ActionIsSafe(env: Env, s: Sim, action: Action, frame: int)
    requires Valid(s) && s.generation.None? && frame >= 0
    requires RollsOk(env) && CapFits(env)
    ensures SafeResult(ApplyAction(env, s, action, frame))
  {
    if s.active.Some? && !s.toppedOut {
      match action
      case Move(side, pressed) =>
        SetHorizontalMoves(env, s, side, pressed);
        MovedStaysValid(s, SetHorizontal(env, s, side, pressed));
      case MoveStep(side) =>
        StepMoves(env, s, side);
        MovedStaysValid(s, MoveHorizontal(env, s, side));
      case MoveToWall(side) =>
        WallMoves(env, s, side);
        MovedStaysValid(s, MoveToTheWall(env, s, side));
      case SoftDrop(_) =>
      case SoftDropStep(cells) =>
        var n: nat := if cells > 0 then cells else 0;
        FallMoves(s, n);
        MovedStaysValid(s, Fall(s, n));
      case SonicDrop =>
        FloorMoves(s);
        MovedStaysValid(s, FallToFloor(s));
      case Rotate(direction) =>
        TurnMoves(env, s, direction);
        MovedStaysValid(s, Turn(env, s, direction));
      case Hold => HoldIsSafe(env, s);
      case HardDrop =>
        FloorMoves(s);
        MovedStaysValid(s, FallToFloor(s));
        LockIsSafe(env, FallToFloor(s), frame, ByHardDrop);
      case ClearHeld =>
    }
  }

  lemma TakeActionIsSafe(env: Env, s: Sim, action: Action, frame: int)
    requires Valid(s) && frame >= 0 && RollsOk(env) && CapFits(env)
    ensures SafeResult(TakeAction(env, s, action, frame))
  {
    FinishSettles(env, s);
    ActionIsSafe(env, Finish(env, s), action, frame);
  }

  lemma {:induction false} TakeActionsIsSafe(env: Env, s: Sim, actions: seq<Action>, frame: int)
    requires Valid(s) && frame >= 0 && RollsOk(env) && CapFits(env)
    ensures SafeResult(TakeActions(env, s, actions, frame))
    decreases |actions|
  {
    if actions != [] {
      TakeActionIsSafe(env, s, actions[0], frame);
      TakeActionsIsSafe(env, TakeAction(env, s, actions[0], frame).value, actions[1..], frame);
    }
  }

  lemma AdvanceLockCases(env: Env, s: Sim, frame: int)
    requires s.active.Some?
    ensures var r := AdvanceLock(env, s, frame);
            || r == Ok(WithLockFrames(s, 0))
            || r == Ok(WithLockFrames(s, s.lockFrames + 1))
            || r == Lock(env, WithLockFrames(s, s.lockFrames + 1), frame, Automatic)
  {
    hide Lock, Grounded;
  }

  lemma AdvanceLockIsSafe(env: Env, s: Sim, frame: int)
    requires Valid(s) && s.generation.None? && !s.toppedOut && frame >= 0
    requires RollsOk(env) && CapFits(env)
    ensures SafeResult(AdvanceLock(env, s, frame))
  {
    AdvanceLockCases(env, s, frame);
    LockIsSafe(env, WithLockFrames(s, s.lockFrames + 1), frame, Automatic);
  }

  lemma ClockIsSafe(env: Env, s: Sim, frame: int)
    requires Valid(s) && s.generation.None? && frame >= 0
    requires RollsOk(env) && CapFits(env) && RulesOk(env.rules)
    ensures SafeResult(ClockPhase(env, s, frame))
    ensures ClockPhase(env, s, frame).value.generation.None?
  {
    if !s.toppedOut {
      var moved := ApplyGravity(env, RepeatHorizontal(env, s));
      ClockMoves(env, s);
      MovedStaysValid(s, moved);
      AdvanceLockIsSafe(env, moved, frame);
      FinishSettles(env, AdvanceLock(env, moved, frame).value);
    }
  }

  /**
   Simulation safety: on a well-formed state a frame is refused only for its number or for more
   than 64 actions. No piece is ever locked out of place, no generation is requested twice, no line
   count leaves the attack table and no garbage batch outgrows the board; and the state stays
   well formed with nothing left pending.
   */
  lemma FramesAreSafe(env: Env, s: Sim, frame: int, actions: seq<Action>)
    requires Valid(s) && s.generation.None?
    requires RollsOk(env) && CapFits(env) && RulesOk(env.rules)
    ensures AdvanceFrame(env, s, frame, actions).Ok? <==> frame >= 1 && |actions| <= 64
    ensures AdvanceFrame(env, s, frame, actions).Ok? ==>
              var t := AdvanceFrame(env, s, frame, actions).value.sim; Valid(t) && t.generation.None?
  {
    if frame >= 1 && |actions| <= 64 && !s.toppedOut {
      var begun := FreshFrame(s);
      TakeActionsIsSafe(env, begun, actions, frame);
      var acted := TakeActions(env, begun, actions, frame).value;
      FinishSettles(env, acted);
      ClockIsSafe(env, Finish(env, acted), frame);
    }
  }

  lemma NewSimIsValid(env: Env, board: FieldBoard)
    requires NoFullRow(board)
    ensures Valid(NewSim(env, board)) && NewSim(env, board).generation.None?
  {
    SearchFindsFits(env, board, env.pieces(0), None, env.rules.spawnY, HighestSpawn(env, false));
  }
}

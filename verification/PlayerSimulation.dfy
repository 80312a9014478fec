/**
 The player simulation as the mutable object it is: private fields updated in place by small
 methods and movement loops, proved against the transitions of `Simulation`.
 */
module PlayerSimulations {
  import opened Wrappers
  import opened Pieces
  import opened Boards
  import opened Garbage
  import opened Attack
  import opened Rotation
  import opened Simulation

  datatype Disposition = ApplyNow | Buffered | FinishFirst

  /** The pending generation with its buffered hold and rotation. */
  class PieceGeneration {
    var pending: Option<Generation>
    var bufferedHold: bool
    var bufferedRotation: Option<Direction>

    constructor ()
      ensures pending.None? && !bufferedHold && bufferedRotation.None?
    {
      pending, bufferedHold, bufferedRotation := None, false, None;
    }

    method Request(g: Generation) returns (fault: Option<Fault>)
      modifies this
      ensures fault == if old(pending).Some? then Some(AlreadyPending) else None
      ensures pending == if old(pending).Some? then old(pending) else Some(g)
      ensures bufferedHold == old(bufferedHold) && bufferedRotation == old(bufferedRotation)
    {
      if pending.Some? {
        return Some(AlreadyPending);
      }
      pending := Some(g);
      return None;
    }

    method Clear()
      modifies this
      ensures pending.None? && !bufferedHold && bufferedRotation.None?
    {
      pending, bufferedHold, bufferedRotation := None, false, None;
    }

    method Consume(action: Action) returns (d: Disposition)
      modifies this
      ensures pending == old(pending)
      ensures d == if pending.None? then ApplyNow else if action.Hold? || action.Rotate? then Buffered else FinishFirst
      ensures bufferedHold == (old(bufferedHold) || (d.Buffered? && action.Hold?))
      ensures bufferedRotation == if d.Buffered? && action.Rotate? then Some(action.direction) else old(bufferedRotation)
    {
      if pending.None? {
        return ApplyNow;
      }
      if action.Hold? {
        bufferedHold := true;
        return Buffered;
      }
      if action.Rotate? {
        bufferedRotation := Some(action.direction);
        return Buffered;
      }
      return FinishFirst;
    }
  }

  /** The upward search for a spawn placement. */
  method FindPlacement(env: Env, b: FieldBoard, kind: Kind, rotation: Option<Direction>, highest: int)
    returns (placement: Placement)
    ensures placement == SearchPlacement(env, b, kind, rotation, env.rules.spawnY, highest)
  {
    var y := env.rules.spawnY;
    while y <= highest
      invariant SearchPlacement(env, b, kind, rotation, env.rules.spawnY, highest)
             == SearchPlacement(env, b, kind, rotation, y, highest)
      decreases highest - y
    {
      placement := PlacementAt(env, b, kind, y, rotation);
      if placement.active.Some? {
        return;
      }
      y := y + 1;
    }
    placement := Placement(None, 0, None);
  }

  class PlayerSimulation {
    const env: Env
    const generation: PieceGeneration
    var board: FieldBoard
    var active: Option<Piece>
    var hold: Option<Kind>
    var canHold: bool
    var combo: Combo
    var streak: nat
    var piecesPlaced: nat
    var totalAttackSent: nat
    var pendingGarbage: Queue
    var held: Held
    var horizontal: Option<Side>
    var horizontalFrames: int
    var gravityRemainder: int
    var lockFrames: int
    var lockResets: int
    var lastRotation: Option<LastRotation>
    var toppedOut: bool
    var allowClutchLift: bool
    var cursor: nat
    var rollCursor: nat
    var frameLocks: seq<LockSummary>
    var frameSpawns: seq<SpawnEvent>

    /** The value of all the fields together. */
    function View(): Sim
      reads this, generation
    {
      Sim(board, active, hold, canHold, combo, streak, piecesPlaced, totalAttackSent, pendingGarbage, held, horizontal,
          horizontalFrames, gravityRemainder, lockFrames, lockResets, lastRotation, toppedOut, allowClutchLift,
          generation.pending, generation.bufferedHold, generation.bufferedRotation, cursor, rollCursor, frameLocks,
          frameSpawns)
    }

    constructor (env: Env, initialBoard: FieldBoard)
      ensures this.env == env && fresh(generation)
      ensures View() == NewSim(env, initialBoard)
    {
      this.env := env;
      generation := new PieceGeneration();
      board, active, hold, canHold, combo, streak := initialBoard, None, None, true, -1, 0;
      piecesPlaced, totalAttackSent, pendingGarbage := 0, 0, [];
      held, horizontal, horizontalFrames := Held(false, false, false), None, 0;
      gravityRemainder, lockFrames, lockResets, lastRotation := 0, 0, 0, None;
      toppedOut, allowClutchLift, cursor, rollCursor := false, false, 1, 0;
      frameLocks, frameSpawns := [], [];
      new;
      generation.pending := Some(Generation(env.pieces(0), true, None, false, false));
      FinishGeneration();
    }

    method QueueGarbage(packet: Packet) returns (fault: Option<Fault>)
      modifies this
      ensures match Simulation.QueueGarbage(old(View()), packet)
              case Ok(t) => fault.None? && View() == t
              case Err(f) => fault == Some(f) && View() == old(View())
    {
      if toppedOut {
        return None;
      }
      if !PacketOk(packet) {
        return Some(BadPacket);
      }
      pendingGarbage := pendingGarbage + [packet];
      return None;
    }

    method ClearHeld()
      modifies this
      ensures View() == ClearHeldInput(old(View()))
    {
      held := Held(false, false, false);
      horizontal := None;
      horizontalFrames := 0;
    }

    // -------------------------------------------------------------- movement

    method AcceptManipulation(candidate: Piece, rotation: Option<LastRotation>) returns (accepted: bool)
      modifies this
      ensures View() == Manipulate(env, old(View()), candidate, rotation)
      ensures accepted <==> old(active).Some? && PlacementValid(old(board), candidate)
    {
      if active.None? || !PlacementValid(board, candidate) {
        return false;
      }
      var wasGrounded := !PlacementValid(board, Below(active.value));
      Replace(candidate, rotation);
      if wasGrounded && lockResets < env.rules.lockResetLimit {
        SpendLockReset();
      }
      return true;
    }

    method Replace(candidate: Piece, rotation: Option<LastRotation>)
      modifies this
      ensures View() == old(View()).(active := Some(candidate), lastRotation := rotation)
    {
      active := Some(candidate);
      lastRotation := rotation;
    }

    method SpendLockReset()
      modifies this
      ensures View() == old(View()).(lockFrames := 0, lockResets := old(lockResets) + 1)
    {
      lockFrames := 0;
      lockResets := lockResets + 1;
    }

    method Shift(side: Side) returns (moved: bool)
      modifies this
      ensures View() == MoveHorizontal(env, old(View()), side)
      ensures moved <==> CanStep(old(View()), side)
    {
      if active.None? {
        return false;
      }
      moved := AcceptManipulation(Step(active.value, side), None);
    }

    method ShiftToWall(side: Side)
      modifies this
      ensures View() == MoveToTheWall(env, old(View()), side)
    {
      ghost var end := MoveToTheWall(env, View(), side);
      var moving := true;
      while moving
        invariant MoveToTheWall(env, View(), side) == end
        invariant !moving ==> View() == end
        decreases moving, if CanStep(View(), side) then Room(Step(active.value, side), side) + 1 else 0
      {
        ghost var before := View();
        if CanStep(before, side) {
          FittingPieceHasRoom(before.board, Step(before.active.value, side), side);
        }
        moving := Shift(side);
      }
    }

    method Drop() returns (moved: bool)
      modifies this
      ensures moved <==> CanFall(old(View()))
      ensures View() == if moved then old(View()).(active := Some(Below(old(active).value))) else old(View())
    {
      if active.None? || !PlacementValid(board, Below(active.value)) {
        return false;
      }
      active := Some(Below(active.value));
      return true;
    }

    method DropBy(cells: nat)
      modifies this
      ensures View() == Fall(old(View()), cells)
    {
      ghost var end := Fall(View(), cells);
      var remaining := cells;
      var moving := true;
      while remaining > 0 && moving
        invariant Fall(View(), remaining) == end
        invariant !moving ==> View() == end
        decreases moving, remaining
      {
        moving := Drop();
        if moving {
          remaining := remaining - 1;
        }
      }
    }

    method DropToFloor()
      modifies this
      ensures View() == FallToFloor(old(View()))
    {
      ghost var end := FallToFloor(View());
      var moving := true;
      while moving
        invariant FallToFloor(View()) == end
        invariant !moving ==> View() == end
        decreases moving, if CanFall(View()) then active.value.y + 4 else 0
      {
        ghost var before := View();
        if CanFall(before) {
          FittingPieceHasRoom(before.board, Below(before.active.value), Left);
        }
        moving := Drop();
      }
    }

    method RotateActive(direction: Direction)
      modifies this
      ensures View() == Turn(env, old(View()), direction)
    {
      if active.None? {
        return;
      }
      var r := TryRotateByLoop(env.kicks, board, active.value, direction);
      if r.Some? {
        var accepted := AcceptManipulation(r.value.piece, Some(LastRotation(direction, r.value.kickIndex)));
      }
    }

    method PressSide(side: Side, pressed: bool)
      modifies this
      ensures View() == old(View()).(held := WithSide(old(held), side, pressed))
    {
      held := WithSide(held, side, pressed);
    }

    /** Restarts the repeat delay in a direction, or in none. */
    method Face(direction: Option<Side>)
      modifies this
      ensures View() == old(View()).(horizontal := direction, horizontalFrames := 0)
    {
      horizontal := direction;
      horizontalFrames := 0;
    }

    method SetHorizontalInput(side: Side, pressed: bool)
      modifies this
      ensures View() == SetHorizontal(env, old(View()), side, pressed)
    {
      var already := HoldsSide(held, side);
      var oppositeHeld := HoldsSide(held, Other(side));
      PressSide(side, pressed);
      if pressed && !already {
        Face(Some(side));
        var moved := Shift(side);
      } else if !pressed && horizontal == Some(side) {
        if oppositeHeld {
          Face(Some(Other(side)));
          var moved := Shift(Other(side));
        } else {
          Face(None);
        }
      }
    }

    method RepeatHeldDirection()
      requires RulesOk(env.rules)
      modifies this
      ensures View() == RepeatHorizontal(env, old(View()))
    {
      if horizontal.None? || active.None? {
        return;
      }
      horizontalFrames := horizontalFrames + 1;
      if horizontalFrames < env.rules.dasFrames {
        return;
      }
      if env.rules.arrFrames == 0 {
        ShiftToWall(horizontal.value);
        return;
      }
      if (horizontalFrames - env.rules.dasFrames) % env.rules.arrFrames == 0 {
        var moved := Shift(horizontal.value);
      }
    }

    method FallByGravity()
      requires RulesOk(env.rules)
      modifies this
      ensures View() == ApplyGravity(env, old(View()))
    {
      var rate := env.rules.gravityMicrosPerSecond;
      if held.softDrop && env.rules.softDropMicrosPerSecond > rate {
        rate := env.rules.softDropMicrosPerSecond;
      }
      var threshold := env.rules.tickRateHz * MICROS_PER_CELL;
      var total := gravityRemainder + rate;
      var cells := Garbage.Min(total / threshold, 40);
      gravityRemainder := total % threshold;
      DropBy(if cells > 0 then cells else 0);
    }

    // -------------------------------------------------------------- generation and locking

    method FinishGeneration()
      modifies this, generation
      ensures View() == Finish(env, old(View()))
    {
      if generation.pending.None? {
        return;
      }
      ghost var start := View();
      var g := generation.pending.value;
      var usedIhs := generation.bufferedHold && g.allowBufferedHold;
      var rotation := generation.bufferedRotation;
      generation.Clear();
      var kind := TakeGeneratedKind(g, usedIhs);
      assert View() == start.(
        generation := None, bufferedHold := false, bufferedRotation := None, hold := hold, cursor := cursor);
      var placed := FindPlacement(env, board, kind, rotation, HighestSpawn(env, g.allowClutchLift));
      PutGenerated(g, usedIhs, placed);
      ResetTimers(if rotation.Some? && placed.irsKick.Some?
                  then Some(LastRotation(rotation.value, placed.irsKick.value)) else None);
    }

    /** A used buffered hold swaps the incoming kind with the held one, or with the next piece. */
    method TakeGeneratedKind(g: Generation, usedIhs: bool) returns (kind: Kind)
      modifies this
      ensures kind == if !usedIhs then g.incoming
                      else if old(hold).Some? then old(hold).value else env.pieces(old(cursor))
      ensures View() == old(View()).(
                hold := if usedIhs then Some(g.incoming) else old(hold),
                cursor := old(cursor) + (if usedIhs && old(hold).None? then 1 else 0))
    {
      kind := g.incoming;
      if usedIhs {
        if hold.Some? {
          kind := hold.value;
        } else {
          kind := env.pieces(cursor);
          cursor := cursor + 1;
        }
        hold := Some(g.incoming);
      }
    }

    method Place(piece: Option<Piece>)
      modifies this
      ensures View() == old(View()).(active := piece, toppedOut := piece.None?)
    {
      active := piece;
      toppedOut := piece.None?;
    }

    method NoteSpawn(cause: SpawnCause, kind: Kind, liftedRows: int)
      modifies this
      ensures View() == old(View()).(frameSpawns := old(frameSpawns) + [SpawnEvent(cause, kind, liftedRows)])
    {
      frameSpawns := frameSpawns + [SpawnEvent(cause, kind, liftedRows)];
    }

    method AllowHold(allowed: bool)
      modifies this
      ensures View() == old(View()).(canHold := allowed)
    {
      canHold := allowed;
    }

    method PutGenerated(g: Generation, usedIhs: bool, placed: Placement)
      modifies this
      ensures View() == old(View()).(
                active := placed.active,
                canHold := if usedIhs then false else g.canHoldWithoutBuffer,
                toppedOut := placed.active.None?,
                frameSpawns := if g.cause.Some? && placed.active.Some?
                               then old(frameSpawns) + [SpawnEvent(g.cause.value, placed.active.value.kind, placed.liftedRows)]
                               else old(frameSpawns))
    {
      Place(placed.active);
      AllowHold(if usedIhs then false else g.canHoldWithoutBuffer);
      if g.cause.Some? && placed.active.Some? {
        NoteSpawn(g.cause.value, placed.active.value.kind, placed.liftedRows);
      }
    }

    method ResetTimers(rotation: Option<LastRotation>)
      modifies this
      ensures View() == old(View()).(gravityRemainder := 0, lockFrames := 0, lockResets := 0, lastRotation := rotation)
    {
      gravityRemainder, lockFrames, lockResets := 0, 0, 0;
      lastRotation := rotation;
    }

    method HoldActive() returns (fault: Option<Fault>)
      modifies this, generation
      ensures match PerformHold(env, old(View()))
              case Ok(t) => fault.None? && View() == t
              case Err(f) => fault == Some(f)
    {
      if !canHold || active.None? {
        return None;
      }
      var current := active.value.kind;
      var replacement;
      if hold.Some? {
        replacement := hold.value;
      } else {
        replacement := env.pieces(cursor);
        cursor := cursor + 1;
      }
      hold := Some(current);
      canHold := false;
      fault := generation.Request(Generation(replacement, false, Some(ByHold), allowClutchLift, false));
      if fault.None? {
        FinishGeneration();
      }
    }

    method LockActive(frame: int, cause: SpawnCause) returns (fault: Option<Fault>)
      requires cause != ByHold
      modifies this, generation
      ensures match Lock(env, old(View()), frame, cause)
              case Ok(t) => fault.None? && View() == t
              case Err(f) => fault == Some(f)
    {
      if active.None? {
        return None;
      }
      var resolution := ResolveLock(env, View(), frame);
      if resolution.Err? {
        return Some(resolution.error);
      }
      fault := Settle(resolution.value, cause);
    }

    method RecordAttack(o: LockOutcome)
      modifies this
      ensures View() == old(View()).(
                combo := o.combo, streak := o.streak, totalAttackSent := o.totalAttackSent, rollCursor := o.rollCursor)
    {
      combo, streak, totalAttackSent, rollCursor := o.combo, o.streak, o.totalAttackSent, o.rollCursor;
    }

    method RecordBoard(o: LockOutcome)
      modifies this
      ensures View() == old(View()).(board := o.board, pendingGarbage := o.pendingGarbage, toppedOut := o.toppedOut)
    {
      board, pendingGarbage, toppedOut := o.board, o.pendingGarbage, o.toppedOut;
    }

    method RecordLock(summary: LockSummary)
      modifies this
      ensures View() == old(View()).(
                piecesPlaced := old(piecesPlaced) + 1, frameLocks := old(frameLocks) + [summary],
                allowClutchLift := summary.lines > 0)
    {
      piecesPlaced := piecesPlaced + 1;
      frameLocks := frameLocks + [summary];
      allowClutchLift := summary.lines > 0;
    }

    method Record(o: LockOutcome)
      modifies this
      ensures View() == old(View()).(
                board := o.board, combo := o.combo, streak := o.streak, totalAttackSent := o.totalAttackSent,
                pendingGarbage := o.pendingGarbage, toppedOut := o.toppedOut, rollCursor := o.rollCursor,
                piecesPlaced := old(piecesPlaced) + 1, frameLocks := old(frameLocks) + [o.summary],
                allowClutchLift := o.summary.lines > 0)
    {
      RecordAttack(o);
      RecordBoard(o);
      RecordLock(o.summary);
    }

    /** Records a resolved lock and requests the next piece unless the player topped out. */
    method Settle(o: LockOutcome, cause: SpawnCause) returns (fault: Option<Fault>)
      requires cause != ByHold
      modifies this, generation
      ensures match AfterLock(env, old(View()), o, cause)
              case Ok(t) => fault.None? && View() == t
              case Err(f) => fault == Some(f)
    {
      Record(o);
      if toppedOut {
        return None;
      }
      var next := env.pieces(cursor);
      cursor := cursor + 1;
      fault := generation.Request(Generation(next, true, Some(cause), allowClutchLift, true));
    }

    method TickLock(frame: int) returns (fault: Option<Fault>)
      modifies this, generation
      ensures match AdvanceLock(env, old(View()), frame)
              case Ok(t) => fault.None? && View() == t
              case Err(f) => fault == Some(f)
    {
      if active.None? {
        return None;
      }
      if PlacementValid(board, Below(active.value)) {
        lockFrames := 0;
        return None;
      }
      lockFrames := lockFrames + 1;
      if lockFrames >= env.rules.lockDelayFrames {
        fault := LockActive(frame, Automatic);
      } else {
        fault := None;
      }
    }

    // -------------------------------------------------------------- frames

    method Perform(action: Action, frame: int) returns (fault: Option<Fault>)
      modifies this, generation
      ensures match ApplyAction(env, old(View()), action, frame)
              case Ok(t) => fault.None? && View() == t
              case Err(f) => fault == Some(f)
    {
      fault := None;
      if action.ClearHeld? {
        ClearHeld();
        return;
      }
      if active.None? || toppedOut {
        return;
      }
      match action
      case Move(side, pressed) => SetHorizontalInput(side, pressed);
      case MoveStep(side) => var moved := Shift(side);
      case MoveToWall(side) => ShiftToWall(side);
      case SoftDrop(pressed) => held := held.(softDrop := pressed);
      case SoftDropStep(cells) => DropBy(if cells > 0 then cells else 0);
      case SonicDrop => DropToFloor();
      case Rotate(direction) => RotateActive(direction);
      case Hold => fault := HoldActive();
      case HardDrop =>
        DropToFloor();
        fault := LockActive(frame, ByHardDrop);
    }

    method PerformAll(actions: seq<Action>, frame: int) returns (fault: Option<Fault>)
      modifies this, generation
      ensures match ActionPhase(env, old(View()), actions, frame)
              case Ok(t) => fault.None? && View() == t
              case Err(f) => fault == Some(f)
    {
      ghost var end := TakeActions(env, View(), actions, frame);
      for i := 0 to |actions|
        invariant TakeActions(env, View(), actions[i..], frame) == end
      {
        ghost var before := View();
        assert actions[i..][0] == actions[i] && actions[i..][1..] == actions[i + 1..];
        var disposition := generation.Consume(actions[i]);
        if disposition.Buffered? {
          assert Ok(View()) == TakeAction(env, before, actions[i], frame);
          continue;
        }
        if disposition.FinishFirst? {
          FinishGeneration();
        }
        assert View() == Finish(env, before);
        fault := Perform(actions[i], frame);
        if fault.Some? {
          return;
        }
      }
      FinishGeneration();
      fault := None;
    }

    method ClearReports()
      modifies this
      ensures View() == FreshFrame(old(View()))
    {
      frameLocks, frameSpawns := [], [];
    }

    /** The held direction repeats, gravity pulls, and the lock delay runs. */
    method RunClocks(frame: int) returns (fault: Option<Fault>)
      requires RulesOk(env.rules)
      modifies this, generation
      ensures match ClockPhase(env, old(View()), frame)
              case Ok(t) => fault.None? && View() == t
              case Err(f) => fault == Some(f)
    {
      if toppedOut || active.None? {
        return None;
      }
      RepeatHeldDirection();
      FallByGravity();
      fault := TickLock(frame);
      if fault.None? {
        FinishGeneration();
      }
    }

    /** Everything the object promises of one frame: its state and its report are those of the transition. */
    method AdvanceOneFrame(frame: int, actions: seq<Action>) returns (r: Result<FrameResult, Fault>)
      requires RulesOk(env.rules)
      modifies this, generation
      ensures match AdvanceFrame(env, old(View()), frame, actions)
              case Ok(t) => r == Ok(t) && View() == t.sim
              case Err(f) => r == Err(f)
    {
      if frame < 1 {
        return Err(InvalidFrame);
      }
      if |actions| > 64 {
        return Err(TooManyActions);
      }
      var wasToppedOut := toppedOut;
      ClearReports();
      if !toppedOut {
        var fault := PerformAll(actions, frame);
        if fault.Some? {
          return Err(fault.value);
        }
        fault := RunClocks(frame);
        if fault.Some? {
          return Err(fault.value);
        }
      }
      return Ok(FrameResult(View(), Outgoing(frameLocks), !wasToppedOut && toppedOut, toppedOut));
    }
  }
}

/**
 One player's authoritative simulation as a state and its transitions: generation with buffered
 hold and rotation, movement, gravity, locking, attack and garbage. Errors the simulation raises
 are faults.
 */
module Simulation {
  import opened Wrappers
  import opened Pieces
  import opened Boards
  import opened Garbage
  import opened Attack
  import opened Rotation

  const MICROS_PER_CELL: int := 1_000_000

  datatype Rules = Rules(
    tickRateHz: int,
    spawnX: int,
    spawnY: int,
    dasFrames: int,
    arrFrames: int,
    gravityMicrosPerSecond: int,
    softDropMicrosPerSecond: int,
    lockDelayFrames: int,
    lockResetLimit: int,
    garbageTravelFrames: int,
    garbageCap: int,
    nextPreviewCount: int)

  predicate RulesOk(r: Rules) {
    && 60 <= r.tickRateHz <= 1000
    && r.arrFrames >= 0
    && r.spawnY <= HEIGHT
  }

  /** Everything a player's simulation consults but never changes. */
  datatype Env = Env(
    rules: Rules,
    kicks: KickTable,
    pieces: nat -> Kind,
    rolls: nat -> real,
    logScale: nat -> real)

  datatype Side = Left | Right

  datatype Action =
    | Move(side: Side, pressed: bool)
    | MoveStep(side: Side)
    | MoveToWall(side: Side)
    | SoftDrop(pressed: bool)
    | SoftDropStep(cells: int)
    | SonicDrop
    | ClearHeld
    | HardDrop
    | Rotate(direction: Direction)
    | Hold

  datatype SpawnCause = Automatic | ByHardDrop | ByHold

  datatype Generation = Generation(
    incoming: Kind,
    canHoldWithoutBuffer: bool,
    cause: Option<SpawnCause>,
    allowClutchLift: bool,
    allowBufferedHold: bool)

  datatype LockSummary = LockSummary(
    piece: Kind,
    lines: nat,
    spin: Spin,
    combo: int,
    backToBack: nat,
    perfectClear: bool,
    clearedGarbageLines: nat,
    cancelledGarbage: nat,
    outgoingAttacks: seq<nat>,
    appliedGarbageHoles: seq<int>)

  datatype SpawnEvent = SpawnEvent(cause: SpawnCause, piece: Kind, liftedRows: int)

  type FieldBoard = b: Board | IsBoard(b) witness Board(Repeat({}, HEIGHT), Repeat(false, HEIGHT))

  type Queue = ps: seq<Packet> | PacketsOk(ps) witness []

  type Combo = c: int | c >= -1 witness -1

  datatype Held = Held(left: bool, right: bool, softDrop: bool)

  datatype Sim = Sim(
    board: FieldBoard,
    active: Option<Piece>,
    hold: Option<Kind>,
    canHold: bool,
    combo: Combo,
    streak: nat,
    piecesPlaced: nat,
    totalAttackSent: nat,
    pendingGarbage: Queue,
    held: Held,
    horizontal: Option<Side>,
    horizontalFrames: int,
    gravityRemainder: int,
    lockFrames: int,
    lockResets: int,
    lastRotation: Option<LastRotation>,
    toppedOut: bool,
    allowClutchLift: bool,
    generation: Option<Generation>,
    bufferedHold: bool,
    bufferedRotation: Option<Direction>,
    cursor: nat,
    rollCursor: nat,
    frameLocks: seq<LockSummary>,
    frameSpawns: seq<SpawnEvent>)

  datatype Fault =
    | InvalidFrame | TooManyActions | CannotLock | AlreadyPending
    | AttackTableMiss | BadRoll | BadGarbageBoundary | TooManyGarbageRows | BadPacket

  // ---------------------------------------------------------------- movement

  function Step(p: Piece, side: Side): Piece { p.(x := p.x + (if side.Left? then -1 else 1)) }

  function Below(p: Piece): Piece { p.(y := p.y - 1) }

  predicate Grounded(s: Sim)
    requires s.active.Some?
  {
    !PlacementValid(s.board, Below(s.active.value))
  }

  /** Accepts a candidate that fits; a move off the ground restarts the lock delay while resets remain. */
  function Manipulate(env: Env, s: Sim, candidate: Piece, rotation: Option<LastRotation>): Sim {
    if s.active.None? || !PlacementValid(s.board, candidate) then s
    else
      var moved := s.(active := Some(candidate), lastRotation := rotation);
      if Grounded(s) && s.lockResets < env.rules.lockResetLimit
      then moved.(lockFrames := 0, lockResets := s.lockResets + 1)
      else moved
  }

  predicate CanStep(s: Sim, side: Side) { s.active.Some? && PlacementValid(s.board, Step(s.active.value, side)) }

  function MoveHorizontal(env: Env, s: Sim, side: Side): Sim {
    if s.active.None? then s else Manipulate(env, s, Step(s.active.value, side), None)
  }

  function Room(p: Piece, side: Side): int { if side.Left? then p.x + 4 else WIDTH + 1 - p.x }

  lemma FittingPieceHasRoom(b: Board, p: Piece, side: Side)
    requires IsBoard(b) && PlacementValid(b, p)
    ensures -3 <= p.x < WIDTH && -3 <= p.y < HEIGHT && Room(p, side) >= 1
  {
    LocalCellsFillTheBox(p.kind, p.rotation);
    assert CellFree(b, WorldCell(p, 0));
  }

  /** Repeats a horizontal move until it is refused. */
  function MoveToTheWall(env: Env, s: Sim, side: Side): Sim
    decreases if CanStep(s, side) then Room(Step(s.active.value, side), side) + 1 else 0
  {
    if !CanStep(s, side) then s
    else
      FittingPieceHasRoom(s.board, Step(s.active.value, side), side);
      var moved := MoveHorizontal(env, s, side);
      assert CanStep(moved, side) ==> Room(Step(moved.active.value, side), side) < Room(Step(s.active.value, side), side);
      MoveToTheWall(env, moved, side)
  }

  predicate CanFall(s: Sim) { s.active.Some? && PlacementValid(s.board, Below(s.active.value)) }

  /** Moves down by at most `cells` cells. */
  function Fall(s: Sim, cells: nat): Sim
    decreases cells
  {
    if cells == 0 || !CanFall(s) then s
    else Fall(s.(active := Some(Below(s.active.value))), cells - 1)
  }

  /** Moves down until the piece rests. */
  function FallToFloor(s: Sim): Sim
    decreases if CanFall(s) then s.active.value.y + 4 else 0
  {
    if !CanFall(s) then s
    else
      FittingPieceHasRoom(s.board, Below(s.active.value), Left);
      FallToFloor(s.(active := Some(Below(s.active.value))))
  }

  function Turn(env: Env, s: Sim, direction: Direction): Sim {
    if s.active.None? then s
    else match TryRotate(env.kicks, s.board, s.active.value, direction)
      case None => s
      case Some(r) => Manipulate(env, s, r.piece, Some(LastRotation(direction, r.kickIndex)))
  }

  function Other(side: Side): Side { if side.Left? then Right else Left }

  predicate HoldsSide(h: Held, side: Side) { if side.Left? then h.left else h.right }

  function WithSide(h: Held, side: Side, pressed: bool): Held {
    if side.Left? then h.(left := pressed) else h.(right := pressed)
  }

  function SetHorizontal(env: Env, s: Sim, side: Side, pressed: bool): Sim {
    var already := HoldsSide(s.held, side);
    var held := s.(held := WithSide(s.held, side, pressed));
    if pressed && !already then
      MoveHorizontal(env, held.(horizontal := Some(side), horizontalFrames := 0), side)
    else if !pressed && s.horizontal == Some(side) then
      if HoldsSide(s.held, Other(side)) then
        MoveHorizontal(env, held.(horizontal := Some(Other(side)), horizontalFrames := 0), Other(side))
      else held.(horizontal := None, horizontalFrames := 0)
    else held
  }

  function ClearHeldInput(s: Sim): Sim {
    s.(held := Held(false, false, false), horizontal := None, horizontalFrames := 0)
  }

  function RepeatHorizontal(env: Env, s: Sim): Sim
    requires RulesOk(env.rules)
  {
    if s.horizontal.None? || s.active.None? then s
    else
      var side := s.horizontal.value;
      var ticked := s.(horizontalFrames := s.horizontalFrames + 1);
      if ticked.horizontalFrames < env.rules.dasFrames then ticked
      else if env.rules.arrFrames == 0 then MoveToTheWall(env, ticked, side)
      else if (ticked.horizontalFrames - env.rules.dasFrames) % env.rules.arrFrames == 0 then
        MoveHorizontal(env, ticked, side)
      else ticked
  }

  function ApplyGravity(env: Env, s: Sim): Sim
    requires RulesOk(env.rules)
  {
    var rate :=
      if s.held.softDrop && env.rules.softDropMicrosPerSecond > env.rules.gravityMicrosPerSecond
      then env.rules.softDropMicrosPerSecond else env.rules.gravityMicrosPerSecond;
    var threshold := env.rules.tickRateHz * MICROS_PER_CELL;
    var total := s.gravityRemainder + rate;
    var cells := Garbage.Min(total / threshold, 40);
    Fall(s.(gravityRemainder := total % threshold), if cells > 0 then cells else 0)
  }

  // ---------------------------------------------------------------- generation

  datatype Placement = Placement(active: Option<Piece>, liftedRows: int, irsKick: Option<nat>)

  /** A buffered rotation is tried first; otherwise, or if it fails, the spawn footprint must be free. */
  function PlacementAt(env: Env, b: FieldBoard, kind: Kind, y: int, rotation: Option<Direction>): Placement {
    var base := Piece(kind, 0, env.rules.spawnX, y);
    var rotated := if rotation.None? then None else TryRotate(env.kicks, b, base, rotation.value);
    if rotated.Some? then Placement(Some(rotated.value.piece), y - env.rules.spawnY, Some(rotated.value.kickIndex))
    else if PlacementValid(b, base) then Placement(Some(base), y - env.rules.spawnY, None)
    else Placement(None, 0, None)
  }

  /** The upward search from `y` to `highest`. */
  function SearchPlacement(
    env: Env, b: FieldBoard, kind: Kind, rotation: Option<Direction>, y: int, highest: int): Placement
    decreases highest - y + 1
  {
    if y > highest then Placement(None, 0, None)
    else
      var placement := PlacementAt(env, b, kind, y, rotation);
      if placement.active.Some? then placement
      else SearchPlacement(env, b, kind, rotation, y + 1, highest)
  }

  function HighestSpawn(env: Env, allowClutchLift: bool): int {
    if allowClutchLift then HEIGHT - 1 else env.rules.spawnY
  }

  /** Registers the next piece to be generated. */
  function Request(
    s: Sim, kind: Kind, cause: Option<SpawnCause>, allowClutchLift: bool, allowBufferedHold: bool
  ): Result<Sim, Fault> {
    if s.generation.Some? then Err(AlreadyPending)
    else Ok(s.(generation := Some(Generation(kind, cause != Some(ByHold), cause, allowClutchLift, allowBufferedHold))))
  }

  /** Completes a pending generation: a buffered hold chooses the kind before a buffered rotation applies. */
  function Finish(env: Env, s: Sim): Sim {
    if s.generation.None? then s
    else
      var g := s.generation.value;
      var usedIhs := s.bufferedHold && g.allowBufferedHold;
      var drawn := usedIhs && s.hold.None?;
      var kind := if !usedIhs then g.incoming else if s.hold.Some? then s.hold.value else env.pieces(s.cursor);
      var placed := SearchPlacement(env, s.board, kind, s.bufferedRotation, env.rules.spawnY,
                                    HighestSpawn(env, g.allowClutchLift));
      s.(generation := None,
         bufferedHold := false,
         bufferedRotation := None,
         cursor := s.cursor + (if drawn then 1 else 0),
         active := placed.active,
         hold := if usedIhs then Some(g.incoming) else s.hold,
         canHold := if usedIhs then false else g.canHoldWithoutBuffer,
         toppedOut := placed.active.None?,
         frameSpawns := if g.cause.Some? && placed.active.Some?
                        then s.frameSpawns + [SpawnEvent(g.cause.value, placed.active.value.kind, placed.liftedRows)]
                        else s.frameSpawns,
         gravityRemainder := 0,
         lockFrames := 0,
         lockResets := 0,
         lastRotation := if s.bufferedRotation.Some? && placed.irsKick.Some?
                         then Some(LastRotation(s.bufferedRotation.value, placed.irsKick.value)) else None)
  }

  /** The active piece goes into the hold, and the held or next piece takes its place. */
  function SwapHold(env: Env, s: Sim): Sim
    requires s.active.Some?
  {
    s.(hold := Some(s.active.value.kind), canHold := false, cursor := s.cursor + (if s.hold.None? then 1 else 0))
  }

  function Replacement(env: Env, s: Sim): Kind { if s.hold.Some? then s.hold.value else env.pieces(s.cursor) }

  function PerformHold(env: Env, s: Sim): Result<Sim, Fault> {
    if !s.canHold || s.active.None? then Ok(s)
    else match Request(SwapHold(env, s), Replacement(env, s), Some(ByHold), s.allowClutchLift, false)
      case Err(f) => Err(f)
      case Ok(t) => Ok(Finish(env, t))
  }

  // ---------------------------------------------------------------- locking

  datatype LockOutcome = LockOutcome(
    board: FieldBoard,
    combo: Combo,
    streak: nat,
    totalAttackSent: nat,
    pendingGarbage: Queue,
    toppedOut: bool,
    rollCursor: nat,
    summary: LockSummary)

  /** A lock that cleared lines: attack, then cancellation packet by packet. */
  function ResolveClearing(env: Env, s: Sim, kind: Kind, locked: LockResult, spin: Spin): Result<LockOutcome, Fault>
    requires IsBoard(locked.board) && locked.Lines() > 0
  {
    if locked.Lines() > 4 then Err(AttackTableMiss)
    else
      var event := ClearEvent(locked.Lines(), spin, s.combo + 1, locked.perfectClear, locked.clearedGarbageLineCount > 0);
      var needsRoll := NeedsRoll(event, s.streak, env.logScale);
      var roll := if needsRoll then env.rolls(s.rollCursor) else 0.0;
      if needsRoll && !(0.0 <= roll < 1.0) then Err(BadRoll)
      else
        var attack := ResolveClear(event, s.streak, roll, env.logScale);
        var multiplier := OpenerMultiplier(s.piecesPlaced, Amount(s.pendingGarbage), s.totalAttackSent);
        var cancelled := CancelAll(s.pendingGarbage, [attack.clearAttack] + attack.surge, multiplier);
        Ok(LockOutcome(
          locked.board, s.combo + 1, attack.nextStreak, s.totalAttackSent + Sum(cancelled.2), cancelled.0, false,
          s.rollCursor + (if needsRoll then 1 else 0),
          LockSummary(kind, locked.Lines(), spin, s.combo + 1, DisplayedCount(attack.nextStreak), locked.perfectClear,
                      locked.clearedGarbageLineCount, cancelled.1, cancelled.2, [])))
  }

  /** A lock that cleared nothing: the combo ends and ready garbage enters. */
  function ResolvePlain(env: Env, s: Sim, kind: Kind, locked: LockResult, spin: Spin, frame: int): Result<LockOutcome, Fault>
    requires IsBoard(locked.board)
  {
    if frame < 0 || env.rules.garbageCap < 1 then Err(BadGarbageBoundary)
    else
      var taken := TakeReady(s.pendingGarbage, frame, env.rules.garbageCap);
      TakingConserves(s.pendingGarbage, frame, env.rules.garbageCap);
      match InsertGarbage(locked.board, taken.1)
      case None => Err(TooManyGarbageRows)
      case Some(inserted) =>
        InsertingKeepsBoard(locked.board, taken.1);
        Ok(LockOutcome(
          inserted.board, -1, s.streak, s.totalAttackSent, taken.0, inserted.overflowed, s.rollCursor,
          LockSummary(kind, locked.Lines(), spin, -1, DisplayedCount(s.streak), locked.perfectClear,
                      locked.clearedGarbageLineCount, 0, [], taken.1)))
  }

  function ResolveLock(env: Env, s: Sim, frame: int): Result<LockOutcome, Fault>
    requires s.active.Some?
  {
    var piece := s.active.value;
    if !PlacementValid(s.board, piece) then Err(CannotLock)
    else
      var locked := LockPiece(s.board, piece).value;
      LockingLeavesNoFullRow(s.board, piece);
      var spin := ClassifySpin(s.board, piece, s.lastRotation);
      if locked.Lines() > 0 then ResolveClearing(env, s, piece.kind, locked, spin)
      else ResolvePlain(env, s, piece.kind, locked, spin, frame)
  }

  /** The state after a resolved lock, with the next piece requested unless the player topped out. */
  function AfterLock(env: Env, s: Sim, o: LockOutcome, cause: SpawnCause): Result<Sim, Fault> {
    var locked := s.(
      board := o.board, combo := o.combo, streak := o.streak, totalAttackSent := o.totalAttackSent,
      pendingGarbage := o.pendingGarbage, toppedOut := o.toppedOut, rollCursor := o.rollCursor,
      piecesPlaced := s.piecesPlaced + 1, frameLocks := s.frameLocks + [o.summary],
      allowClutchLift := o.summary.lines > 0);
    if o.toppedOut then Ok(locked)
    else Request(locked.(cursor := s.cursor + 1), env.pieces(s.cursor), Some(cause), locked.allowClutchLift, true)
  }

  function Lock(env: Env, s: Sim, frame: int, cause: SpawnCause): Result<Sim, Fault> {
    if s.active.None? then Ok(s)
    else match ResolveLock(env, s, frame)
      case Err(f) => Err(f)
      case Ok(o) => AfterLock(env, s, o, cause)
  }

  function WithLockFrames(s: Sim, frames: int): Sim { s.(lockFrames := frames) }

  function AdvanceLock(env: Env, s: Sim, frame: int): Result<Sim, Fault> {
    if s.active.None? then Ok(s)
    else if !Grounded(s) then Ok(WithLockFrames(s, 0))
    else if s.lockFrames + 1 < env.rules.lockDelayFrames then Ok(WithLockFrames(s, s.lockFrames + 1))
    else Lock(env, WithLockFrames(s, s.lockFrames + 1), frame, Automatic)
  }

  // ---------------------------------------------------------------- actions and frames

  function ApplyAction(env: Env, s: Sim, action: Action, frame: int): Result<Sim, Fault> {
    if action.ClearHeld? then Ok(ClearHeldInput(s))
    else if s.active.None? || s.toppedOut then Ok(s)
    else match action
      case Move(side, pressed) => Ok(SetHorizontal(env, s, side, pressed))
      case MoveStep(side) => Ok(MoveHorizontal(env, s, side))
      case MoveToWall(side) => Ok(MoveToTheWall(env, s, side))
      case SoftDrop(pressed) => Ok(s.(held := s.held.(softDrop := pressed)))
      case SoftDropStep(cells) => Ok(Fall(s, if cells > 0 then cells else 0))
      case SonicDrop => Ok(FallToFloor(s))
      case Rotate(direction) => Ok(Turn(env, s, direction))
      case Hold => PerformHold(env, s)
      case HardDrop => Lock(env, FallToFloor(s), frame, ByHardDrop)
      case ClearHeld => Ok(ClearHeldInput(s))
  }

  /** While a generation is pending, holds and rotations are buffered; anything else completes it first. */
  function TakeAction(env: Env, s: Sim, action: Action, frame: int): Result<Sim, Fault> {
    if s.generation.Some? && action.Hold? then Ok(s.(bufferedHold := true))
    else if s.generation.Some? && action.Rotate? then Ok(s.(bufferedRotation := Some(action.direction)))
    else ApplyAction(env, Finish(env, s), action, frame)
  }

  function TakeActions(env: Env, s: Sim, actions: seq<Action>, frame: int): Result<Sim, Fault>
    decreases |actions|
  {
    if actions == [] then Ok(s)
    else match TakeAction(env, s, actions[0], frame)
      case Err(f) => Err(f)
      case Ok(t) => TakeActions(env, t, actions[1..], frame)
  }

  /** The player's part of a frame: the actions in order, then any generation they left pending. */
  function ActionPhase(env: Env, s: Sim, actions: seq<Action>, frame: int): Result<Sim, Fault> {
    match TakeActions(env, s, actions, frame)
    case Err(f) => Err(f)
    case Ok(t) => Ok(Finish(env, t))
  }

  /** The clock's part of a frame: repeated movement, gravity and the lock delay. */
  function ClockPhase(env: Env, s: Sim, frame: int): Result<Sim, Fault>
    requires RulesOk(env.rules)
  {
    if s.toppedOut || s.active.None? then Ok(s)
    else match AdvanceLock(env, ApplyGravity(env, RepeatHorizontal(env, s)), frame)
      case Err(f) => Err(f)
      case Ok(t) => Ok(Finish(env, t))
  }

  datatype FrameResult = FrameResult(
    sim: Sim, outgoingAttacks: seq<nat>, newlyToppedOut: bool, toppedOut: bool)

  function Outgoing(locks: seq<LockSummary>): seq<nat> {
    if locks == [] then [] else Outgoing(locks[..|locks| - 1]) + locks[|locks| - 1].outgoingAttacks
  }

  function FreshFrame(s: Sim): Sim { s.(frameLocks := [], frameSpawns := []) }

  function AdvanceFrame(env: Env, s: Sim, frame: int, actions: seq<Action>): Result<FrameResult, Fault>
    requires RulesOk(env.rules)
  {
    if frame < 1 then Err(InvalidFrame)
    else if |actions| > 64 then Err(TooManyActions)
    else if s.toppedOut then Ok(FrameResult(FreshFrame(s), [], false, true))
    else match ActionPhase(env, FreshFrame(s), actions, frame)
      case Err(f) => Err(f)
      case Ok(acted) =>
        match ClockPhase(env, acted, frame)
        case Err(f) => Err(f)
        case Ok(t) => Ok(FrameResult(t, Outgoing(t.frameLocks), t.toppedOut, t.toppedOut))
  }

  function QueueGarbage(s: Sim, p: Packet): Result<Sim, Fault> {
    if s.toppedOut then Ok(s)
    else if !PacketOk(p) then Err(BadPacket)
    else Ok(s.(pendingGarbage := s.pendingGarbage + [p]))
  }

  /** A new simulation draws its first piece and places it without a lift. */
  function NewSim(env: Env, board: FieldBoard): Sim {
    Finish(env, Sim(
      board, None, None, true, -1, 0, 0, 0, [], Held(false, false, false), None, 0, 0, 0, 0, None, false, false,
      Some(Generation(env.pieces(0), true, None, false, false)), false, None, 1, 0, [], []))
  }
}

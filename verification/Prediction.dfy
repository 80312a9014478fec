/** The client's prediction of its own player: the same board rules, without attack, garbage or lock delay. */
module Prediction {
  import opened Wrappers
  import opened Pieces
  import opened Boards
  import opened Rotation
  import opened Simulation

  const SPAWN_X: int := 3
  const SPAWN_Y: int := 17
  const FAR: nat := 40

  /** The part of a player's public state that prediction reads or changes. */
  datatype Client = Client(
    board: FieldBoard,
    active: Option<Piece>,
    hold: Option<Kind>,
    next: seq<Kind>,
    pieceCursor: nat,
    combo: int,
    piecesPlaced: nat,
    canHold: bool,
    toppedOut: bool)

  function MoveVertical(board: FieldBoard, piece: Piece, cells: nat): Piece
    decreases cells
  {
    if cells == 0 || !PlacementValid(board, Below(piece)) then piece else MoveVertical(board, Below(piece), cells - 1)
  }

  method MoveVerticalByLoop(board: FieldBoard, piece: Piece, cells: int) returns (moved: Piece)
    ensures moved == MoveVertical(board, piece, if cells > 0 then cells else 0)
  {
    moved := piece;
    var remaining := cells;
    while remaining > 0
      invariant MoveVertical(board, moved, if remaining > 0 then remaining else 0)
             == MoveVertical(board, piece, if cells > 0 then cells else 0)
    {
      var candidate := Below(moved);
      if !PlacementValid(board, candidate) {
        break;
      }
      moved := candidate;
      remaining := remaining - 1;
    }
  }

  function SpawnPiece(kind: Kind, y: int): Piece { Piece(kind, 0, SPAWN_X, y) }

  /** The lowest legal spawn at or above `y`. */
  function LiftedSpawn(board: FieldBoard, kind: Kind, y: int): Option<Piece>
    decreases HEIGHT - y
  {
    if y >= HEIGHT then None
    else if PlacementValid(board, SpawnPiece(kind, y)) then Some(SpawnPiece(kind, y))
    else LiftedSpawn(board, kind, y + 1)
  }

  function FindSpawn(board: FieldBoard, kind: Kind, allowClutchLift: bool): Option<Piece> {
    if PlacementValid(board, SpawnPiece(kind, SPAWN_Y)) then Some(SpawnPiece(kind, SPAWN_Y))
    else if !allowClutchLift then None
    else LiftedSpawn(board, kind, SPAWN_Y + 1)
  }

  /** The upward search for a spawn. */
  method FindSpawnByLoop(board: FieldBoard, kind: Kind, allowClutchLift: bool) returns (found: Option<Piece>)
    ensures found == FindSpawn(board, kind, allowClutchLift)
  {
    var normal := SpawnPiece(kind, SPAWN_Y);
    if PlacementValid(board, normal) {
      return Some(normal);
    }
    if !allowClutchLift {
      return None;
    }
    for y := SPAWN_Y + 1 to HEIGHT
      invariant LiftedSpawn(board, kind, y) == LiftedSpawn(board, kind, SPAWN_Y + 1)
    {
      var piece := normal.(y := y);
      if PlacementValid(board, piece) {
        return Some(piece);
      }
    }
    return None;
  }

  function SpawnAfterDraw(c: Client, board: FieldBoard, allowClutchLift: bool): Client {
    if c.next == [] then c.(board := board, active := None, toppedOut := true)
    else
      var placed := FindSpawn(board, c.next[0], allowClutchLift);
      c.(board := board, active := placed, next := c.next[1..], pieceCursor := c.pieceCursor + 1,
         canHold := true, toppedOut := placed.None?)
  }

  /** None stands for the error the lock would raise; a piece that fits never raises it. */
  function PredictHardDrop(c: Client): Option<Client> {
    if c.active.None? then Some(c)
    else
      var locked := LockPiece(c.board, MoveVertical(c.board, c.active.value, FAR));
      if locked.None? then None
      else
        LockingLeavesNoFullRow(c.board, MoveVertical(c.board, c.active.value, FAR));
        var cleared := locked.value.Lines() > 0;
        Some(SpawnAfterDraw(
          c.(active := None, piecesPlaced := c.piecesPlaced + 1, combo := if cleared then c.combo + 1 else -1),
          locked.value.board, cleared))
  }

  predicate HoldTakes(c: Client) { c.canHold && c.active.Some? && (c.hold.Some? || c.next != []) }

  function PredictHold(c: Client): Client {
    if !HoldTakes(c) then c
    else
      var replacement := if c.hold.Some? then c.hold.value else c.next[0];
      var placed := FindSpawn(c.board, replacement, false);
      c.(active := placed, hold := Some(c.active.value.kind),
         next := if c.hold.None? then c.next[1..] else c.next,
         pieceCursor := c.pieceCursor + (if c.hold.None? then 1 else 0),
         canHold := false, toppedOut := placed.None?)
  }

  function PredictRotate(kicks: KickTable, c: Client, direction: Direction): Client {
    if c.active.None? || c.toppedOut then c
    else match TryRotate(kicks, c.board, c.active.value, direction)
      case None => c
      case Some(r) => c.(active := Some(r.piece))
  }

  function StepOnce(board: FieldBoard, piece: Piece, side: Side): Piece {
    if PlacementValid(board, Step(piece, side)) then Step(piece, side) else piece
  }

  /** Repeats the step until it is refused. */
  function StepToWall(board: FieldBoard, piece: Piece, side: Side): Piece
    decreases if PlacementValid(board, Step(piece, side)) then Room(Step(piece, side), side) + 1 else 0
  {
    if !PlacementValid(board, Step(piece, side)) then piece
    else
      FittingPieceHasRoom(board, Step(piece, side), side);
      StepToWall(board, Step(piece, side), side)
  }

  method StepToWallByLoop(board: FieldBoard, piece: Piece, side: Side) returns (moved: Piece)
    ensures moved == StepToWall(board, piece, side)
  {
    moved := piece;
    while true
      invariant StepToWall(board, moved, side) == StepToWall(board, piece, side)
      decreases if PlacementValid(board, Step(moved, side)) then Room(Step(moved, side), side) + 1 else 0
    {
      var candidate := Step(moved, side);
      if !PlacementValid(board, candidate) {
        break;
      }
      FittingPieceHasRoom(board, candidate, side);
      moved := candidate;
    }
  }

  function PredictAction(kicks: KickTable, c: Client, action: Action): Option<Client> {
    if c.active.None? || c.toppedOut then Some(c)
    else
      var piece := c.active.value;
      match action
      case HardDrop => PredictHardDrop(c)
      case Hold => Some(PredictHold(c))
      case Rotate(direction) => Some(PredictRotate(kicks, c, direction))
      case SonicDrop => Some(c.(active := Some(MoveVertical(c.board, piece, FAR))))
      case SoftDropStep(cells) => Some(c.(active := Some(MoveVertical(c.board, piece, if cells > 0 then cells else 0))))
      case MoveStep(side) => Some(c.(active := Some(StepOnce(c.board, piece, side))))
      case MoveToWall(side) => Some(c.(active := Some(StepToWall(c.board, piece, side))))
      case Move(side, pressed) => Some(if pressed then c.(active := Some(StepOnce(c.board, piece, side))) else c)
      case SoftDrop(_) => Some(c)
      case ClearHeld => Some(c)
  }

  /** Prediction in progress: after a drop or a hold, rotations and holds are buffered. */
  datatype Predicting = Predicting(
    client: Client, pending: bool, bufferedHold: bool, bufferedRotation: Option<Direction>, causes: seq<SpawnCause>)

  function FinishPredicted(kicks: KickTable, p: Predicting): Predicting {
    if !p.pending then p
    else
      var held := if p.bufferedHold then PredictHold(p.client) else p.client;
      var turned := if p.bufferedRotation.Some? then PredictRotate(kicks, held, p.bufferedRotation.value) else held;
      Predicting(turned, false, false, None, p.causes)
  }

  function PredictNext(kicks: KickTable, p: Predicting, action: Action): Option<Predicting> {
    if p.pending && action.Hold? then Some(p.(bufferedHold := true))
    else if p.pending && action.Rotate? then Some(p.(bufferedRotation := Some(action.direction)))
    else
      var settled := FinishPredicted(kicks, p);
      match PredictAction(kicks, settled.client, action)
      case None => None
      case Some(c) =>
        var before := settled.client;
        if action.HardDrop? && c.piecesPlaced > before.piecesPlaced then
          Some(settled.(client := c, causes := settled.causes + [ByHardDrop], pending := true))
        else if action.Hold? && !before.toppedOut && HoldTakes(before) then
          Some(settled.(client := c, causes := settled.causes + [ByHold], pending := true))
        else Some(settled.(client := c))
  }

  function PredictAll(kicks: KickTable, p: Predicting, actions: seq<Action>): Option<Predicting>
    decreases |actions|
  {
    if actions == [] then Some(p)
    else match PredictNext(kicks, p, actions[0])
      case None => None
      case Some(q) => PredictAll(kicks, q, actions[1..])
  }

  function Begin(c: Client): Predicting { Predicting(c, false, false, None, []) }

  /** The predicted state and the spawns it expects; None stands for the error of a lock out of place. */
  function Predict(kicks: KickTable, c: Client, actions: seq<Action>): Option<Predicting> {
    match PredictAll(kicks, Begin(c), actions)
    case None => None
    case Some(p) => Some(FinishPredicted(kicks, p))
  }

  /** The loop over the batch. */
  method PredictByLoop(kicks: KickTable, initial: Client, actions: seq<Action>) returns (r: Option<(Client, seq<SpawnCause>)>)
    ensures match Predict(kicks, initial, actions)
            case None => r == None
            case Some(p) => r == Some((p.client, p.causes))
  {
    var client, causes := initial, [];
    var pending, bufferedHold, bufferedRotation := false, false, None;
    for i := 0 to |actions|
      invariant PredictAll(kicks, Predicting(client, pending, bufferedHold, bufferedRotation, causes), actions[i..])
             == PredictAll(kicks, Begin(initial), actions)
      invariant !pending ==> !bufferedHold && bufferedRotation.None?
    {
      var action := actions[i];
      assert actions[i..][0] == action && actions[i..][1..] == actions[i + 1..];
      if pending && action.Hold? {
        bufferedHold := true;
        continue;
      }
      if pending && action.Rotate? {
        bufferedRotation := Some(action.direction);
        continue;
      }
      ghost var p := Predicting(client, pending, bufferedHold, bufferedRotation, causes);
      if pending {
        if bufferedHold {
          client := PredictHold(client);
        }
        if bufferedRotation.Some? {
          client := PredictRotate(kicks, client, bufferedRotation.value);
        }
        pending, bufferedHold, bufferedRotation := false, false, None;
      }
      assert Predicting(client, pending, bufferedHold, bufferedRotation, causes) == FinishPredicted(kicks, p);
      var previous := client;
      var after := PredictAction(kicks, previous, action);
      if after.None? {
        return None;
      }
      client := after.value;
      if action.HardDrop? && client.piecesPlaced > previous.piecesPlaced {
        causes := causes + [ByHardDrop];
        pending := true;
      } else if action.Hold? && !previous.toppedOut && HoldTakes(previous) {
        causes := causes + [ByHold];
        pending := true;
      }
    }
    if pending {
      if bufferedHold {
        client := PredictHold(client);
      }
      if bufferedRotation.Some? {
        client := PredictRotate(kicks, client, bufferedRotation.value);
      }
    }
    return Some((client, causes));
  }
}

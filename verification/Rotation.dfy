/** Rotation with kick tests. The kick table is a parameter: every result holds for any table. */
module Rotation {
  import opened Wrappers
  import opened Pieces
  import opened Boards

  type KickTable = (Kind, nat, Direction) -> seq<Cell>

  datatype Rotated = Rotated(piece: Piece, kickIndex: nat)

  function Kicked(p: Piece, direction: Direction, kick: Cell): Piece {
    Piece(p.kind, TargetRotation(p.rotation, direction), p.x + kick.x, p.y + kick.y)
  }

  /** The first kick at or after index `from` whose candidate fits. */
  function FirstKick(b: Board, p: Piece, direction: Direction, kicks: seq<Cell>, from: nat): Option<Rotated>
    requires IsBoard(b) && from <= |kicks|
    decreases |kicks| - from
  {
    if from == |kicks| then None
    else if PlacementValid(b, Kicked(p, direction, kicks[from])) then
      Some(Rotated(Kicked(p, direction, kicks[from]), from))
    else FirstKick(b, p, direction, kicks, from + 1)
  }

  function TryRotate(table: KickTable, b: Board, p: Piece, direction: Direction): Option<Rotated>
    requires IsBoard(b)
  {
    FirstKick(b, p, direction, table(p.kind, p.rotation, direction), 0)
  }

  /** The index loop over the kick tests. */
  method TryRotateByLoop(table: KickTable, b: Board, p: Piece, direction: Direction) returns (r: Option<Rotated>)
    requires IsBoard(b)
    ensures r == TryRotate(table, b, p, direction)
  {
    var kicks := table(p.kind, p.rotation, direction);
    for kickIndex := 0 to |kicks|
      invariant FirstKick(b, p, direction, kicks, 0) == FirstKick(b, p, direction, kicks, kickIndex)
    {
      var candidate := Kicked(p, direction, kicks[kickIndex]);
      if PlacementValid(b, candidate) {
        return Some(Rotated(candidate, kickIndex));
      }
    }
    return None;
  }

  /** Rotation takes the first kick that fits, and fails exactly when none does. */
  lemma {:induction false} RotationTakesTheFirstFit(b: Board, p: Piece, direction: Direction, kicks: seq<Cell>, from: nat)
    requires IsBoard(b) && from <= |kicks|
    ensures var r := FirstKick(b, p, direction, kicks, from);
            match r
            case None => forall i | from <= i < |kicks| :: !PlacementValid(b, Kicked(p, direction, kicks[i]))
            case Some(found) =>
              && from <= found.kickIndex < |kicks|
              && found.piece == Kicked(p, direction, kicks[found.kickIndex])
              && PlacementValid(b, found.piece)
              && forall i | from <= i < found.kickIndex :: !PlacementValid(b, Kicked(p, direction, kicks[i]))
    decreases |kicks| - from
  {
    if from < |kicks| && !PlacementValid(b, Kicked(p, direction, kicks[from])) {
      RotationTakesTheFirstFit(b, p, direction, kicks, from + 1);
    }
  }
}

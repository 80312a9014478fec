/** Piece geometry: spawn cells, clockwise rotation about a pivot, and placed cells. */
module Pieces {

  datatype Kind = I | J | L | O | S | T | Z

  datatype Cell = Cell(x: int, y: int)

  datatype Direction = Cw | Ccw | Half

  /** A piece with its rotation state (0 spawn, 1 right, 2 reverse, 3 left) and the origin of its local box. */
  datatype Piece = Piece(kind: Kind, rotation: nat, x: int, y: int)

  function SpawnCells(kind: Kind): seq<Cell> {
    match kind
    case I => [Cell(0, 2), Cell(1, 2), Cell(2, 2), Cell(3, 2)]
    case J => [Cell(0, 2), Cell(0, 1), Cell(1, 1), Cell(2, 1)]
    case L => [Cell(2, 2), Cell(0, 1), Cell(1, 1), Cell(2, 1)]
    case O => [Cell(1, 2), Cell(2, 2), Cell(1, 1), Cell(2, 1)]
    case S => [Cell(1, 2), Cell(2, 2), Cell(0, 1), Cell(1, 1)]
    case T => [Cell(1, 2), Cell(0, 1), Cell(1, 1), Cell(2, 1)]
    case Z => [Cell(0, 2), Cell(1, 2), Cell(1, 1), Cell(2, 1)]
  }

  /** Twice the pivot coordinate, which is the same on both axes: 1.5 for I and O, 1 for the others. */
  function PivotTwice(kind: Kind): int { if kind.I? || kind.O? then 3 else 2 }

  /** A quarter turn about (p, p) maps (x, y) to (p + (y - p), p - (x - p)). */
  function RotateCellClockwise(cell: Cell, pivotTwice: int): Cell { Cell(cell.y, pivotTwice - cell.x) }

  function RotateAll(cells: seq<Cell>, pivotTwice: int): seq<Cell> {
    seq(|cells|, i requires 0 <= i < |cells| => RotateCellClockwise(cells[i], pivotTwice))
  }

  /** The four cells of a piece in its local box. */
  function LocalCells(kind: Kind, rotation: nat): (cells: seq<Cell>)
    ensures |cells| == 4
  {
    if rotation == 0 then SpawnCells(kind) else RotateAll(LocalCells(kind, rotation - 1), PivotTwice(kind))
  }

  predicate InBox(c: Cell, size: int) { 0 <= c.x <= size && 0 <= c.y <= size }

  /** They are four distinct cells, and every rotation keeps them inside the box. */
  lemma {:induction false} LocalCellsFillTheBox(kind: Kind, rotation: nat)
    ensures forall i | 0 <= i < 4 :: InBox(LocalCells(kind, rotation)[i], PivotTwice(kind))
    ensures forall i, j | 0 <= i < j < 4 :: LocalCells(kind, rotation)[i] != LocalCells(kind, rotation)[j]
    decreases rotation
  {
    var cells := LocalCells(kind, rotation);
    if rotation > 0 {
      var before := LocalCells(kind, rotation - 1);
      LocalCellsFillTheBox(kind, rotation - 1);
      assert forall i | 0 <= i < 4 :: cells[i] == RotateCellClockwise(before[i], PivotTwice(kind));
    }
  }

  /** The turning loop of the geometry module. */
  method TurnCells(kind: Kind, rotation: nat) returns (cells: seq<Cell>)
    ensures cells == LocalCells(kind, rotation)
  {
    cells := SpawnCells(kind);
    for turn := 0 to rotation
      invariant cells == LocalCells(kind, turn)
    {
      cells := RotateAll(cells, PivotTwice(kind));
    }
  }

  /** The cell of a placed piece with index `i`. */
  function WorldCell(p: Piece, i: nat): Cell
    requires i < 4
  {
    var local := LocalCells(p.kind, p.rotation)[i];
    Cell(p.x + local.x, p.y + local.y)
  }

  function WorldCells(p: Piece): seq<Cell> {
    [WorldCell(p, 0), WorldCell(p, 1), WorldCell(p, 2), WorldCell(p, 3)]
  }

  /** A placed piece covers four different cells of the board, all within three of its origin. */
  lemma WorldCellsAreDistinct(p: Piece)
    ensures forall i | 0 <= i < 4 :: WorldCells(p)[i] == WorldCell(p, i)
    ensures forall i, j | 0 <= i < j < 4 :: WorldCells(p)[i] != WorldCells(p)[j]
    ensures forall i | 0 <= i < 4 :: p.x <= WorldCells(p)[i].x <= p.x + 3 && p.y <= WorldCells(p)[i].y <= p.y + 3
  {
    LocalCellsFillTheBox(p.kind, p.rotation);
    var local := LocalCells(p.kind, p.rotation);
    assert forall i, j | 0 <= i < j < 4 :: local[i] != local[j];
  }

  function TargetRotation(from: nat, direction: Direction): nat {
    (from + (if direction.Cw? then 1 else if direction.Ccw? then 3 else 2)) % 4
  }

  lemma FourTurnsOfACell(c: Cell, p: int)
    ensures RotateCellClockwise(RotateCellClockwise(RotateCellClockwise(RotateCellClockwise(c, p), p), p), p) == c
  {
  }

  /** Four quarter turns bring every cell back. */
  lemma FourTurnsAreNone(kind: Kind, rotation: nat)
    ensures LocalCells(kind, rotation + 4) == LocalCells(kind, rotation)
  {
    var p := PivotTwice(kind);
    var c0 := LocalCells(kind, rotation);
    var c1 := LocalCells(kind, rotation + 1);
    var c2 := LocalCells(kind, rotation + 2);
    var c3 := LocalCells(kind, rotation + 3);
    var c4 := LocalCells(kind, rotation + 4);
    forall i | 0 <= i < 4
      ensures c4[i] == c0[i]
    {
      assert c1[i] == RotateCellClockwise(c0[i], p);
      assert c2[i] == RotateCellClockwise(c1[i], p);
      assert c3[i] == RotateCellClockwise(c2[i], p);
      assert c4[i] == RotateCellClockwise(c3[i], p);
      FourTurnsOfACell(c0[i], p);
    }
  }
}

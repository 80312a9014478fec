/** The kick tests of the rotation system the game is played with; their order is behaviour. */
module SrsPlus {
  import opened Wrappers
  import opened Pieces
  import opened Boards
  import opened Rotation

  function FlipX(cells: seq<Cell>): seq<Cell> {
    seq(|cells|, i requires 0 <= i < |cells| => Cell(-cells[i].x, cells[i].y))
  }

  /** Quarter turns of every piece but I and O. */
  function QuarterTests(from: nat, to: nat): seq<Cell> {
    match (from, to)
    case (0, 1) => [Cell(0, 0), Cell(-1, 0), Cell(-1, 1), Cell(0, -2), Cell(-1, -2)]
    case (1, 0) => [Cell(0, 0), Cell(1, 0), Cell(1, -1), Cell(0, 2), Cell(1, 2)]
    case (1, 2) => [Cell(0, 0), Cell(1, 0), Cell(1, -1), Cell(0, 2), Cell(1, 2)]
    case (2, 1) => [Cell(0, 0), Cell(-1, 0), Cell(-1, 1), Cell(0, -2), Cell(-1, -2)]
    case (2, 3) => [Cell(0, 0), Cell(1, 0), Cell(1, 1), Cell(0, -2), Cell(1, -2)]
    case (3, 2) => [Cell(0, 0), Cell(-1, 0), Cell(-1, -1), Cell(0, 2), Cell(-1, 2)]
    case (3, 0) => [Cell(0, 0), Cell(-1, 0), Cell(-1, -1), Cell(0, 2), Cell(-1, 2)]
    case (0, 3) => [Cell(0, 0), Cell(1, 0), Cell(1, 1), Cell(0, -2), Cell(1, -2)]
    case _ => [Cell(0, 0)]
  }

  function QuarterTestsOfI(from: nat, to: nat): seq<Cell> {
    match (from, to)
    case (0, 1) => [Cell(0, 0), Cell(1, 0), Cell(-2, 0), Cell(-2, -1), Cell(1, 2)]
    case (1, 0) => [Cell(0, 0), Cell(-1, 0), Cell(2, 0), Cell(-1, -2), Cell(2, 1)]
    case (1, 2) => [Cell(0, 0), Cell(-1, 0), Cell(2, 0), Cell(-1, 2), Cell(2, -1)]
    case (2, 1) => [Cell(0, 0), Cell(-2, 0), Cell(1, 0), Cell(-2, 1), Cell(1, -2)]
    case (2, 3) => [Cell(0, 0), Cell(2, 0), Cell(-1, 0), Cell(2, 1), Cell(-1, -2)]
    case (3, 2) => [Cell(0, 0), Cell(1, 0), Cell(-2, 0), Cell(1, 2), Cell(-2, -1)]
    case (3, 0) => [Cell(0, 0), Cell(1, 0), Cell(-2, 0), Cell(1, -2), Cell(-2, 1)]
    case (0, 3) => [Cell(0, 0), Cell(-1, 0), Cell(2, 0), Cell(2, -1), Cell(-1, 2)]
    case _ => [Cell(0, 0)]
  }

  function HalfTests(from: nat): seq<Cell> {
    match from
    case 0 => [Cell(0, 0), Cell(0, 1), Cell(1, 1), Cell(-1, 1), Cell(1, 0), Cell(-1, 0)]
    case 1 => [Cell(0, 0), Cell(1, 0), Cell(1, 2), Cell(1, 1), Cell(0, 2), Cell(0, 1)]
    case 2 => [Cell(0, 0), Cell(0, -1), Cell(-1, -1), Cell(1, -1), Cell(-1, 0), Cell(1, 0)]
    case 3 => [Cell(0, 0), Cell(-1, 0), Cell(-1, 2), Cell(-1, 1), Cell(0, 2), Cell(0, 1)]
    case _ => [Cell(0, 0)]
  }

  function HalfTestsOfI(from: nat): seq<Cell> {
    match from
    case 0 => [Cell(0, 0), Cell(0, 1)]
    case 1 => [Cell(0, 0), Cell(1, 0)]
    case 2 => [Cell(0, 0), Cell(0, -1)]
    case 3 => [Cell(0, 0), Cell(-1, 0)]
    case _ => [Cell(0, 0)]
  }

  function KickTests(kind: Kind, from: nat, direction: Direction): seq<Cell> {
    var to := TargetRotation(from, direction);
    if kind.O? then [Cell(0, 0)]
    else if direction.Half? then (if kind.I? then HalfTestsOfI(from) else HalfTests(from))
    else if kind.I? then QuarterTestsOfI(from, to)
    else QuarterTests(from, to)
  }

  function Mirrored(kind: Kind): Kind {
    match kind
    case J => L
    case L => J
    case S => Z
    case Z => S
    case _ => kind
  }

  function Opposite(d: Direction): Direction { if d.Cw? then Ccw else if d.Ccw? then Cw else Half }

  /** Mirrored quarter turns have mirrored tests in the same order. */
  lemma MirroredTurnsHaveMirroredTests(kind: Kind, from: nat, direction: Direction)
    requires from < 4 && !direction.Half?
    ensures KickTests(Mirrored(kind), (4 - from) % 4, Opposite(direction)) == FlipX(KickTests(kind, from, direction))
  {
  }

  /** Every turn is first tried where the piece is. */
  lemma TurnsAreTriedInPlaceFirst(kind: Kind, from: nat, direction: Direction)
    ensures KickTests(kind, from, direction) != [] && KickTests(kind, from, direction)[0] == Cell(0, 0)
  {
  }

  // ---------------------------------------------------------------- mirrored boards

  function MirrorColumn(x: int): int { WIDTH - 1 - x }

  function MirrorRow(r: Row): Row { set x | x in r :: MirrorColumn(x) }

  function MirrorBoard(b: Board): Board
    requires IsBoard(b)
  {
    Board(seq(HEIGHT, y requires 0 <= y < HEIGHT => MirrorRow(b.rows[y])), b.garbage)
  }

  /** The piece seen in a mirror: its box is as wide as its pivot says. */
  function MirrorPiece(p: Piece): Piece
    requires p.rotation < 4
  {
    Piece(Mirrored(p.kind), (4 - p.rotation) % 4, MirrorColumn(p.x) - PivotTwice(p.kind), p.y)
  }

  lemma MirrorsAreBoards(b: Board)
    requires IsBoard(b)
    ensures IsBoard(MirrorBoard(b))
  {
    forall y | 0 <= y < HEIGHT
      ensures MirrorRow(b.rows[y]) <= FULL_ROW && (b.garbage[y] ==> MirrorRow(b.rows[y]) != {})
    {
      if b.garbage[y] {
        var x :| x in b.rows[y];
        assert MirrorColumn(x) in MirrorRow(b.rows[y]);
      }
    }
  }

  lemma MirroredCellIsFree(b: Board, c: Cell)
    requires IsBoard(b)
    ensures IsBoard(MirrorBoard(b))
    ensures CellFree(MirrorBoard(b), Cell(MirrorColumn(c.x), c.y)) <==> CellFree(b, c)
  {
    MirrorsAreBoards(b);
    if InField(c) {
      assert MirrorColumn(c.x) in MirrorRow(b.rows[c.y]) <==> c.x in b.rows[c.y];
    }
  }

  /** The cells of a rotation, unfolded. */
  lemma FourRotations(kind: Kind)
    ensures var p, s := PivotTwice(kind), SpawnCells(kind);
            forall i | 0 <= i < 4 ::
              && LocalCells(kind, 0)[i] == s[i]
              && LocalCells(kind, 1)[i] == Cell(s[i].y, p - s[i].x)
              && LocalCells(kind, 2)[i] == Cell(p - s[i].x, p - s[i].y)
              && LocalCells(kind, 3)[i] == Cell(p - s[i].y, s[i].x)
  {
    var p := PivotTwice(kind);
    assert LocalCells(kind, 1) == RotateAll(LocalCells(kind, 0), p);
    assert LocalCells(kind, 2) == RotateAll(LocalCells(kind, 1), p);
    assert LocalCells(kind, 3) == RotateAll(LocalCells(kind, 2), p);
  }

  lemma MirroredSpawnCell(kind: Kind, i: nat) returns (j: nat)
    requires i < 4
    ensures j < 4
    ensures var c := SpawnCells(kind)[i]; SpawnCells(Mirrored(kind))[j] == Cell(PivotTwice(kind) - c.x, c.y)
  {
    var c, other := SpawnCells(kind)[i], SpawnCells(Mirrored(kind));
    var mirrored := Cell(PivotTwice(kind) - c.x, c.y);
    j := if other[0] == mirrored then 0 else if other[1] == mirrored then 1 else if other[2] == mirrored then 2 else 3;
  }

  lemma MirroredLocalCell(kind: Kind, rotation: nat, i: nat) returns (j: nat)
    requires rotation < 4 && i < 4
    ensures j < 4
    ensures var c := LocalCells(kind, rotation)[i];
            LocalCells(Mirrored(kind), (4 - rotation) % 4)[j] == Cell(PivotTwice(kind) - c.x, c.y)
  {
    hide LocalCells, SpawnCells;
    j := MirroredSpawnCell(kind, i);
    FourRotations(kind);
    FourRotations(Mirrored(kind));
    assert rotation == 0 || rotation == 1 || rotation == 2 || rotation == 3;
  }

  lemma MirroringTwice(p: Piece)
    requires p.rotation < 4
    ensures MirrorPiece(MirrorPiece(p)) == p && PivotTwice(Mirrored(p.kind)) == PivotTwice(p.kind)
  {
  }

  lemma FreeInTheMirror(b: Board, p: Piece)
    requires IsBoard(b) && p.rotation < 4 && IsBoard(MirrorBoard(b)) && PlacementValid(MirrorBoard(b), MirrorPiece(p))
    ensures PlacementValid(b, p)
  {
    forall i | 0 <= i < 4 ensures CellFree(b, WorldCell(p, i)) {
      var j := MirroredLocalCell(p.kind, p.rotation, i);
      assert WorldCell(MirrorPiece(p), j) == Cell(MirrorColumn(WorldCell(p, i).x), WorldCell(p, i).y);
      MirroredCellIsFree(b, WorldCell(p, i));
    }
  }

  /** A placement is legal exactly when its mirror image is. */
  lemma MirroredPlacements(b: Board, p: Piece)
    requires IsBoard(b) && p.rotation < 4
    ensures IsBoard(MirrorBoard(b)) && (PlacementValid(MirrorBoard(b), MirrorPiece(p)) <==> PlacementValid(b, p))
  {
    MirrorsAreBoards(b);
    var m := MirrorBoard(b);
    MirrorsAreBoards(m);
    assert MirrorBoard(m) == b by {
      forall y | 0 <= y < HEIGHT ensures MirrorRow(m.rows[y]) == b.rows[y] {
        assert forall x :: MirrorColumn(MirrorColumn(x)) == x;
        assert forall x | x in b.rows[y] :: MirrorColumn(x) in m.rows[y];
      }
    }
    MirroringTwice(p);
    if PlacementValid(m, MirrorPiece(p)) {
      FreeInTheMirror(b, p);
    }
    if PlacementValid(b, p) {
      FreeInTheMirror(m, MirrorPiece(p));
    }
  }

  lemma KickingInTheMirror(p: Piece, direction: Direction, kick: Cell)
    requires p.rotation < 4
    ensures Kicked(p, direction, kick).rotation < 4
    ensures Kicked(MirrorPiece(p), Opposite(direction), Cell(-kick.x, kick.y)) == MirrorPiece(Kicked(p, direction, kick))
  {
  }

  lemma {:induction false} MirroredKicksFit(b: Board, p: Piece, direction: Direction, kicks: seq<Cell>, from: nat)
    requires IsBoard(b) && p.rotation < 4 && from <= |kicks|
    ensures IsBoard(MirrorBoard(b))
    ensures var r := FirstKick(b, p, direction, kicks, from);
            && (r.Some? ==> r.value.piece.rotation < 4)
            && FirstKick(MirrorBoard(b), MirrorPiece(p), Opposite(direction), FlipX(kicks), from)
               == if r.None? then None else Some(Rotated(MirrorPiece(r.value.piece), r.value.kickIndex))
    decreases |kicks| - from
  {
    hide PlacementValid, MirrorPiece, MirrorBoard, Kicked, IsBoard;
    MirrorsAreBoards(b);
    if from < |kicks| {
      KickingInTheMirror(p, direction, kicks[from]);
      MirroredPlacements(b, Kicked(p, direction, kicks[from]));
      MirroredKicksFit(b, p, direction, kicks, from + 1);
    }
  }

  /**
   Neither side is favoured: on the mirrored board the mirrored piece makes the opposite quarter turn by the same kick
   test to the mirrored place, or fails alike.
   */
  lemma MirroredBoardsTurnAlike(b: Board, p: Piece, direction: Direction)
    requires IsBoard(b) && p.rotation < 4 && !direction.Half?
    ensures IsBoard(MirrorBoard(b))
    ensures var r := FirstKick(b, p, direction, KickTests(p.kind, p.rotation, direction), 0);
            var m := MirrorPiece(p);
            && (r.Some? ==> r.value.piece.rotation < 4)
            && FirstKick(MirrorBoard(b), m, Opposite(direction), KickTests(m.kind, m.rotation, Opposite(direction)), 0)
               == if r.None? then None else Some(Rotated(MirrorPiece(r.value.piece), r.value.kickIndex))
  {
    hide KickTests, FirstKick, FlipX, MirrorBoard, IsBoard;
    MirroredTurnsHaveMirroredTests(p.kind, p.rotation, direction);
    MirroredKicksFit(b, p, direction, KickTests(p.kind, p.rotation, direction), 0);
  }
}

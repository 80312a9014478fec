/** What counts as a spin, in terms of the cells around the piece. */
module SpinLaws {
  import opened Wrappers
  import opened Pieces
  import opened Boards
  import opened Attack

  /** Outside the field or occupied. */
  predicate Taken(b: Board, c: Cell)
    requires IsBoard(b)
  {
    !CellFree(b, c)
  }

  /** One of the four directions. */
  predicate IsSide(t: Cell) { (t.x == 0 && (t.y == 1 || t.y == -1)) || (t.y == 0 && (t.x == 1 || t.x == -1)) }

  predicate MovesBy(b: Board, p: Piece, t: Cell)
    requires IsBoard(b)
  {
    PlacementValid(b, Piece(p.kind, p.rotation, p.x + t.x, p.y + t.y))
  }

  /** The piece cannot move by one cell in any direction. */
  ghost predicate Wedged(b: Board, p: Piece)
    requires IsBoard(b)
  {
    forall t | IsSide(t) :: !MovesBy(b, p, t)
  }

  lemma WedgedIsImmobile(b: Board, p: Piece)
    requires IsBoard(b)
    ensures Wedged(b, p) <==> Immobile(b, p)
  {
    hide PlacementValid;
    assert MovesBy(b, p, Cell(-1, 0)) <==> PlacementValid(b, p.(x := p.x - 1));
    assert MovesBy(b, p, Cell(1, 0)) <==> PlacementValid(b, p.(x := p.x + 1));
    assert MovesBy(b, p, Cell(0, -1)) <==> PlacementValid(b, p.(y := p.y - 1));
    assert MovesBy(b, p, Cell(0, 1)) <==> PlacementValid(b, p.(y := p.y + 1));
    hide MovesBy;
    assert forall t | IsSide(t) :: t == Cell(-1, 0) || t == Cell(1, 0) || t == Cell(0, -1) || t == Cell(0, 1);
  }

  // ---------------------------------------------------------------- the T piece

  /** The middle of a T, about which it turns. */
  function Middle(p: Piece): Cell { Cell(p.x + 1, p.y + 1) }

  predicate IsCorner(d: Cell) { (d.x == 1 || d.x == -1) && (d.y == 1 || d.y == -1) }

  function Around(p: Piece, d: Cell): Cell { Cell(p.x + 1 + d.x, p.y + 1 + d.y) }

  predicate Covered(p: Piece, c: Cell) { exists i | 0 <= i < 4 :: WorldCell(p, i) == c }

  /** The direction a T points in: covered on this side of the middle, free of the piece on the other. */
  predicate PointsTo(p: Piece, t: Cell) {
    IsSide(t) && Covered(p, Around(p, t)) && !Covered(p, Around(p, Cell(-t.x, -t.y)))
  }

  /** A corner on the side the T points to. */
  ghost predicate IsFront(p: Piece, d: Cell) { IsCorner(d) && exists t :: PointsTo(p, t) && d.x * t.x + d.y * t.y == 1 }

  function TipAt(rotation: nat): Cell {
    match rotation % 4
    case 0 => Cell(0, 1)
    case 1 => Cell(1, 0)
    case 2 => Cell(0, -1)
    case _ => Cell(-1, 0)
  }

  lemma TipTurns(rotation: nat)
    requires rotation > 0
    ensures TipAt(rotation) == Cell(TipAt(rotation - 1).y, -TipAt(rotation - 1).x)
  {
    var before, now := (rotation - 1) % 4, rotation % 4;
    assert now == if before == 3 then 0 else before + 1;
  }

  /** A T in its box: the tip, one arm, the middle and the other arm. */
  predicate IsTee(cells: seq<Cell>, t: Cell) {
    && |cells| == 4
    && cells[0] == Cell(1 + t.x, 1 + t.y) && cells[1] == Cell(1 - t.y, 1 + t.x)
    && cells[2] == Cell(1, 1) && cells[3] == Cell(1 + t.y, 1 - t.x)
  }

  lemma TeeTurns(cells: seq<Cell>, t: Cell)
    requires IsTee(cells, t)
    ensures IsTee(RotateAll(cells, 2), Cell(t.y, -t.x))
  {
  }

  lemma {:induction false} TeeCells(rotation: nat)
    ensures IsTee(LocalCells(T, rotation), TipAt(rotation))
    decreases rotation
  {
    hide IsTee, TipAt, RotateAll;
    if rotation > 0 {
      TeeCells(rotation - 1);
      TipTurns(rotation);
      TeeTurns(LocalCells(T, rotation - 1), TipAt(rotation - 1));
    } else {
      TeeSpawns();
    }
  }

  lemma TeeSpawns()
    ensures IsTee(LocalCells(T, 0), TipAt(0))
  {
  }

  /** Around its middle a T covers every side but the one opposite its tip. */
  lemma TeeCovers(p: Piece, d: Cell)
    requires p.kind == T && IsSide(d)
    ensures Covered(p, Around(p, d)) <==> d != Cell(-TipAt(p.rotation).x, -TipAt(p.rotation).y)
  {
    hide LocalCells;
    TeeCells(p.rotation);
    var tip := TipAt(p.rotation);
    assert IsSide(tip);
    var c0, c1, c3 := WorldCell(p, 0), WorldCell(p, 1), WorldCell(p, 3);
    assert c0 == Around(p, tip) && c1 == Around(p, Cell(-tip.y, tip.x)) && c3 == Around(p, Cell(tip.y, -tip.x));
    assert WorldCell(p, 2) == Middle(p);
  }

  lemma TeePoints(p: Piece, t: Cell)
    requires p.kind == T
    ensures PointsTo(p, t) <==> t == TipAt(p.rotation)
  {
    hide Covered;
    assert IsSide(TipAt(p.rotation));
    if IsSide(t) {
      TeeCovers(p, t);
      TeeCovers(p, Cell(-t.x, -t.y));
    }
  }

  /** The front corners are the two the rotation state says. */
  lemma FrontIsFront(p: Piece, d: Cell)
    requires p.kind == T
    ensures IsFront(p, d) <==> d == FrontOffsets(p.rotation).0 || d == FrontOffsets(p.rotation).1
  {
    hide PointsTo;
    var tip := TipAt(p.rotation);
    TeePoints(p, tip);
    if IsFront(p, d) {
      var t :| PointsTo(p, t) && d.x * t.x + d.y * t.y == 1;
      TeePoints(p, t);
    }
  }

  /** At most one corner of the box is free. */
  ghost predicate Cornered(b: Board, p: Piece)
    requires IsBoard(b)
  {
    forall d, e | IsCorner(d) && IsCorner(e) && d != e :: TakenAround(b, p, d) || TakenAround(b, p, e)
  }

  predicate TakenAround(b: Board, p: Piece, d: Cell)
    requires IsBoard(b)
  {
    Taken(b, Around(p, d))
  }

  ghost predicate FacesCorners(b: Board, p: Piece)
    requires IsBoard(b)
  {
    forall d | IsFront(p, d) :: TakenAround(b, p, d)
  }

  lemma CornersAreCounted(b: Board, p: Piece)
    requires IsBoard(b)
    ensures var x, y := p.x + 1, p.y + 1;
            Cornered(b, p) <==>
            Ones(OccupiedOrBoundary(b, x - 1, y + 1), OccupiedOrBoundary(b, x + 1, y + 1),
                 OccupiedOrBoundary(b, x - 1, y - 1), OccupiedOrBoundary(b, x + 1, y - 1)) >= 3
  {
    var c0, c1, c2, c3 := Cell(-1, 1), Cell(1, 1), Cell(-1, -1), Cell(1, -1);
    assert TakenAround(b, p, c0) <==> OccupiedOrBoundary(b, p.x, p.y + 2);
    assert TakenAround(b, p, c1) <==> OccupiedOrBoundary(b, p.x + 2, p.y + 2);
    assert TakenAround(b, p, c2) <==> OccupiedOrBoundary(b, p.x, p.y);
    assert TakenAround(b, p, c3) <==> OccupiedOrBoundary(b, p.x + 2, p.y);
    hide TakenAround, OccupiedOrBoundary;
    assert forall d :: IsCorner(d) <==> d == c0 || d == c1 || d == c2 || d == c3;
    assert IsCorner(c0) && IsCorner(c1) && IsCorner(c2) && IsCorner(c3);
  }

  lemma FrontIsChecked(b: Board, p: Piece)
    requires IsBoard(b) && p.kind == T
    ensures var front := FrontOffsets(p.rotation);
            var x, y := p.x + 1, p.y + 1;
            FacesCorners(b, p) <==>
            OccupiedOrBoundary(b, x + front.0.x, y + front.0.y) && OccupiedOrBoundary(b, x + front.1.x, y + front.1.y)
  {
    hide IsFront;
    var front := FrontOffsets(p.rotation);
    FrontIsFront(p, front.0);
    FrontIsFront(p, front.1);
    assert TakenAround(b, p, front.0) <==> OccupiedOrBoundary(b, p.x + 1 + front.0.x, p.y + 1 + front.0.y);
    assert TakenAround(b, p, front.1) <==> OccupiedOrBoundary(b, p.x + 1 + front.1.x, p.y + 1 + front.1.y);
    hide TakenAround, OccupiedOrBoundary, FrontOffsets;
    forall d | IsFront(p, d) ensures d == front.0 || d == front.1 {
      FrontIsFront(p, d);
    }
  }

  /** The classification of a T after a rotation. */
  lemma TeesSpin(b: Board, p: Piece, last: LastRotation)
    requires IsBoard(b) && p.kind == T
    ensures ClassifySpin(b, p, Some(last)) ==
            if Cornered(b, p) then
              if FacesCorners(b, p) || (last.kickIndex == 4 && last.direction != Half) then FullSpin else MiniSpin
            else if Wedged(b, p) then MiniSpin else NoSpin
  {
    hide Wedged, Immobile, Cornered, FacesCorners, OccupiedOrBoundary, FrontOffsets, Ones, IsBoard, InField;
    WedgedIsImmobile(b, p);
    CornersAreCounted(b, p);
    FrontIsChecked(b, p);
  }

  lemma OthersSpin(b: Board, p: Piece, last: LastRotation)
    requires IsBoard(b) && p.kind != T
    ensures ClassifySpin(b, p, Some(last)) == if Wedged(b, p) then MiniSpin else NoSpin
  {
    WedgedIsImmobile(b, p);
    hide Wedged, Immobile;
  }

  /**
   Spins: a piece spins only if a rotation was its last move. A T with at most one free corner around its middle spins,
   fully when both corners on the side it points to are taken or its quarter turn took the fifth kick, and mini otherwise;
   any piece that cannot move in any direction spins mini, unless it is such a T; and nothing else spins.
   */
  lemma SpinsAreWhatTheCellsSay(b: Board, p: Piece, last: Option<LastRotation>)
    requires IsBoard(b)
    ensures var spin := ClassifySpin(b, p, last);
            var cornered := last.Some? && p.kind == T && Cornered(b, p);
            && (spin == FullSpin <==>
                cornered && (FacesCorners(b, p) || (last.value.kickIndex == 4 && last.value.direction != Half)))
            && (spin == NoSpin <==> last.None? || (!cornered && !Wedged(b, p)))
  {
    hide Wedged, Cornered, FacesCorners, ClassifySpin, IsBoard;
    if last.None? {
      NothingSpinsUnturned(b, p);
    } else if p.kind == T {
      TeesSpin(b, p, last.value);
    } else {
      OthersSpin(b, p, last.value);
    }
  }

  lemma NothingSpinsUnturned(b: Board, p: Piece)
    requires IsBoard(b)
    ensures ClassifySpin(b, p, None) == NoSpin
  {
  }
}

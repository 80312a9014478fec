/**
 The 10x40 board: placement, locking with line clears, and garbage insertion.
 A row is the set of its occupied columns; rows are stored bottom-up beside their garbage flags.
 */
module Boards {
  import opened Wrappers
  import opened Pieces

  const WIDTH: int := 10
  const HEIGHT: int := 40

  type Row = set<int>

  const FULL_ROW: Row := set x: int | 0 <= x < WIDTH

  lemma FullRowHasTenCells()
    ensures |FULL_ROW| == 10
  {
    assert FULL_ROW == {0, 1, 2, 3, 4, 5, 6, 7, 8, 9};
  }

  datatype Board = Board(rows: seq<Row>, garbage: seq<bool>)

  predicate IsBoard(b: Board) {
    && |b.rows| == HEIGHT && |b.garbage| == HEIGHT
    && (forall y | 0 <= y < HEIGHT :: b.rows[y] <= FULL_ROW)
    && (forall y | 0 <= y < HEIGHT :: b.garbage[y] ==> b.rows[y] != {})
  }

  predicate NoFullRow(b: Board) { forall y | 0 <= y < |b.rows| :: b.rows[y] != FULL_ROW }

  predicate InField(c: Cell) { 0 <= c.x < WIDTH && 0 <= c.y < HEIGHT }

  predicate CellFree(b: Board, c: Cell)
    requires IsBoard(b)
  {
    InField(c) && c.x !in b.rows[c.y]
  }

  predicate PlacementValid(b: Board, p: Piece)
    requires IsBoard(b)
  {
    forall i | 0 <= i < 4 :: CellFree(b, WorldCell(p, i))
  }

  // ---------------------------------------------------------------- counting cells

  function Count(rows: seq<Row>): nat {
    if rows == [] then 0 else Count(rows[..|rows| - 1]) + |rows[|rows| - 1]|
  }

  lemma {:induction false} CountAppend(a: seq<Row>, b: seq<Row>)
    ensures Count(a + b) == Count(a) + Count(b)
    decreases |b|
  {
    if b == [] {
      assert a + b == a;
    } else {
      CountAppend(a, b[..|b| - 1]);
      assert (a + b)[..|a + b| - 1] == a + b[..|b| - 1];
    }
  }

  lemma {:induction false} CountZeroMeansEmpty(rows: seq<Row>)
    ensures Count(rows) == 0 <==> forall y | 0 <= y < |rows| :: rows[y] == {}
    decreases |rows|
  {
    if rows != [] {
      CountZeroMeansEmpty(rows[..|rows| - 1]);
      assert |rows[|rows| - 1]| == 0 <==> rows[|rows| - 1] == {};
    }
  }

  lemma {:induction false} CountAddCell(rows: seq<Row>, y: nat, x: int)
    requires y < |rows| && x !in rows[y]
    ensures Count(rows[y := rows[y] + {x}]) == Count(rows) + 1
    decreases |rows|
  {
    var after := rows[y := rows[y] + {x}];
    if y == |rows| - 1 {
      assert after[..|rows| - 1] == rows[..|rows| - 1];
      assert |rows[y] + {x}| == |rows[y]| + 1;
    } else {
      CountAddCell(rows[..|rows| - 1], y, x);
      assert after[..|rows| - 1] == rows[..|rows| - 1][y := rows[y] + {x}];
    }
  }

  // ---------------------------------------------------------------- locking

  /** Occupies the first `n` cells of a piece, in order. */
  function Fill(rows: seq<Row>, p: Piece, n: nat): (filled: seq<Row>)
    requires n <= 4 && forall i | 0 <= i < n :: 0 <= WorldCell(p, i).y < |rows|
    ensures |filled| == |rows|
  {
    if n == 0 then rows
    else
      var before := Fill(rows, p, n - 1);
      var c := WorldCell(p, n - 1);
      before[c.y := before[c.y] + {c.x}]
  }

  /** The rows that are not full, in order. */
  function KeptRows(rows: seq<Row>): seq<Row> {
    if rows == [] then []
    else KeptRows(rows[..|rows| - 1]) + (if rows[|rows| - 1] == FULL_ROW then [] else [rows[|rows| - 1]])
  }

  /** The flags of the rows that are not full, in order. */
  function KeptFlags(rows: seq<Row>, flags: seq<bool>): (kept: seq<bool>)
    requires |rows| == |flags|
    ensures |kept| == |KeptRows(rows)| <= |rows|
  {
    if rows == [] then []
    else
      var n := |rows| - 1;
      KeptFlags(rows[..n], flags[..n]) + (if rows[n] == FULL_ROW then [] else [flags[n]])
  }

  function ClearedIndices(rows: seq<Row>): seq<nat> {
    if rows == [] then []
    else ClearedIndices(rows[..|rows| - 1]) + (if rows[|rows| - 1] == FULL_ROW then [|rows| - 1] else [])
  }

  function ClearedGarbageRows(rows: seq<Row>, flags: seq<bool>): nat
    requires |rows| == |flags|
  {
    if rows == [] then 0
    else
      var n := |rows| - 1;
      ClearedGarbageRows(rows[..n], flags[..n]) + (if rows[n] == FULL_ROW && flags[n] then 1 else 0)
  }

  function Repeat<T>(value: T, n: nat): seq<T> { seq(n, _ => value) }

  function Padded(rows: seq<Row>, flags: seq<bool>): Board
    requires |rows| == |flags| <= HEIGHT
  {
    Board(rows + Repeat({}, HEIGHT - |rows|), flags + Repeat(false, HEIGHT - |flags|))
  }

  datatype LockResult = LockResult(
    board: Board,
    clearedRowIndices: seq<nat>,
    clearedGarbageLineCount: nat,
    perfectClear: bool)
  {
    function Lines(): nat { |clearedRowIndices| }
  }

  predicate IsPerfectClear(b: Board) { forall y | 0 <= y < |b.rows| :: b.rows[y] == {} }

  /** None stands for the error raised for a colliding or out-of-bounds piece. */
  function LockPiece(b: Board, p: Piece): Option<LockResult>
    requires IsBoard(b)
  {
    if !PlacementValid(b, p) then None
    else
      var filled := Fill(b.rows, p, 4);
      var next := Padded(KeptRows(filled), KeptFlags(filled, b.garbage));
      Some(LockResult(next, ClearedIndices(filled), ClearedGarbageRows(filled, b.garbage), IsPerfectClear(next)))
  }

  /** The compaction loop: one pass over the rows, with the flags kept beside them. */
  method Compact(rows: seq<Row>, flags: seq<bool>)
    returns (remainingRows: seq<Row>, remainingFlags: seq<bool>, cleared: seq<nat>, clearedGarbage: nat)
    requires |rows| == |flags|
    ensures remainingRows == KeptRows(rows) && remainingFlags == KeptFlags(rows, flags)
    ensures cleared == ClearedIndices(rows) && clearedGarbage == ClearedGarbageRows(rows, flags)
  {
    remainingRows, remainingFlags, cleared, clearedGarbage := [], [], [], 0;
    for y := 0 to |rows|
      invariant remainingRows == KeptRows(rows[..y])
      invariant remainingFlags == KeptFlags(rows[..y], flags[..y])
      invariant cleared == ClearedIndices(rows[..y])
      invariant clearedGarbage == ClearedGarbageRows(rows[..y], flags[..y])
    {
      assert rows[..y + 1][..y] == rows[..y] && flags[..y + 1][..y] == flags[..y];
      if rows[y] == FULL_ROW {
        cleared := cleared + [y];
        if flags[y] {
          clearedGarbage := clearedGarbage + 1;
        }
      } else {
        remainingRows := remainingRows + [rows[y]];
        remainingFlags := remainingFlags + [flags[y]];
      }
    }
    assert rows[..|rows|] == rows && flags[..|rows|] == flags;
  }

  /** The padding loop. */
  method Pad(rows: seq<Row>, flags: seq<bool>) returns (b: Board)
    requires |rows| == |flags| <= HEIGHT
    ensures b == Padded(rows, flags)
  {
    var paddedRows, paddedFlags := rows, flags;
    while |paddedRows| < HEIGHT
      invariant |rows| <= |paddedRows| == |paddedFlags| <= HEIGHT
      invariant paddedRows == rows + Repeat({}, |paddedRows| - |rows|)
      invariant paddedFlags == flags + Repeat(false, |paddedFlags| - |flags|)
    {
      paddedRows, paddedFlags := paddedRows + [{}], paddedFlags + [false];
    }
    b := Board(paddedRows, paddedFlags);
  }

  /** The locking procedure: occupy the cells one by one, compact, pad. */
  method LockPieceByLoops(b: Board, p: Piece) returns (r: Option<LockResult>)
    requires IsBoard(b)
    ensures r == LockPiece(b, p)
  {
    if !PlacementValid(b, p) {
      return None;
    }
    var lockedRows := b.rows;
    for i := 0 to 4
      invariant lockedRows == Fill(b.rows, p, i)
    {
      var c := WorldCell(p, i);
      assert CellFree(b, c);
      lockedRows := lockedRows[c.y := lockedRows[c.y] + {c.x}];
    }
    var rows, flags, cleared, clearedGarbage := Compact(lockedRows, b.garbage);
    var next := Pad(rows, flags);
    return Some(LockResult(next, cleared, clearedGarbage, IsPerfectClear(next)));
  }

  // ---------------------------------------------------------------- what locking does

  /** Is `c` one of the first `n` cells of the piece? */
  predicate Covers(p: Piece, n: nat, c: Cell)
    requires n <= 4
  {
    exists i | 0 <= i < n :: WorldCell(p, i) == c
  }

  /** Filling touches exactly the cells of the piece. */
  lemma {:induction false} FillPaintsTheCells(rows: seq<Row>, p: Piece, n: nat)
    requires n <= 4 && forall i | 0 <= i < n :: 0 <= WorldCell(p, i).y < |rows|
    ensures forall y, x | 0 <= y < |rows| :: x in Fill(rows, p, n)[y] <==> x in rows[y] || Covers(p, n, Cell(x, y))
    decreases n
  {
    if n > 0 {
      FillPaintsTheCells(rows, p, n - 1);
      var c := WorldCell(p, n - 1);
      forall y, x | 0 <= y < |rows|
        ensures x in Fill(rows, p, n)[y] <==> x in rows[y] || Covers(p, n, Cell(x, y))
      {
        assert Covers(p, n, Cell(x, y)) <==> Covers(p, n - 1, Cell(x, y)) || c == Cell(x, y);
      }
    }
  }

  lemma {:induction false} FillAddsCells(b: Board, p: Piece, n: nat)
    requires IsBoard(b) && PlacementValid(b, p) && n <= 4
    ensures Count(Fill(b.rows, p, n)) == Count(b.rows) + n
    decreases n
  {
    if n > 0 {
      FillAddsCells(b, p, n - 1);
      FillPaintsTheCells(b.rows, p, n - 1);
      WorldCellsAreDistinct(p);
      var c := WorldCell(p, n - 1);
      assert CellFree(b, c);
      forall i | 0 <= i < n - 1
        ensures WorldCell(p, i) != c
      {
        assert WorldCells(p)[i] != WorldCells(p)[n - 1];
      }
      CountAddCell(Fill(b.rows, p, n - 1), c.y, c.x);
    }
  }

  lemma {:induction false} KeepingRemovesTenPerLine(rows: seq<Row>)
    ensures Count(rows) == Count(KeptRows(rows)) + 10 * |ClearedIndices(rows)|
    ensures |rows| == |KeptRows(rows)| + |ClearedIndices(rows)|
    decreases |rows|
  {
    if rows != [] {
      var n := |rows| - 1;
      KeepingRemovesTenPerLine(rows[..n]);
      FullRowHasTenCells();
      if rows[n] != FULL_ROW {
        CountAppend(KeptRows(rows[..n]), [rows[n]]);
        assert [rows[n]][..0] == [];
        assert Count([rows[n]]) == |rows[n]|;
      } else {
        assert KeptRows(rows) == KeptRows(rows[..n]);
      }
    }
  }

  lemma {:induction false} RepeatCountsNothing(n: nat)
    ensures Count(Repeat({}, n)) == 0
    decreases n
  {
    if n > 0 {
      RepeatCountsNothing(n - 1);
      assert Repeat<Row>({}, n)[..n - 1] == Repeat({}, n - 1);
    }
  }

  /**
   Cell conservation: locking adds the four cells of the piece and removes ten per cleared line,
   and a perfect clear is reported exactly when nothing is left.
   */
  lemma LockingConservesCells(b: Board, p: Piece)
    requires IsBoard(b) && PlacementValid(b, p)
    ensures var r := LockPiece(b, p).value;
            && Count(r.board.rows) + 10 * r.Lines() == Count(b.rows) + 4
            && (r.perfectClear <==> Count(r.board.rows) == 0)
  {
    var filled := Fill(b.rows, p, 4);
    FillAddsCells(b, p, 4);
    KeepingRemovesTenPerLine(filled);
    var kept := KeptRows(filled);
    CountAppend(kept, Repeat({}, HEIGHT - |kept|));
    RepeatCountsNothing(HEIGHT - |kept|);
    CountZeroMeansEmpty(LockPiece(b, p).value.board.rows);
  }

  /** How many rows below `y` survive: the new height of a surviving row `y`. */
  function Rank(rows: seq<Row>, y: nat): nat
    requires y <= |rows|
  {
    if y == 0 then 0 else Rank(rows, y - 1) + (if rows[y - 1] == FULL_ROW then 0 else 1)
  }

  lemma {:induction false} RankOfPrefix(rows: seq<Row>, y: nat)
    requires y <= |rows|
    ensures Rank(rows, y) == |KeptRows(rows[..y])|
    decreases y
  {
    if y > 0 {
      RankOfPrefix(rows, y - 1);
      assert rows[..y][..y - 1] == rows[..y - 1];
    }
  }

  lemma {:induction false} KeptRowMoves(rows: seq<Row>, flags: seq<bool>, y: nat)
    requires |rows| == |flags| && y < |rows| && rows[y] != FULL_ROW
    ensures Rank(rows, y) < |KeptRows(rows)|
    ensures KeptRows(rows)[Rank(rows, y)] == rows[y] && KeptFlags(rows, flags)[Rank(rows, y)] == flags[y]
    decreases |rows|
  {
    var n := |rows| - 1;
    RankOfPrefix(rows, y);
    if y < n {
      RankOfPrefix(rows[..n], y);
      assert rows[..n][..y] == rows[..y];
      KeptRowMoves(rows[..n], flags[..n], y);
    } else {
      assert rows[..n] == rows[..y];
    }
  }

  /**
   Surviving rows keep their order and carry their garbage flags: the row at height `y` moves down
   by the number of cleared rows below it, everything above the survivors is empty and unflagged,
   and the reported indices are exactly the full rows.
   */
  lemma LockingKeepsRowOrder(b: Board, p: Piece, y: nat)
    requires IsBoard(b) && PlacementValid(b, p) && y < HEIGHT
    ensures var filled, r := Fill(b.rows, p, 4), LockPiece(b, p).value;
            && Rank(filled, HEIGHT) + r.Lines() == HEIGHT
            && (filled[y] != FULL_ROW ==>
                && Rank(filled, y) < Rank(filled, HEIGHT)
                && r.board.rows[Rank(filled, y)] == filled[y]
                && r.board.garbage[Rank(filled, y)] == b.garbage[y])
            && (y >= Rank(filled, HEIGHT) ==> r.board.rows[y] == {} && !r.board.garbage[y])
            && (filled[y] == FULL_ROW <==> y in r.clearedRowIndices)
  {
    var filled := Fill(b.rows, p, 4);
    assert filled[..HEIGHT] == filled;
    RankOfPrefix(filled, HEIGHT);
    KeepingRemovesTenPerLine(filled);
    ClearedAreTheFullRows(filled);
    if filled[y] != FULL_ROW {
      KeptRowMoves(filled, b.garbage, y);
    }
  }

  lemma OneMoreIndex(indices: seq<nat>, n: nat)
    requires forall i, j | 0 <= i < j < |indices| :: indices[i] < indices[j]
    requires forall i | 0 <= i < |indices| :: indices[i] < n
    ensures var all := indices + [n];
            && (forall i, j | 0 <= i < j < |all| :: all[i] < all[j])
            && (forall i | 0 <= i < |all| :: all[i] <= n)
            && (forall y: nat :: y in all <==> y in indices || y == n)
  {
  }

  lemma {:induction false} ClearedAreTheFullRows(rows: seq<Row>)
    ensures forall y: nat :: y in ClearedIndices(rows) <==> y < |rows| && rows[y] == FULL_ROW
    ensures forall i, j | 0 <= i < j < |ClearedIndices(rows)| :: ClearedIndices(rows)[i] < ClearedIndices(rows)[j] < |rows|
    ensures forall i | 0 <= i < |ClearedIndices(rows)| :: ClearedIndices(rows)[i] < |rows|
    decreases |rows|
  {
    if rows != [] {
      var n := |rows| - 1;
      var before, all := ClearedIndices(rows[..n]), ClearedIndices(rows);
      ClearedAreTheFullRows(rows[..n]);
      if rows[n] != FULL_ROW {
        assert all == before;
      } else {
        assert all == before + [n];
        OneMoreIndex(before, n);
      }
    }
  }

  lemma {:induction false} KeptRowsAreNotFull(rows: seq<Row>, flags: seq<bool>)
    requires |rows| == |flags|
    requires forall y | 0 <= y < |rows| :: rows[y] <= FULL_ROW && (flags[y] ==> rows[y] != {})
    ensures forall r | r in KeptRows(rows) :: r != FULL_ROW && r <= FULL_ROW
    ensures forall k | 0 <= k < |KeptRows(rows)| :: KeptFlags(rows, flags)[k] ==> KeptRows(rows)[k] != {}
    decreases |rows|
  {
    if rows != [] {
      KeptRowsAreNotFull(rows[..|rows| - 1], flags[..|rows| - 1]);
    }
  }

  /** Locking yields a well-formed board with no full row, whatever was on the board before. */
  lemma LockingLeavesNoFullRow(b: Board, p: Piece)
    requires IsBoard(b) && PlacementValid(b, p)
    ensures IsBoard(LockPiece(b, p).value.board) && NoFullRow(LockPiece(b, p).value.board)
  {
    var filled := Fill(b.rows, p, 4);
    FillPaintsTheCells(b.rows, p, 4);
    forall y | 0 <= y < HEIGHT
      ensures filled[y] <= FULL_ROW && (b.garbage[y] ==> filled[y] != {})
    {
      forall x | x in filled[y]
        ensures x in FULL_ROW
      {
        if x !in b.rows[y] {
          assert Covers(p, 4, Cell(x, y));
          var i :| 0 <= i < 4 && WorldCell(p, i) == Cell(x, y);
          assert CellFree(b, WorldCell(p, i));
        }
      }
      if b.garbage[y] {
        var x :| x in b.rows[y];
        assert x in filled[y];
      }
    }
    KeptRowsAreNotFull(filled, b.garbage);
    var next := LockPiece(b, p).value.board;
    var kept := KeptRows(filled);
    forall y | 0 <= y < HEIGHT
      ensures next.rows[y] <= FULL_ROW && next.rows[y] != FULL_ROW && (next.garbage[y] ==> next.rows[y] != {})
    {
      if y < |kept| {
        assert next.rows[y] in kept;
      } else {
        assert next.rows[y] == {} && 0 in FULL_ROW;
      }
    }
  }

  /** A line only becomes full through a cell of the piece, so at most four lines clear at once. */
  lemma LockingClearsAtMostFour(b: Board, p: Piece)
    requires IsBoard(b) && PlacementValid(b, p) && NoFullRow(b)
    ensures LockPiece(b, p).value.Lines() <= 4
  {
    var filled := Fill(b.rows, p, 4);
    var cleared := ClearedIndices(filled);
    FillPaintsTheCells(b.rows, p, 4);
    ClearedAreTheFullRows(filled);
    WorldCellsAreDistinct(p);
    forall k | 0 <= k < |cleared|
      ensures p.y <= cleared[k] <= p.y + 3
    {
      var y := cleared[k];
      assert y in cleared && filled[y] == FULL_ROW && b.rows[y] != FULL_ROW && b.rows[y] <= FULL_ROW;
      var x :| x in FULL_ROW && x !in b.rows[y];
      assert x in filled[y] && Covers(p, 4, Cell(x, y));
      var i :| 0 <= i < 4 && WorldCell(p, i) == Cell(x, y);
      assert WorldCells(p)[i] == WorldCell(p, i);
    }
    IncreasingSpreads(cleared, p.y);
    assert |cleared| > 0 ==> cleared[|cleared| - 1] >= p.y + |cleared| - 1;
  }

  /** Strictly increasing numbers from `low` on are spread at least one apart. */
  lemma {:induction false} IncreasingSpreads(s: seq<nat>, low: int)
    requires forall i, j | 0 <= i < j < |s| :: s[i] < s[j]
    requires forall i | 0 <= i < |s| :: low <= s[i]
    ensures forall i | 0 <= i < |s| :: low + i <= s[i]
    decreases |s|
  {
    if s != [] {
      IncreasingSpreads(s[..|s| - 1], low);
      if |s| > 1 {
        assert s[..|s| - 1][|s| - 2] == s[|s| - 2];
      }
    }
  }

  // ---------------------------------------------------------------- garbage insertion

  function GarbageRow(hole: int): Row { FULL_ROW - {hole} }

  datatype Insertion = Insertion(board: Board, overflowed: bool)

  predicate HolesValid(holes: seq<int>) { forall i | 0 <= i < |holes| :: 0 <= holes[i] < WIDTH }

  /** None stands for the range errors: too many rows, or a hole outside the board. */
  function InsertGarbage(b: Board, holes: seq<int>): Option<Insertion>
    requires IsBoard(b)
  {
    if |holes| > HEIGHT || !HolesValid(holes) then None
    else if holes == [] then Some(Insertion(b, false))
    else
      var keep := HEIGHT - |holes|;
      Some(Insertion(
        Board(seq(|holes|, i requires 0 <= i < |holes| => GarbageRow(holes[i])) + b.rows[..keep],
              Repeat(true, |holes|) + b.garbage[..keep]),
        exists y | keep <= y < HEIGHT :: b.rows[y] != {}))
  }

  lemma {:induction false} GarbageRowsCountNineEach(holes: seq<int>)
    requires HolesValid(holes)
    ensures Count(seq(|holes|, i requires 0 <= i < |holes| => GarbageRow(holes[i]))) == 9 * |holes|
    decreases |holes|
  {
    if holes != [] {
      var n := |holes| - 1;
      GarbageRowsCountNineEach(holes[..n]);
      var rows := seq(|holes|, i requires 0 <= i < |holes| => GarbageRow(holes[i]));
      assert rows[..n] == seq(|holes[..n]|, i requires 0 <= i < |holes[..n]| => GarbageRow(holes[..n][i]));
      FullRowHasTenCells();
      assert holes[n] in FULL_ROW && |GarbageRow(holes[n])| == |FULL_ROW| - 1;
    }
  }

  lemma GarbageRowIsPartial(hole: int)
    requires 0 <= hole < WIDTH
    ensures GarbageRow(hole) != FULL_ROW && GarbageRow(hole) != {} && GarbageRow(hole) <= FULL_ROW
  {
    assert hole in FULL_ROW;
    assert (if hole == 0 then 1 else 0) in GarbageRow(hole);
  }

  /** Where every row goes when k garbage rows are inserted. */
  lemma InsertingShiftsRows(b: Board, holes: seq<int>)
    requires IsBoard(b) && |holes| <= HEIGHT && HolesValid(holes)
    ensures InsertGarbage(b, holes).Some?
    ensures var r, k := InsertGarbage(b, holes).value, |holes|;
            && |r.board.rows| == |r.board.garbage| == HEIGHT
            && (forall y | k <= y < HEIGHT :: r.board.rows[y] == b.rows[y - k] && r.board.garbage[y] == b.garbage[y - k])
            && (forall y | 0 <= y < k :: r.board.rows[y] == GarbageRow(holes[y]) && r.board.garbage[y])
  {
  }

  /** A board stays well formed, and without full rows if it had none. */
  lemma InsertingKeepsBoard(b: Board, holes: seq<int>)
    requires IsBoard(b) && |holes| <= HEIGHT && HolesValid(holes)
    ensures IsBoard(InsertGarbage(b, holes).value.board)
    ensures NoFullRow(b) ==> NoFullRow(InsertGarbage(b, holes).value.board)
  {
    InsertingShiftsRows(b, holes);
    forall y | 0 <= y < |holes|
      ensures GarbageRow(holes[y]) != FULL_ROW && GarbageRow(holes[y]) != {} && GarbageRow(holes[y]) <= FULL_ROW
    {
      GarbageRowIsPartial(holes[y]);
    }
  }

  lemma InsertingCounts(b: Board, holes: seq<int>)
    requires IsBoard(b) && |holes| <= HEIGHT && HolesValid(holes)
    ensures var r, lost := InsertGarbage(b, holes).value, Count(b.rows[HEIGHT - |holes|..]);
            && Count(r.board.rows) + lost == Count(b.rows) + 9 * |holes|
            && (r.overflowed <==> lost > 0)
  {
    var keep := HEIGHT - |holes|;
    assert b.rows[..keep] + b.rows[keep..] == b.rows;
    CountAppend(b.rows[..keep], b.rows[keep..]);
    CountZeroMeansEmpty(b.rows[keep..]);
    if holes == [] {
      assert b.rows[keep..] == [];
    } else {
      GarbageRowsCountNineEach(holes);
      CountAppend(seq(|holes|, i requires 0 <= i < |holes| => GarbageRow(holes[i])), b.rows[..keep]);
      assert forall i | 0 <= i < |holes| :: b.rows[keep..][i] == b.rows[keep + i];
    }
  }

  /**
   Inserting k garbage rows loses the top k rows and nothing else: every other row moves up by k unchanged with its
   flag, flagged rows with the given holes come in below, the cells that remain are those of the other rows plus nine
   per garbage row, and overflow is reported exactly when a cell was lost.
   */
  lemma InsertingLosesOnlyTheTop(b: Board, holes: seq<int>)
    requires IsBoard(b) && |holes| <= HEIGHT && HolesValid(holes)
    ensures InsertGarbage(b, holes).Some?
    ensures var r, k := InsertGarbage(b, holes).value, |holes|;
            && |r.board.rows| == |r.board.garbage| == HEIGHT
            && (forall y | k <= y < HEIGHT :: r.board.rows[y] == b.rows[y - k] && r.board.garbage[y] == b.garbage[y - k])
            && (forall y | 0 <= y < k :: r.board.rows[y] == GarbageRow(holes[y]) && r.board.garbage[y])
    ensures var r, lost := InsertGarbage(b, holes).value, Count(b.rows[HEIGHT - |holes|..]);
            && Count(r.board.rows) + lost == Count(b.rows) + 9 * |holes|
            && (r.overflowed <==> lost > 0)
  {
    InsertingShiftsRows(b, holes);
    hide InsertGarbage, Count;
    InsertingCounts(b, holes);
  }
}

/** Matches in which client and server part: boards, pieces and batches for each way prediction can fail. */
module PredictionFailures {
  import opened Wrappers
  import opened Pieces
  import opened Boards
  import opened Garbage
  import opened Rotation
  import opened Simulation
  import opened SimulationLaws
  import opened SrsPlus
  import opened Prediction
  import opened PredictionLaws

  /** What the client is shown of a simulation, with `n` pieces of preview. */
  function ClientOf(env: Env, s: Sim, n: nat): Client {
    Client(s.board, s.active, s.hold, seq(n, i requires 0 <= i < n => env.pieces(s.cursor + i)), s.cursor, s.combo,
           s.piecesPlaced, s.canHold, s.toppedOut)
  }

  lemma ClientsMirror(env: Env, s: Sim, n: nat)
    ensures Mirrors(env, ClientOf(env, s, n), s)
  {
  }

  /** The rules and kick tests of the game. */
  ghost predicate GameRules(env: Env) {
    && ClientRules(env) && CapFits(env) && RollsOk(env)
    && forall kind: Kind, from: nat, d: Direction :: env.kicks(kind, from, d) == KickTests(kind, from, d)
  }

  /** A board with two rows of cells at the height where pieces appear. */
  function Field(low: Row, high: Row): FieldBoard
    requires low <= FULL_ROW && high <= FULL_ROW
  {
    Board(seq(HEIGHT, y => if y == SPAWN_Y then low else if y == SPAWN_Y + 1 then high else {}), Repeat(false, HEIGHT))
  }

  // ---------------------------------------------------------------- held movement

  lemma EmptyFieldFits(p: Piece)
    requires 0 <= p.x <= 6 && 0 <= p.y <= 36
    ensures PlacementValid(Field({}, {}), p)
  {
    WorldCellsAreDistinct(p);
    forall i | 0 <= i < 4 ensures CellFree(Field({}, {}), WorldCell(p, i)) {
      assert WorldCells(p)[i] == WorldCell(p, i);
    }
  }

  /** The key event of a direction that is already down: the client steps again, the server does not. */
  lemma RepeatedPressesAreMispredicted(env: Env, n: nat, frame: int)
    requires GameRules(env)
    ensures var s, batch := NewSim(env, Field({}, {})), [Move(Right, true), Move(Right, true)];
            var server, client := ActionPhase(env, s, batch, frame), Predict(env.kicks, ClientOf(env, s, n), batch);
            && server.Ok? && client.Some?
            && server.value.active == Some(Piece(env.pieces(0), 0, SPAWN_X + 1, SPAWN_Y))
            && client.value.client.active == Some(Piece(env.pieces(0), 0, SPAWN_X + 2, SPAWN_Y))
  {
    hide PlacementValid, Field, TryRotate;
    var p := SpawnPiece(env.pieces(0), SPAWN_Y);
    EmptyFieldFits(p);
    EmptyFieldFits(Simulation.Step(p, Right));
    EmptyFieldFits(Simulation.Step(Simulation.Step(p, Right), Right));
    var batch := [Move(Right, true), Move(Right, true)];
    assert batch[1..] == [Move(Right, true)] && batch[1..][1..] == [];
    var s := NewSim(env, Field({}, {}));
    assert s.active == Some(p) && s.generation.None?;
    var t := SetHorizontal(env, s, Right, true);
    assert t.active == Some(Simulation.Step(p, Right)) && HoldsSide(t.held, Right) && t.generation.None?;
    assert SetHorizontal(env, t, Right, true) == t;
  }

  // ---------------------------------------------------------------- turns after a hold

  lemma TurningInTheOpen(env: Env, p: Piece, direction: Direction)
    requires GameRules(env) && p.x == SPAWN_X && p.y == SPAWN_Y
    ensures var b, turned := Field({}, {}), p.(rotation := TargetRotation(p.rotation, direction));
            && TryRotate(env.kicks, b, p, direction) == Some(Rotated(turned, 0))
            && TurnedSpawn(env, b, Some(p), Some(direction)) == Some(turned)
  {
    TurnsAreTriedInPlaceFirst(p.kind, p.rotation, direction);
    EmptyFieldFits(Kicked(p, direction, Cell(0, 0)));
    hide PlacementValid, Field, KickTests;
    assert env.kicks(p.kind, p.rotation, direction) == KickTests(p.kind, p.rotation, direction);
  }

  /** Two turns after a hold: the server has made both, the client does not end where it does. */
  lemma TurnsAfterAHoldAreLost(env: Env, n: nat, frame: int)
    requires GameRules(env) && n >= 1 && frame >= 0
    ensures var s, batch := NewSim(env, Field({}, {})), [Hold] + Rotations([Cw, Cw]);
            var server, client := ActionPhase(env, s, batch, frame), Predict(env.kicks, ClientOf(env, s, n), batch);
            && server.Ok? && client.Some?
            && server.value.active == Some(Piece(env.pieces(1), 2, SPAWN_X, SPAWN_Y))
            && !Mirrors(env, client.value.client, server.value)
  {
    hide PlacementValid, Field, TryRotate, Mirrors, ActionPhase, Predict, FindSpawn, SearchPlacement;
    var s, b := NewSim(env, Field({}, {})), Field({}, {});
    OpenSims(env);
    ClientsMirror(env, s, n);
    var first := SpawnPiece(env.pieces(1), SPAWN_Y);
    TurningInTheOpen(env, first, Cw);
    TurningInTheOpen(env, first.(rotation := 1), Cw);
    var turns := [Cw, Cw];
    assert turns[..1] == [Cw] && turns[1..] == [Cw] && [Cw][1..] == [];
    assert Composed(env, b, Some(first), [Cw]) == Some(first.(rotation := 1));
    assert Composed(env, b, Some(first), turns) == Some(first.(rotation := 2));
    assert !LastDecides(env, b, Some(first), turns);
    RotationsAfterAHoldExactlyWhenTheLastDecides(env, ClientOf(env, s, n), s, turns, frame);
  }

  lemma OpenSims(env: Env)
    requires GameRules(env)
    ensures var s := NewSim(env, Field({}, {}));
            && Valid(s) && s.generation.None? && !s.toppedOut && s.canHold && HoldForeseen(env, s) && s.board == Field({}, {})
            && FindSpawn(s.board, Replacement(env, s), false) == Some(SpawnPiece(env.pieces(1), SPAWN_Y))
  {
    assert 0 in FULL_ROW;
    EmptyFieldFits(SpawnPiece(env.pieces(0), SPAWN_Y));
    EmptyFieldFits(SpawnPiece(env.pieces(1), SPAWN_Y));
    NewSimIsValid(env, Field({}, {}));
    hide PlacementValid, NoFullRow;
  }

  // ---------------------------------------------------------------- a first lock at the spawn

  /** The first piece is an O, resting where it appears. */
  predicate RestsAtOnce(low: Row, high: Row) {
    low <= FULL_ROW && high <= FULL_ROW && low != FULL_ROW && 4 in low && 4 !in high && 5 !in high
  }

  const FIRST: Piece := Piece(O, 0, SPAWN_X, SPAWN_Y)

  lemma FirstCells()
    ensures WorldCell(FIRST, 0) == Cell(4, 19) && WorldCell(FIRST, 1) == Cell(5, 19)
    ensures WorldCell(FIRST, 2) == Cell(4, 18) && WorldCell(FIRST, 3) == Cell(5, 18)
    ensures WorldCell(Below(FIRST), 2) == Cell(4, 17)
  {
  }

  lemma FieldsAreOpen(low: Row, high: Row)
    requires RestsAtOnce(low, high)
    ensures NoFullRow(Field(low, high))
    ensures PlacementValid(Field(low, high), FIRST) && !PlacementValid(Field(low, high), Below(FIRST))
  {
    FirstCells();
    assert 4 in FULL_ROW;
    assert !CellFree(Field(low, high), WorldCell(Below(FIRST), 2));
  }

  /** The rows after the O has been placed and before full ones leave. */
  lemma FilledRows(low: Row, high: Row, y: nat)
    requires RestsAtOnce(low, high) && y < HEIGHT
    ensures PlacementValid(Field(low, high), FIRST)
    ensures Fill(Field(low, high).rows, FIRST, 4)[y]
            == if y == 17 then low else if y == 18 then high + {4, 5} else if y == 19 then {4, 5} else {}
  {
    FieldsAreOpen(low, high);
    hide PlacementValid, WorldCell;
    FirstCells();
    var rows := Field(low, high).rows;
    assert rows[19] == {} && rows[18] == high && {} + {4} == {4} && {4} + {5} == {4, 5};
    assert Fill(rows, FIRST, 0) == rows;
    assert Fill(rows, FIRST, 1) == rows[19 := {4}];
    assert Fill(rows, FIRST, 2) == rows[19 := {4, 5}];
    assert Fill(rows, FIRST, 3) == rows[19 := {4, 5}][18 := high + {4}];
    assert high + {4} + {5} == high + {4, 5};
  }

  lemma {:induction false} RanksBelow(rows: seq<Row>, y: nat)
    requires y <= |rows| && forall k | 0 <= k < y :: rows[k] != FULL_ROW
    ensures Rank(rows, y) == y
    decreases y
  {
    if y > 0 {
      RanksBelow(rows, y - 1);
    }
  }

  lemma {:induction false} RanksAbove(rows: seq<Row>, full: nat, y: nat)
    requires full < y <= |rows| && rows[full] == FULL_ROW && forall k | 0 <= k < y :: k != full ==> rows[k] != FULL_ROW
    ensures Rank(rows, y) == y - 1
    decreases y
  {
    if y - 1 == full {
      RanksBelow(rows, full);
    } else {
      RanksAbove(rows, full, y - 1);
    }
  }

  lemma SmallRowsAreNotFull()
    ensures {4, 5} != FULL_ROW && {4} != FULL_ROW && {} != FULL_ROW && 0 in FULL_ROW
  {
    assert 0 in FULL_ROW;
  }

  /** With room left in its rows the O stays where it appeared. */
  lemma LockedInPlace(y: nat)
    requires y < HEIGHT
    ensures var r := LockPiece(Field({4}, {}), FIRST);
            && r.Some? && r.value.Lines() == 0 && |r.value.board.rows| == HEIGHT
            && r.value.board.rows[y] == if y == 17 then {4} else if y == 18 || y == 19 then {4, 5} else {}
  {
    SmallRowsAreNotFull();
    FieldsAreOpen({4}, {});
    LockingLeavesNoFullRow(Field({4}, {}), FIRST);
    assert LockPiece(Field({4}, {}), FIRST).Some?;
    hide Field, Fill, LockPiece, PlacementValid, FULL_ROW;
    var filled := Fill(Field({4}, {}).rows, FIRST, 4);
    assert {} + {4, 5} == {4, 5};
    forall k | 0 <= k < HEIGHT ensures filled[k] != FULL_ROW { FilledRows({4}, {}, k); }
    FilledRows({4}, {}, y);
    LockingKeepsRowOrder(Field({4}, {}), FIRST, y);
    RanksBelow(filled, y);
    RanksBelow(filled, HEIGHT);
  }

  /** Filling the gap of a row clears it, and the upper half of the O comes down. */
  lemma LockedWithAClear(y: nat)
    requires y < HEIGHT
    ensures var r := LockPiece(Field({4}, FULL_ROW - {4, 5}), FIRST);
            && r.Some? && r.value.Lines() == 1 && |r.value.board.rows| == HEIGHT
            && r.value.board.rows[y] == if y == 17 then {4} else if y == 18 then {4, 5} else {}
  {
    SmallRowsAreNotFull();
    var high := FULL_ROW - {4, 5};
    var filled := Fill(Field({4}, high).rows, FIRST, 4);
    assert 4 in FULL_ROW && 5 in FULL_ROW;
    assert high + {4, 5} == FULL_ROW;
    FieldsAreOpen({4}, high);
    forall k | 0 <= k < HEIGHT ensures filled[k] == FULL_ROW <==> k == 18 { FilledRows({4}, high, k); }
    RanksAbove(filled, 18, HEIGHT);
    LockingLeavesNoFullRow(Field({4}, high), FIRST);
    LockingKeepsRowOrder(Field({4}, high), FIRST, y);
    if y < 18 {
      FilledRows({4}, high, y);
      RanksBelow(filled, y);
    } else if y + 1 < HEIGHT {
      FilledRows({4}, high, y + 1);
      LockingKeepsRowOrder(Field({4}, high), FIRST, y + 1);
      RanksAbove(filled, 18, y + 1);
    }
  }

  lemma NewSimsShowTheFirst(env: Env, low: Row, high: Row)
    requires GameRules(env) && RestsAtOnce(low, high) && env.pieces(0) == O
    ensures var s := NewSim(env, Field(low, high));
            && Valid(s) && s.generation.None? && !s.toppedOut && s.active == Some(FIRST) && s.hold.None?
            && s.board == Field(low, high) && s.cursor == 1 && s.pendingGarbage == []
            && !s.bufferedHold && s.bufferedRotation.None?
  {
    FieldsAreOpen(low, high);
    hide PlacementValid, Field;
    NewSimIsValid(env, Field(low, high));
    assert SpawnPiece(O, SPAWN_Y) == FIRST;
  }

  /** The first drop on both sides, with the next piece requested here and placed there. */
  lemma FirstDrop(env: Env, low: Row, high: Row, n: nat, frame: int)
    requires GameRules(env) && RestsAtOnce(low, high) && env.pieces(0) == O && n >= 1 && frame >= 0
    ensures LockPiece(Field(low, high), FIRST).Some?
    ensures var s := NewSim(env, Field(low, high));
            var r, q := TakeAction(env, s, HardDrop, frame), PredictNext(env.kicks, Begin(ClientOf(env, s, n)), HardDrop);
            && r.Ok? && q.Some?
            && var t, p, locked := r.value, q.value, LockPiece(Field(low, high), FIRST).value;
            && t.board == locked.board && t.hold.None? && t.cursor == 2 && t.allowClutchLift == (locked.Lines() > 0)
            && !t.bufferedHold && t.bufferedRotation.None?
            && t.generation == Some(Generation(env.pieces(1), true, Some(ByHardDrop), locked.Lines() > 0, true))
            && MirrorsPending(env, p.client, t) && |p.client.next| == n - 1
            && p == Predicting(p.client, true, false, None, [ByHardDrop])
  {
    hide Lock, LockPiece, PlacementValid, FallToFloor, NoFullRow, MirrorsPending, PredictHardDrop, Mirrors, Field;
    NewSimsShowTheFirst(env, low, high);
    FieldsAreOpen(low, high);
    var s := NewSim(env, Field(low, high));
    var c := ClientOf(env, s, n);
    ClientsMirror(env, s, n);
    assert NoneReady(s.pendingGarbage, frame);
    HardDropsAlike(env, c, s, frame);
    HardDropRequests(env, s, frame);
    assert MoveVertical(s.board, FIRST, FAR) == FIRST;
    assert TakeAction(env, s, HardDrop, frame) == Lock(env, FallToFloor(s), frame, ByHardDrop);
  }

  // ---------------------------------------------------------------- rescues

  lemma StandingCells()
    ensures forall i | 0 <= i < 4 :: WorldCell(Piece(I, 1, 4, SPAWN_Y), i) == Cell(6, 20 - i)
    ensures WorldCell(SpawnPiece(I, SPAWN_Y), 1) == Cell(4, 19)
  {
    var flat, turned := LocalCells(I, 0), LocalCells(I, 1);
    assert turned == RotateAll(flat, 3);
    assert forall i | 0 <= i < 4 :: turned[i] == RotateCellClockwise(flat[i], 3);
  }

  /** Over the locked O the I does not fit lying down, but a kick finds it room upright. */
  lemma TheIIsRescued(env: Env, b: FieldBoard)
    requires GameRules(env) && b == LockPiece(Field({4}, {}), FIRST).value.board && LockPiece(Field({4}, {}), FIRST).Some?
    ensures !PlacementValid(b, SpawnPiece(I, SPAWN_Y))
    ensures TryRotate(env.kicks, b, SpawnPiece(I, SPAWN_Y), Cw).Some?
  {
    StandingCells();
    var base, tests := SpawnPiece(I, SPAWN_Y), KickTests(I, 0, Cw);
    LockedInPlace(19);
    assert !CellFree(b, WorldCell(base, 1));
    var upright := Piece(I, 1, 4, SPAWN_Y);
    assert Kicked(base, Cw, tests[1]) == upright;
    forall i | 0 <= i < 4 ensures CellFree(b, WorldCell(upright, i)) {
      LockedInPlace(20 - i);
    }
    assert PlacementValid(b, upright);
    hide PlacementValid;
    RotationTakesTheFirstFit(b, base, Cw, env.kicks(I, 0, Cw), 0);
  }

  /**
   A rescue: the server turns the next piece out of a blocked spawn, the client finds no place for it and tops out.
   */
  lemma RescuesAreLost(env: Env, n: nat, frame: int)
    requires GameRules(env) && env.pieces(0) == O && env.pieces(1) == I && n >= 1 && frame >= 0
    ensures var s, batch := NewSim(env, Field({4}, {})), [HardDrop, Rotate(Cw)];
            var server, client := ActionPhase(env, s, batch, frame), Predict(env.kicks, ClientOf(env, s, n), batch);
            && server.Ok? && client.Some?
            && server.value.active.Some? && !server.value.toppedOut
            && client.value.client.active.None? && client.value.client.toppedOut
  {
    hide Field, PlacementValid, TryRotate, LockPiece, TakeAction, PredictNext, KickTests;
    SmallRowsAreNotFull();
    assert RestsAtOnce({4}, {});
    FirstDrop(env, {4}, {}, n, frame);
    var s, batch := NewSim(env, Field({4}, {})), [HardDrop, Rotate(Cw)];
    assert batch[1..] == [Rotate(Cw)] && batch[1..][1..] == [];
    var t, p := TakeAction(env, s, HardDrop, frame).value, PredictNext(env.kicks, Begin(ClientOf(env, s, n)), HardDrop).value;
    LockedInPlace(0);
    TheIIsRescued(env, t.board);
    BufferingTheTurn(env, t, p, frame);
    assert Rescued(env, t.board, I, Cw, SPAWN_Y, SPAWN_Y).Some?;
    RescueIsPlaced(env, t.board, I, Cw, SPAWN_Y, SPAWN_Y);
    assert p.client.active == FindSpawn(t.board, I, false) == None;
  }

  lemma BufferingTheTurn(env: Env, t: Sim, p: Predicting, frame: int)
    requires t.generation.Some? && p.pending
    ensures TakeAction(env, t, Rotate(Cw), frame) == Ok(t.(bufferedRotation := Some(Cw)))
    ensures PredictNext(env.kicks, p, Rotate(Cw)) == Some(p.(bufferedRotation := Some(Cw)))
  {
  }

  // ---------------------------------------------------------------- lifted holds

  lemma SecondCells()
    ensures forall i | 0 <= i < 4 :: WorldCell(SpawnPiece(I, SPAWN_Y), i) == Cell(3 + i, 19)
    ensures WorldCell(SpawnPiece(T, SPAWN_Y), 2) == Cell(4, 18)
    ensures WorldCell(SpawnPiece(T, SPAWN_Y + 1), 0) == Cell(4, 20)
    ensures WorldCell(SpawnPiece(T, SPAWN_Y + 1), 1) == Cell(3, 19) && WorldCell(SpawnPiece(T, SPAWN_Y + 1), 2) == Cell(4, 19)
    ensures WorldCell(SpawnPiece(T, SPAWN_Y + 1), 3) == Cell(5, 19)
  {
  }

  /** Over what the clear leaves the I fits, the T does not, and one row higher it does. */
  lemma OnlyALiftHelpsTheT(b: FieldBoard)
    requires var r := LockPiece(Field({4}, FULL_ROW - {4, 5}), FIRST); r.Some? && b == r.value.board
    ensures PlacementValid(b, SpawnPiece(I, SPAWN_Y)) && !PlacementValid(b, SpawnPiece(T, SPAWN_Y))
    ensures PlacementValid(b, SpawnPiece(T, SPAWN_Y + 1))
  {
    SecondCells();
    LockedWithAClear(18);
    LockedWithAClear(19);
    LockedWithAClear(20);
    assert !CellFree(b, WorldCell(SpawnPiece(T, SPAWN_Y), 2));
  }

  /** The batch of the lifted hold: a clearing drop, anything that completes the next piece, and the hold. */
  function LiftedHold(): seq<Action> { [HardDrop, SoftDrop(false), Hold] }

  /**
   A lifted hold: after a clear the server lifts the piece that a hold brings in, the client finds no place for it and
   tops out.
   */
  lemma LiftedHoldsAreLost(env: Env, n: nat, frame: int)
    requires GameRules(env) && env.pieces(0) == O && env.pieces(1) == I && env.pieces(2) == T && n >= 2 && frame >= 0
    ensures var s := NewSim(env, Field({4}, FULL_ROW - {4, 5}));
            var server, client := ActionPhase(env, s, LiftedHold(), frame), Predict(env.kicks, ClientOf(env, s, n), LiftedHold());
            && server.Ok? && client.Some?
            && server.value.active == Some(SpawnPiece(T, SPAWN_Y + 1)) && !server.value.toppedOut
            && client.value.client.active.None? && client.value.client.toppedOut
  {
    hide Field, PlacementValid, LockPiece, TakeAction, PredictNext;
    SmallRowsAreNotFull();
    assert RestsAtOnce({4}, FULL_ROW - {4, 5});
    var s, batch := NewSim(env, Field({4}, FULL_ROW - {4, 5})), LiftedHold();
    FirstDrop(env, {4}, FULL_ROW - {4, 5}, n, frame);
    assert batch[1..] == [SoftDrop(false), Hold] && batch[1..][1..] == [Hold] && batch[1..][1..][1..] == [];
    var t, p := TakeAction(env, s, HardDrop, frame).value, PredictNext(env.kicks, Begin(ClientOf(env, s, n)), HardDrop).value;
    LockedWithAClear(0);
    OnlyALiftHelpsTheT(t.board);
    SettlingTheI(env, t, p, frame);
    var u, q := TakeAction(env, t, SoftDrop(false), frame).value, PredictNext(env.kicks, p, SoftDrop(false)).value;
    HoldingTheI(env, u, q, frame);
  }

  /** The next piece is placed alike on both sides. */
  lemma SettlingTheI(env: Env, t: Sim, p: Predicting, frame: int)
    requires GameRules(env) && t.generation.Some? && t.generation.value.incoming == I && t.generation.value.canHoldWithoutBuffer
    requires !t.bufferedHold && t.bufferedRotation.None? && t.hold.None? && t.allowClutchLift
    requires MirrorsPending(env, p.client, t) && p == Predicting(p.client, true, false, None, p.causes)
    requires PlacementValid(t.board, SpawnPiece(I, SPAWN_Y))
    ensures var r, q := TakeAction(env, t, SoftDrop(false), frame), PredictNext(env.kicks, p, SoftDrop(false));
            && r.Ok? && q.Some?
            && var u := r.value;
            && u.board == t.board && u.generation.None? && u.canHold && u.hold.None? && u.cursor == t.cursor && u.allowClutchLift
            && !u.bufferedHold && u.bufferedRotation.None? && u.active == Some(SpawnPiece(I, SPAWN_Y)) && !u.toppedOut
            && q.value.client == p.client && p.client.active == u.active && !p.client.toppedOut && !q.value.pending
            && !q.value.bufferedHold && q.value.bufferedRotation.None?
  {
    hide PlacementValid;
  }

  lemma HoldingTheI(env: Env, u: Sim, q: Predicting, frame: int)
    requires GameRules(env) && u.generation.None? && u.canHold && u.hold.None? && u.allowClutchLift && !u.toppedOut
    requires !u.bufferedHold && u.bufferedRotation.None? && u.active.Some? && env.pieces(u.cursor) == T
    requires !q.pending && !q.bufferedHold && q.bufferedRotation.None?
    requires q.client.board == u.board && q.client.active == u.active && q.client.canHold && q.client.hold.None?
    requires !q.client.toppedOut && q.client.next != [] && q.client.next[0] == T
    requires !PlacementValid(u.board, SpawnPiece(T, SPAWN_Y)) && PlacementValid(u.board, SpawnPiece(T, SPAWN_Y + 1))
    ensures var r, d := TakeAction(env, u, Hold, frame), PredictNext(env.kicks, q, Hold);
            && r.Ok? && r.value.generation.None? && r.value.active == Some(SpawnPiece(T, SPAWN_Y + 1)) && !r.value.toppedOut
            && d.Some? && !d.value.bufferedHold && d.value.bufferedRotation.None?
            && d.value.client.active.None? && d.value.client.toppedOut
  {
    hide PlacementValid, SearchPlacement, PerformHold;
    HoldingSpawns(env, u);
    SpawnsAlike(env, u.board, T, None, true);
    assert FindSpawn(u.board, T, true) == LiftedSpawn(u.board, T, SPAWN_Y + 1) == Some(SpawnPiece(T, SPAWN_Y + 1));
    assert TakeAction(env, u, Hold, frame) == PerformHold(env, u);
    assert PredictHold(q.client).active == FindSpawn(q.client.board, T, false) == None;
  }
}

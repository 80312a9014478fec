/**
 Prediction refines authority: run beside the server's simulation, the client's prediction reaches
 the same board, piece, hold, combo, cursor and count, under conditions that can be read off the run.
 */
module PredictionLaws {
  import opened Wrappers
  import opened Pieces
  import opened Boards
  import opened Garbage
  import opened Attack
  import opened Rotation
  import opened Simulation
  import opened SimulationLaws
  import opened SimulationFlow
  import opened Prediction

  // ---------------------------------------------------------------- what corresponds

  ghost predicate PreviewOk(env: Env, c: Client, s: Sim) {
    c.pieceCursor == s.cursor && forall i | 0 <= i < |c.next| :: c.next[i] == env.pieces(s.cursor + i)
  }

  predicate SameCounters(c: Client, s: Sim) {
    c.board == s.board && c.hold == s.hold && c.combo == s.combo && c.piecesPlaced == s.piecesPlaced
  }

  /** The client shows what the server holds. */
  ghost predicate Mirrors(env: Env, c: Client, s: Sim) {
    && PreviewOk(env, c, s) && SameCounters(c, s)
    && c.active == s.active && c.canHold == s.canHold && c.toppedOut == s.toppedOut
  }

  /** The client has placed the next piece that the server has only requested after a lock. */
  ghost predicate MirrorsPending(env: Env, c: Client, s: Sim)
    requires s.generation.Some?
  {
    var g := s.generation.value;
    && PreviewOk(env, c, s) && SameCounters(c, s)
    && c.active == FindSpawn(s.board, g.incoming, g.allowClutchLift)
    && (c.toppedOut <==> c.active.None?)
    && c.canHold && g.canHoldWithoutBuffer && g.allowBufferedHold
  }

  /** After a hold the client waits and buffers: what the hold spawned, and the last rotation since. */
  datatype Watch = NoHold | AfterHold(spawned: Option<Piece>, last: Option<Direction>)

  /** While the client waits, it mirrors the server but for the piece, which the server turns at once. */
  ghost predicate MirrorsHeld(env: Env, p: Predicting, s: Sim, spawned: Option<Piece>, last: Option<Direction>) {
    && p.pending && p.bufferedRotation == last && p.client.active == spawned
    && Mirrors(env, p.client.(active := s.active), s)
    && !s.canHold && s.hold.Some?
    && (spawned.None? <==> s.active.None?) && (s.toppedOut <==> s.active.None?)
  }

  ghost predicate InStep(env: Env, p: Predicting, s: Sim, w: Watch) {
    if s.generation.Some? then
      && w.NoHold? && p.pending
      && p.bufferedHold == s.bufferedHold && p.bufferedRotation == s.bufferedRotation
      && MirrorsPending(env, p.client, s)
    else
      && !s.bufferedHold && s.bufferedRotation.None?
      && match w
         case NoHold => !p.pending && !p.bufferedHold && p.bufferedRotation.None? && Mirrors(env, p.client, s)
         case AfterHold(spawned, last) => MirrorsHeld(env, p, s, spawned, last)
  }

  predicate ClientRules(env: Env) { env.rules.spawnX == SPAWN_X && env.rules.spawnY == SPAWN_Y }

  // ---------------------------------------------------------------- movement

  lemma {:induction false} FallsAlike(s: Sim, cells: nat)
    requires s.active.Some?
    ensures Fall(s, cells) == s.(active := Some(MoveVertical(s.board, s.active.value, cells)))
    decreases cells
  {
    if cells > 0 && CanFall(s) {
      FallsAlike(s.(active := Some(Below(s.active.value))), cells - 1);
    }
  }

  /** A piece on the board falls fewer rows than its first cell is high. */
  lemma {:induction false} FallingFarEnough(s: Sim, cells: nat)
    requires Fits(s) && cells > WorldCell(s.active.value, 0).y
    ensures Fall(s, cells) == FallToFloor(s)
    decreases cells
  {
    if CanFall(s) {
      FittingPieceHasRoom(s.board, Below(s.active.value), Left);
      var lower := s.(active := Some(Below(s.active.value)));
      assert CellFree(s.board, WorldCell(s.active.value, 0)) && CellFree(s.board, WorldCell(lower.active.value, 0));
      FallingFarEnough(lower, cells - 1);
    } else {
      assert CellFree(s.board, WorldCell(s.active.value, 0));
    }
  }

  /** Forty rows are as good as the floor. */
  lemma FortyRowsReachTheFloor(s: Sim)
    requires Fits(s)
    ensures FallToFloor(s) == s.(active := Some(MoveVertical(s.board, s.active.value, FAR)))
  {
    assert CellFree(s.board, WorldCell(s.active.value, 0));
    FallingFarEnough(s, FAR);
    FallsAlike(s, FAR);
  }

  /** The same but for what the client does not model. */
  predicate SamePlace(s: Sim, t: Sim) {
    t == s.(active := t.active, lockFrames := t.lockFrames, lockResets := t.lockResets, lastRotation := t.lastRotation)
  }

  lemma StepsAlike(env: Env, s: Sim, side: Side)
    requires s.active.Some?
    ensures SamePlace(s, MoveHorizontal(env, s, side))
    ensures MoveHorizontal(env, s, side).active == Some(StepOnce(s.board, s.active.value, side))
  {
  }

  lemma {:induction false} WallsAlike(env: Env, s: Sim, side: Side)
    requires s.active.Some?
    ensures SamePlace(s, MoveToTheWall(env, s, side))
    ensures MoveToTheWall(env, s, side).active == Some(StepToWall(s.board, s.active.value, side))
    decreases if CanStep(s, side) then Room(Step(s.active.value, side), side) + 1 else 0
  {
    if CanStep(s, side) {
      FittingPieceHasRoom(s.board, Step(s.active.value, side), side);
      StepsAlike(env, s, side);
      WallsAlike(env, MoveHorizontal(env, s, side), side);
    }
  }

  lemma TurnsAlike(env: Env, s: Sim, direction: Direction)
    requires s.active.Some?
    ensures SamePlace(s, Turn(env, s, direction))
    ensures Turn(env, s, direction).active == match TryRotate(env.kicks, s.board, s.active.value, direction)
                                              case None => s.active
                                              case Some(r) => Some(r.piece)
  {
    var p := s.active.value;
    RotationTakesTheFirstFit(s.board, p, direction, env.kicks(p.kind, p.rotation, direction), 0);
  }

  /** Holding a direction again, or releasing it while the other is held, is what the client predicts differently. */
  predicate MoveForeseen(s: Sim, side: Side, pressed: bool) {
    && !(pressed && HoldsSide(s.held, side) && CanStep(s, side))
    && !(!pressed && s.horizontal == Some(side) && HoldsSide(s.held, Other(side)) && CanStep(s, Other(side)))
  }

  /** Held movement is predicted right exactly when the server's own key state allows it. */
  lemma MovesAlikeExactlyWhenForeseen(env: Env, s: Sim, side: Side, pressed: bool)
    requires s.active.Some?
    ensures var predicted := if pressed then StepOnce(s.board, s.active.value, side) else s.active.value;
            SetHorizontal(env, s, side, pressed).active == Some(predicted) <==> MoveForeseen(s, side, pressed)
    ensures var t := SetHorizontal(env, s, side, pressed);
            SamePlace(s.(held := t.held, horizontal := t.horizontal, horizontalFrames := t.horizontalFrames), t)
  {
    var held := s.(held := WithSide(s.held, side, pressed));
    StepsAlike(env, held.(horizontal := Some(side), horizontalFrames := 0), side);
    StepsAlike(env, held.(horizontal := Some(Other(side)), horizontalFrames := 0), Other(side));
  }

  // ---------------------------------------------------------------- spawning

  function Base(env: Env, kind: Kind, y: int): Piece { Piece(kind, 0, env.rules.spawnX, y) }

  /** No rotation succeeds from a blocked footprint on the way up to the first free one. */
  predicate NoRescue(env: Env, b: FieldBoard, kind: Kind, rotation: Direction, y: int, highest: int)
    decreases highest - y + 1
  {
    y > highest || PlacementValid(b, Base(env, kind, y)) ||
    (TryRotate(env.kicks, b, Base(env, kind, y), rotation).None? && NoRescue(env, b, kind, rotation, y + 1, highest))
  }

  /** What the client makes of a spawned piece and a buffered rotation. */
  function TurnedSpawn(env: Env, b: FieldBoard, spawned: Option<Piece>, rotation: Option<Direction>): Option<Piece> {
    if spawned.None? || rotation.None? then spawned
    else match TryRotate(env.kicks, b, spawned.value, rotation.value)
      case None => spawned
      case Some(r) => Some(r.piece)
  }

  lemma {:induction false} LiftsAlike(env: Env, b: FieldBoard, kind: Kind, rotation: Option<Direction>, y: int)
    requires ClientRules(env)
    requires rotation.Some? ==> NoRescue(env, b, kind, rotation.value, y, HEIGHT - 1)
    ensures SearchPlacement(env, b, kind, rotation, y, HEIGHT - 1).active
            == TurnedSpawn(env, b, LiftedSpawn(b, kind, y), rotation)
    decreases HEIGHT - y
  {
    if y < HEIGHT && !PlacementValid(b, SpawnPiece(kind, y)) {
      LiftsAlike(env, b, kind, rotation, y + 1);
    }
  }

  /** With no rescue on the way, both sides place the next piece alike. */
  lemma SpawnsAlike(env: Env, b: FieldBoard, kind: Kind, rotation: Option<Direction>, lift: bool)
    requires ClientRules(env)
    requires rotation.Some? ==> NoRescue(env, b, kind, rotation.value, SPAWN_Y, HighestSpawn(env, lift))
    ensures SearchPlacement(env, b, kind, rotation, SPAWN_Y, HighestSpawn(env, lift)).active
            == TurnedSpawn(env, b, FindSpawn(b, kind, lift), rotation)
  {
    if lift {
      LiftsAlike(env, b, kind, rotation, SPAWN_Y);
      assert LiftedSpawn(b, kind, SPAWN_Y) == FindSpawn(b, kind, true);
    } else {
      assert SearchPlacement(env, b, kind, rotation, SPAWN_Y + 1, SPAWN_Y).active == None;
    }
  }

  /** The piece a rotation rescues from a blocked footprint, if one does on the way up to the first free one. */
  function Rescued(env: Env, b: FieldBoard, kind: Kind, rotation: Direction, y: int, highest: int): Option<Piece>
    decreases highest - y + 1
  {
    if y > highest || PlacementValid(b, Base(env, kind, y)) then None
    else match TryRotate(env.kicks, b, Base(env, kind, y), rotation)
      case Some(r) => Some(r.piece)
      case None => Rescued(env, b, kind, rotation, y + 1, highest)
  }

  lemma {:induction false} RescueIsPlaced(env: Env, b: FieldBoard, kind: Kind, rotation: Direction, y: int, highest: int)
    ensures var rescued := Rescued(env, b, kind, rotation, y, highest);
            && (NoRescue(env, b, kind, rotation, y, highest) <==> rescued.None?)
            && (rescued.Some? ==> SearchPlacement(env, b, kind, Some(rotation), y, highest).active == rescued)
    decreases highest - y + 1
  {
    if y <= highest {
      RescueIsPlaced(env, b, kind, rotation, y + 1, highest);
    }
  }

  /** The height of that rescue, and the first kick that fits there. */
  function RescueSpot(env: Env, b: FieldBoard, kind: Kind, rotation: Direction, y: int, highest: int): Option<(int, nat)>
    decreases highest - y + 1
  {
    if y > highest || PlacementValid(b, Base(env, kind, y)) then None
    else match TryRotate(env.kicks, b, Base(env, kind, y), rotation)
      case Some(r) => Some((y, r.kickIndex))
      case None => RescueSpot(env, b, kind, rotation, y + 1, highest)
  }

  /** The test of a turn with some index; any other index is no test. */
  function TestAt(env: Env, kind: Kind, rotation: Direction, k: nat): Cell {
    var tests := env.kicks(kind, 0, rotation);
    if k < |tests| then tests[k] else Cell(0, 0)
  }

  /** The client lifts the spawn and turns it back to the place of the rescue: down as far as it was lifted. */
  predicate Reunites(env: Env, b: FieldBoard, kind: Kind, rotation: Direction, lift: bool, spot: (int, nat)) {
    var lifted := FindSpawn(b, kind, lift);
    lifted.Some? &&
    var turned := TryRotate(env.kicks, b, lifted.value, rotation);
    turned.Some? &&
    var rescue, back := TestAt(env, kind, rotation, spot.1), TestAt(env, kind, rotation, turned.value.kickIndex);
    rescue.x == back.x && spot.0 + rescue.y == lifted.value.y + back.y
  }

  lemma {:induction false} RescuesKick(env: Env, b: FieldBoard, kind: Kind, rotation: Direction, y: int, highest: int)
    ensures var rescued, spot := Rescued(env, b, kind, rotation, y, highest), RescueSpot(env, b, kind, rotation, y, highest);
            && (rescued.Some? <==> spot.Some?)
            && (spot.Some? ==> rescued.value == Kicked(Base(env, kind, spot.value.0), rotation, TestAt(env, kind, rotation, spot.value.1)))
    decreases highest - y + 1
  {
    if y <= highest {
      RotationTakesTheFirstFit(b, Base(env, kind, y), rotation, env.kicks(kind, 0, rotation), 0);
      RescuesKick(env, b, kind, rotation, y + 1, highest);
    }
  }

  lemma {:induction false} LiftedSpawnIsUpright(b: FieldBoard, kind: Kind, y: int)
    ensures LiftedSpawn(b, kind, y).Some? ==> LiftedSpawn(b, kind, y).value == SpawnPiece(kind, LiftedSpawn(b, kind, y).value.y)
    decreases HEIGHT - y
  {
    if y < HEIGHT && !PlacementValid(b, SpawnPiece(kind, y)) {
      LiftedSpawnIsUpright(b, kind, y + 1);
    }
  }

  /** The client arrives at a rescued piece exactly when it turns a lifted spawn back to its place. */
  lemma ReunitingIsExact(env: Env, b: FieldBoard, kind: Kind, rotation: Direction, lift: bool)
    requires ClientRules(env)
    requires RescueSpot(env, b, kind, rotation, SPAWN_Y, HighestSpawn(env, lift)).Some?
    ensures var spot := RescueSpot(env, b, kind, rotation, SPAWN_Y, HighestSpawn(env, lift)).value;
            var rescued := Rescued(env, b, kind, rotation, SPAWN_Y, HighestSpawn(env, lift));
            rescued == TurnedSpawn(env, b, FindSpawn(b, kind, lift), Some(rotation)) <==> Reunites(env, b, kind, rotation, lift, spot)
  {
    hide PlacementValid, Rescued, RescueSpot;
    RescuesKick(env, b, kind, rotation, SPAWN_Y, HighestSpawn(env, lift));
    LiftedSpawnIsUpright(b, kind, SPAWN_Y + 1);
    var lifted := FindSpawn(b, kind, lift);
    if lifted.Some? {
      RotationTakesTheFirstFit(b, lifted.value, rotation, env.kicks(kind, 0, rotation), 0);
    }
  }

  /**
   Where a rotation rescues a blocked spawn the server places the rescued piece, and the client is right only if it
   lifts the spawn and its own first kick takes the piece back down to that very place; without a clutch lift it has
   no piece, and is always wrong.
   */
  lemma RescuesAreMispredicted(env: Env, b: FieldBoard, kind: Kind, rotation: Direction, lift: bool)
    requires ClientRules(env)
    ensures var highest := HighestSpawn(env, lift);
            var server := SearchPlacement(env, b, kind, Some(rotation), SPAWN_Y, highest).active;
            var client := TurnedSpawn(env, b, FindSpawn(b, kind, lift), Some(rotation));
            var spot := RescueSpot(env, b, kind, rotation, SPAWN_Y, highest);
            && (NoRescue(env, b, kind, rotation, SPAWN_Y, highest) <==> spot.None?)
            && (server == client <==> spot.None? || Reunites(env, b, kind, rotation, lift, spot.value))
            && (!lift ==> (server == client <==> spot.None?))
  {
    var highest := HighestSpawn(env, lift);
    RescueIsPlaced(env, b, kind, rotation, SPAWN_Y, highest);
    RescuesKick(env, b, kind, rotation, SPAWN_Y, highest);
    if NoRescue(env, b, kind, rotation, SPAWN_Y, highest) {
      SpawnsAlike(env, b, kind, Some(rotation), lift);
    } else {
      ReunitingIsExact(env, b, kind, rotation, lift);
      if !lift {
        NothingToTurn(b, kind);
      }
    }
  }

  lemma NothingToTurn(b: FieldBoard, kind: Kind)
    ensures FindSpawn(b, kind, false).Some? ==> PlacementValid(b, SpawnPiece(kind, SPAWN_Y))
  {
  }

  /** A piece with its buffered turn is placed alike exactly under this condition. */
  predicate TurnForeseen(env: Env, b: FieldBoard, kind: Kind, rotation: Option<Direction>, lift: bool) {
    rotation.Some? ==>
      var spot := RescueSpot(env, b, kind, rotation.value, SPAWN_Y, HighestSpawn(env, lift));
      spot.None? || Reunites(env, b, kind, rotation.value, lift, spot.value)
  }

  lemma TurnsSpawnAlikeExactlyWhenForeseen(env: Env, b: FieldBoard, kind: Kind, rotation: Option<Direction>, lift: bool)
    requires ClientRules(env)
    ensures SearchPlacement(env, b, kind, rotation, SPAWN_Y, HighestSpawn(env, lift)).active
            == TurnedSpawn(env, b, FindSpawn(b, kind, lift), rotation)
            <==> TurnForeseen(env, b, kind, rotation, lift)
  {
    hide SearchPlacement, TurnedSpawn, FindSpawn, RescueSpot, Reunites, NoRescue;
    if rotation.Some? {
      RescuesAreMispredicted(env, b, kind, rotation.value, lift);
    } else {
      SpawnsAlike(env, b, kind, None, lift);
    }
  }

  /** A swap, which the client never lifts, is placed alike where the footprint is free or the server finds no place. */
  predicate SwapForeseen(env: Env, b: FieldBoard, kind: Kind, rotation: Option<Direction>, lift: bool) {
    || PlacementValid(b, SpawnPiece(kind, SPAWN_Y))
    || (FindSpawn(b, kind, lift).None?
        && (rotation.Some? ==> NoRescue(env, b, kind, rotation.value, SPAWN_Y, HighestSpawn(env, lift))))
  }

  lemma SwapsAlikeExactlyWhenForeseen(env: Env, b: FieldBoard, kind: Kind, rotation: Option<Direction>, lift: bool)
    requires ClientRules(env)
    ensures SearchPlacement(env, b, kind, rotation, SPAWN_Y, HighestSpawn(env, lift)).active
            == TurnedSpawn(env, b, FindSpawn(b, kind, false), rotation)
            <==> SwapForeseen(env, b, kind, rotation, lift)
  {
    if PlacementValid(b, SpawnPiece(kind, SPAWN_Y)) {
      if rotation.Some? {
        FreeFootprintsAreForeseen(env, b, kind, rotation.value, lift);
      }
      SpawnsAlike(env, b, kind, rotation, lift);
    } else {
      hide SearchPlacement, NoRescue, Rescued;
      assert FindSpawn(b, kind, false).None?;
      if rotation.Some? {
        RescueIsPlaced(env, b, kind, rotation.value, SPAWN_Y, HighestSpawn(env, lift));
      }
      if rotation.Some? ==> NoRescue(env, b, kind, rotation.value, SPAWN_Y, HighestSpawn(env, lift)) {
        SpawnsAlike(env, b, kind, rotation, lift);
      }
    }
  }

  /** The client never lifts a held piece; the server does after a clearing lock. */
  predicate HoldForeseen(env: Env, s: Sim) {
    s.canHold && s.allowClutchLift ==>
      || PlacementValid(s.board, SpawnPiece(Replacement(env, s), SPAWN_Y))
      || LiftedSpawn(s.board, Replacement(env, s), SPAWN_Y + 1).None?
  }

  /** A hold places its piece alike on both sides exactly under this condition. */
  lemma HoldsSpawnAlikeExactlyWhenForeseen(env: Env, s: Sim)
    requires ClientRules(env) && s.canHold
    ensures var kind := Replacement(env, s);
            var placed := SearchPlacement(env, s.board, kind, None, SPAWN_Y, HighestSpawn(env, s.allowClutchLift));
            placed.active == FindSpawn(s.board, kind, false) <==> HoldForeseen(env, s)
  {
    SpawnsAlike(env, s.board, Replacement(env, s), None, s.allowClutchLift);
  }

  /** What a pending generation must satisfy for the client to foresee it. */
  predicate FinishForeseen(env: Env, s: Sim) {
    s.generation.Some? ==>
      var g := s.generation.value;
      if s.bufferedHold then
        && FindSpawn(s.board, g.incoming, g.allowClutchLift).Some?
        && SwapForeseen(env, s.board, Replacement(env, s), s.bufferedRotation, g.allowClutchLift)
      else TurnForeseen(env, s.board, g.incoming, s.bufferedRotation, g.allowClutchLift)
  }

  /** After a hold the server's turns must come out as the last of them alone would. */
  predicate WatchForeseen(env: Env, s: Sim, w: Watch) {
    w.AfterHold? ==> s.active == TurnedSpawn(env, s.board, w.spawned, w.last)
  }

  lemma FindSpawnIsTheKind(b: FieldBoard, kind: Kind, lift: bool)
    ensures FindSpawn(b, kind, lift).Some? ==> FindSpawn(b, kind, lift).value.kind == kind
  {
    LiftedSpawnIsTheKind(b, kind, SPAWN_Y + 1);
  }

  lemma {:induction false} LiftedSpawnIsTheKind(b: FieldBoard, kind: Kind, y: int)
    ensures LiftedSpawn(b, kind, y).Some? ==> LiftedSpawn(b, kind, y).value.kind == kind
    decreases HEIGHT - y
  {
    if y < HEIGHT && !PlacementValid(b, SpawnPiece(kind, y)) {
      LiftedSpawnIsTheKind(b, kind, y + 1);
    }
  }

  lemma PlainFinishAlikeExactlyWhenForeseen(env: Env, p: Predicting, s: Sim)
    requires ClientRules(env) && s.generation.Some? && InStep(env, p, s, NoHold) && !s.bufferedHold
    ensures Mirrors(env, FinishPredicted(env.kicks, p).client, Finish(env, s)) <==> FinishForeseen(env, s)
  {
    hide SearchPlacement, FindSpawn, TryRotate, TurnForeseen;
    var g := s.generation.value;
    TurnsSpawnAlikeExactlyWhenForeseen(env, s.board, g.incoming, s.bufferedRotation, g.allowClutchLift);
  }

  lemma SwappingPreview(env: Env, c: Client, d: Client, s: Sim, t: Sim)
    requires PreviewOk(env, c, s) && c.hold == s.hold && (c.hold.Some? || c.next != [])
    requires d.next == (if c.hold.None? then c.next[1..] else c.next)
    requires d.pieceCursor == c.pieceCursor + (if c.hold.None? then 1 else 0)
    requires t.cursor == s.cursor + (if s.hold.None? then 1 else 0)
    ensures PreviewOk(env, d, t)
    ensures Replacement(env, s) == if c.hold.Some? then c.hold.value else c.next[0]
  {
    if c.hold.None? {
      PreviewShifts(env, c, d, s, t);
    }
  }

  /** A hold buffered behind a lock swaps the piece that the client has already placed. */
  lemma SwapFinishAlikeExactlyWhenForeseen(env: Env, p: Predicting, s: Sim)
    requires ClientRules(env) && s.generation.Some? && InStep(env, p, s, NoHold) && s.bufferedHold
    requires p.client.hold.Some? || p.client.next != []
    ensures Mirrors(env, FinishPredicted(env.kicks, p).client, Finish(env, s)) <==> FinishForeseen(env, s)
  {
    hide SearchPlacement, FindSpawn, TryRotate, NoRescue, SwapForeseen, PreviewOk;
    var g, kind := s.generation.value, Replacement(env, s);
    FindSpawnIsTheKind(s.board, g.incoming, g.allowClutchLift);
    SwapsAlikeExactlyWhenForeseen(env, s.board, kind, s.bufferedRotation, g.allowClutchLift);
    if p.client.active.Some? {
      assert HoldTakes(p.client);
      SwappingPreview(env, p.client, FinishPredicted(env.kicks, p).client, s, Finish(env, s));
    } else {
      assert FinishPredicted(env.kicks, p).client == p.client && p.client.canHold && !Finish(env, s).canHold;
    }
  }

  lemma WaitingMirrorsExactlyWhenForeseen(env: Env, p: Predicting, s: Sim, w: Watch)
    requires s.generation.None? && w.AfterHold? && InStep(env, p, s, w)
    ensures Mirrors(env, FinishPredicted(env.kicks, p).client, Finish(env, s)) <==> WatchForeseen(env, s, w)
  {
    hide TryRotate;
  }

  /** Both sides settle alike exactly when the pending piece and the turns after a hold are foreseen. */
  lemma FinishingAlikeExactlyWhenForeseen(env: Env, p: Predicting, s: Sim, w: Watch)
    requires ClientRules(env) && InStep(env, p, s, w)
    requires p.bufferedHold ==> p.client.hold.Some? || p.client.next != []
    ensures Mirrors(env, FinishPredicted(env.kicks, p).client, Finish(env, s)) <==> FinishForeseen(env, s) && WatchForeseen(env, s, w)
    ensures Finish(env, s).generation.None?
  {
    if s.generation.Some? {
      hide FinishForeseen, MirrorsPending, Mirrors, FinishPredicted;
      if s.bufferedHold {
        SwapFinishAlikeExactlyWhenForeseen(env, p, s);
      } else {
        PlainFinishAlikeExactlyWhenForeseen(env, p, s);
      }
    } else if w.AfterHold? {
      hide MirrorsHeld, WatchForeseen, Mirrors, FinishPredicted;
      WaitingMirrorsExactlyWhenForeseen(env, p, s, w);
    }
  }

  lemma MirroringIsInStep(env: Env, p: Predicting, s: Sim, w: Watch)
    requires InStep(env, p, s, w) && Mirrors(env, FinishPredicted(env.kicks, p).client, Finish(env, s))
    ensures InStep(env, FinishPredicted(env.kicks, p), Finish(env, s), NoHold)
  {
    hide Mirrors, MirrorsPending, PredictHold, PredictRotate, SearchPlacement;
  }

  lemma FinishingAlike(env: Env, p: Predicting, s: Sim, w: Watch)
    requires ClientRules(env) && InStep(env, p, s, w) && FinishForeseen(env, s) && WatchForeseen(env, s, w)
    requires p.bufferedHold ==> p.client.hold.Some? || p.client.next != []
    ensures InStep(env, FinishPredicted(env.kicks, p), Finish(env, s), NoHold)
    ensures Finish(env, s).generation.None?
  {
    hide InStep, Mirrors, FinishForeseen, WatchForeseen, FinishPredicted, Finish;
    FinishingAlikeExactlyWhenForeseen(env, p, s, w);
    MirroringIsInStep(env, p, s, w);
  }

  // ---------------------------------------------------------------- locking

  predicate NoneReady(ps: seq<Packet>, frame: int) { forall i | 0 <= i < |ps| :: ps[i].appliesAtFrame > frame }

  lemma NoneReadyTakesNothing(ps: seq<Packet>, frame: int, room: nat)
    requires PacketsOk(ps) && NoneReady(ps, frame)
    ensures TakeReady(ps, frame, room) == (ps, [])
  {
  }

  /** With nothing ready a lock changes the board as the client does, and nobody tops out by it. */
  lemma LocksAlike(env: Env, s: Sim, frame: int)
    requires Fits(s) && NoFullRow(s.board) && frame >= 0 && RollsOk(env) && CapFits(env)
    requires NoneReady(s.pendingGarbage, frame)
    ensures ResolveLock(env, s, frame).Ok? && LockPiece(s.board, s.active.value).Some?
    ensures var o, locked := ResolveLock(env, s, frame).value, LockPiece(s.board, s.active.value).value;
            && o.board == locked.board && !o.toppedOut
            && o.combo == (if locked.Lines() > 0 then s.combo + 1 else -1)
            && (o.summary.lines > 0 <==> locked.Lines() > 0)
  {
    hide CancelAll, ResolveClear, OpenerMultiplier, Amount, ClassifySpin, PlacementValid, TakeReady, NoFullRow;
    LockOutcomeIsSafe(env, s, frame);
    NoneReadyTakesNothing(s.pendingGarbage, frame, env.rules.garbageCap);
  }

  /** A hard drop on the server: the lock's board, counters and one requested piece. */
  lemma HardDropRequests(env: Env, s: Sim, frame: int)
    requires Valid(s) && s.generation.None? && !s.toppedOut
    requires frame >= 0 && RollsOk(env) && CapFits(env) && NoneReady(s.pendingGarbage, frame)
    ensures var r, landed := Lock(env, FallToFloor(s), frame, ByHardDrop), MoveVertical(s.board, s.active.value, FAR);
            && r.Ok? && LockPiece(s.board, landed).Some?
            && var t, locked := r.value, LockPiece(s.board, landed).value;
            && t.board == locked.board && t.hold == s.hold && t.piecesPlaced == s.piecesPlaced + 1
            && t.combo == (if locked.Lines() > 0 then s.combo + 1 else -1)
            && t.cursor == s.cursor + 1 && t.bufferedRotation == s.bufferedRotation && t.bufferedHold == s.bufferedHold
            && t.allowClutchLift == (locked.Lines() > 0)
            && t.generation == Some(Generation(env.pieces(s.cursor), true, Some(ByHardDrop), locked.Lines() > 0, true))
  {
    hide LockPiece, ResolveLock, PlacementValid, MoveVertical, NoneReady, NoFullRow, RollsOk;
    var low := FallToFloor(s);
    FortyRowsReachTheFloor(s);
    FloorMoves(s);
    LocksAlike(env, low, frame);
  }

  lemma PreviewShifts(env: Env, c: Client, d: Client, s: Sim, t: Sim)
    requires PreviewOk(env, c, s) && c.next != []
    requires d.next == c.next[1..] && d.pieceCursor == c.pieceCursor + 1 && t.cursor == s.cursor + 1
    ensures PreviewOk(env, d, t) && c.next[0] == env.pieces(s.cursor)
  {
    assert c.next[0] == env.pieces(s.cursor + 0);
    forall i | 0 <= i < |d.next|
      ensures d.next[i] == env.pieces(t.cursor + i)
    {
      assert d.next[i] == c.next[i + 1] == env.pieces(s.cursor + (i + 1));
    }
  }

  lemma HardDropsAlike(env: Env, c: Client, s: Sim, frame: int)
    requires ClientRules(env) && Valid(s) && s.generation.None? && !s.toppedOut && !s.bufferedHold
    requires frame >= 0 && RollsOk(env) && CapFits(env) && NoneReady(s.pendingGarbage, frame)
    requires Mirrors(env, c, s) && c.next != []
    ensures var r, d := Lock(env, FallToFloor(s), frame, ByHardDrop), PredictHardDrop(c);
            && r.Ok? && d.Some? && r.value.generation.Some?
            && MirrorsPending(env, d.value, r.value)
            && d.value.piecesPlaced == c.piecesPlaced + 1 && |d.value.next| == |c.next| - 1
            && r.value.bufferedRotation == s.bufferedRotation && !r.value.bufferedHold
  {
    hide FindSpawn, LockPiece, Lock, FallToFloor, PlacementValid, MoveVertical, PreviewOk, NoneReady, RollsOk, NoFullRow;
    HardDropRequests(env, s, frame);
    PreviewShifts(env, c, PredictHardDrop(c).value, s, Lock(env, FallToFloor(s), frame, ByHardDrop).value);
  }

  // ---------------------------------------------------------------- one action

  predicate ActionForeseen(env: Env, s: Sim, a: Action) {
    s.active.Some? && !s.toppedOut ==>
      (a.Hold? ==> HoldForeseen(env, s)) && (a.Move? ==> MoveForeseen(s, a.side, a.pressed))
  }

  /** Movement changes the piece and what the client does not model. */
  predicate OnlyMoved(s: Sim, t: Sim) {
    t == s.(active := t.active, held := t.held, horizontal := t.horizontal, horizontalFrames := t.horizontalFrames,
            lockFrames := t.lockFrames, lockResets := t.lockResets, lastRotation := t.lastRotation)
  }

  lemma MovedAlike(env: Env, c: Client, s: Sim, t: Sim)
    requires Mirrors(env, c, s) && OnlyMoved(s, t)
    ensures Mirrors(env, c.(active := t.active), t)
  {
  }

  /** What an action that is neither a drop nor a hold does to both pieces. */
  lemma MovementAlike(env: Env, c: Client, s: Sim, a: Action, frame: int)
    requires Valid(s) && s.generation.None? && !s.toppedOut && s.active.Some?
    requires c.active == s.active && c.board == s.board && !c.toppedOut
    requires !a.HardDrop? && !a.Hold? && ActionForeseen(env, s, a)
    ensures var r, d := ApplyAction(env, s, a, frame), PredictAction(env.kicks, c, a);
            r.Ok? && d.Some? && OnlyMoved(s, r.value) && d.value == c.(active := r.value.active)
  {
    hide PlacementValid, MoveHorizontal, MoveToTheWall, FallToFloor, Fall, Turn, SetHorizontal, TryRotate, MoveVertical,
         StepOnce, StepToWall, NoFullRow;
    match a
    case Move(side, pressed) => MovesAlikeExactlyWhenForeseen(env, s, side, pressed);
    case MoveStep(side) => StepsAlike(env, s, side);
    case MoveToWall(side) => WallsAlike(env, s, side);
    case SoftDropStep(cells) => FallsAlike(s, if cells > 0 then cells else 0);
    case SonicDrop => FortyRowsReachTheFloor(s);
    case Rotate(direction) => TurnsAlike(env, s, direction);
    case SoftDrop(_) =>
    case ClearHeld =>
  }

  /** Does the hold swap pieces? */
  predicate Takes(s: Sim, a: Action) { a.Hold? && s.active.Some? && !s.toppedOut && s.canHold }

  /** What the client watches for after an action. */
  function WatchAfter(s: Sim, a: Action, t: Sim): Watch { if Takes(s, a) then AfterHold(t.active, None) else NoHold }

  /** A hold on the server places its piece at once. */
  lemma HoldingSpawns(env: Env, s: Sim)
    requires s.generation.None? && s.active.Some? && s.canHold && !s.bufferedHold && s.bufferedRotation.None?
    ensures var r, placed := PerformHold(env, s),
              SearchPlacement(env, s.board, Replacement(env, s), None, env.rules.spawnY, HighestSpawn(env, s.allowClutchLift));
            && r.Ok?
            && var t := r.value;
            && t.board == s.board && t.combo == s.combo && t.piecesPlaced == s.piecesPlaced
            && t.active == placed.active && (t.toppedOut <==> t.active.None?)
            && t.hold == Some(s.active.value.kind) && !t.canHold
            && t.cursor == s.cursor + (if s.hold.None? then 1 else 0)
            && t.generation.None? && !t.bufferedHold && t.bufferedRotation.None?
  {
    hide SearchPlacement;
  }

  lemma HoldAlike(env: Env, c: Client, s: Sim)
    requires ClientRules(env) && s.generation.None? && s.active.Some? && s.canHold && !s.bufferedHold && s.bufferedRotation.None?
    requires Mirrors(env, c, s) && HoldForeseen(env, s) && (c.hold.Some? || c.next != [])
    ensures var r, d := PerformHold(env, s), PredictHold(c);
            && r.Ok? && r.value.generation.None? && !r.value.bufferedHold && r.value.bufferedRotation.None?
            && Mirrors(env, d, r.value) && !r.value.canHold && r.value.hold.Some? && (r.value.toppedOut <==> r.value.active.None?)
  {
    hide SearchPlacement, FindSpawn, PerformHold, HoldForeseen, PreviewOk;
    HoldingSpawns(env, s);
    HoldsSpawnAlikeExactlyWhenForeseen(env, s);
    SwappingPreview(env, c, PredictHold(c), s, PerformHold(env, s).value);
  }

  lemma SettledHoldAlike(env: Env, p: Predicting, s: Sim, frame: int)
    requires ClientRules(env) && s.generation.None? && InStep(env, p, s, NoHold)
    requires s.active.Some? && !s.toppedOut && HoldForeseen(env, s) && (p.client.hold.Some? || p.client.next != [])
    ensures var r, q := ApplyAction(env, s, Hold, frame), PredictNext(env.kicks, p, Hold);
            r.Ok? && q.Some? && InStep(env, q.value, r.value, WatchAfter(s, Hold, r.value))
  {
    hide PerformHold, PredictHold, HoldForeseen, Mirrors;
    assert p.client.active == s.active && p.client.canHold == s.canHold && p.client.toppedOut == s.toppedOut by {
      MirroredFlags(env, p.client, s);
    }
    if s.canHold {
      HoldAlike(env, p.client, s);
      MirroredFlags(env, PredictHold(p.client), PerformHold(env, s).value);
    } else {
      NoHoldNoChange(env, p.client, s);
    }
  }

  lemma MirroredFlags(env: Env, c: Client, s: Sim)
    requires Mirrors(env, c, s)
    ensures c.active == s.active && c.canHold == s.canHold && c.toppedOut == s.toppedOut && c.board == s.board
    ensures c.(active := s.active) == c
  {
  }

  lemma NoHoldNoChange(env: Env, c: Client, s: Sim)
    requires !s.canHold && !c.canHold
    ensures PerformHold(env, s) == Ok(s) && PredictHold(c) == c
  {
  }

  lemma SettledActionAlike(env: Env, p: Predicting, s: Sim, a: Action, frame: int)
    requires ClientRules(env) && Valid(s) && s.generation.None? && InStep(env, p, s, NoHold)
    requires frame >= 0 && RollsOk(env) && CapFits(env) && NoneReady(s.pendingGarbage, frame)
    requires ActionForeseen(env, s, a) && (a.HardDrop? ==> p.client.next != [])
    requires a.Hold? ==> p.client.hold.Some? || p.client.next != []
    ensures var r, q := ApplyAction(env, s, a, frame), PredictNext(env.kicks, p, a);
            r.Ok? && q.Some? && InStep(env, q.value, r.value, WatchAfter(s, a, r.value))
  {
    hide PredictHardDrop, Lock, FallToFloor, PlacementValid, NoFullRow, RollsOk, NoneReady, FindSpawn, HoldForeseen, PerformHold;
    if s.active.Some? && !s.toppedOut {
      if a.HardDrop? {
        HardDropsAlike(env, p.client, s, frame);
      } else if a.Hold? {
        SettledHoldAlike(env, p, s, frame);
      } else {
        hide ApplyAction, PredictAction;
        MovementAlike(env, p.client, s, a, frame);
        MovedAlike(env, p.client, s, ApplyAction(env, s, a, frame).value);
      }
    }
  }

  /** A rotation after a hold: the server turns at once, the client only remembers it. */
  lemma TurnAfterHold(env: Env, p: Predicting, s: Sim, w: Watch, direction: Direction, frame: int)
    requires Valid(s) && s.generation.None? && w.AfterHold? && InStep(env, p, s, w)
    ensures var r, q := ApplyAction(env, s, Rotate(direction), frame), PredictNext(env.kicks, p, Rotate(direction));
            && r.Ok? && q.Some? && InStep(env, q.value, r.value, w.(last := Some(direction))) && r.value.generation.None?
            && r.value.board == s.board && r.value.active == TurnedSpawn(env, s.board, s.active, Some(direction))
  {
    hide PlacementValid, Turn, TryRotate, NoFullRow;
    if s.active.Some? {
      TurnsAlike(env, s, direction);
      MovedAlike(env, p.client.(active := s.active), s, Turn(env, s, direction));
    }
  }

  lemma HoldAfterHold(env: Env, p: Predicting, s: Sim, w: Watch, frame: int)
    requires s.generation.None? && w.AfterHold? && InStep(env, p, s, w)
    ensures ApplyAction(env, s, Hold, frame) == Ok(s)
    ensures PredictNext(env.kicks, p, Hold) == Some(p.(bufferedHold := true)) && InStep(env, p.(bufferedHold := true), s, w)
  {
  }

  // ---------------------------------------------------------------- whole batches

  lemma QueueStaysUnready(ps: seq<Packet>, qs: seq<Packet>, frame: int)
    requires DueLike(qs, ps) && NoneReady(ps, frame)
    ensures NoneReady(qs, frame)
  {
    forall i | 0 <= i < |qs|
      ensures qs[i].appliesAtFrame > frame
    {
      assert qs[i].appliesAtFrame == ps[i + |ps| - |qs|].appliesAtFrame;
    }
  }

  function HardDrops(actions: seq<Action>): nat
    decreases |actions|
  {
    if actions == [] then 0 else (if actions[0].HardDrop? then 1 else 0) + HardDrops(actions[1..])
  }

  /** The preview pieces a batch may draw: one for each hard drop, and one for a hold while nothing is held. */
  function Draws(hold: Option<Kind>, bufferedHold: bool, actions: seq<Action>): nat {
    HardDrops(actions) + (if hold.None? && (bufferedHold || Hold in actions) then 1 else 0)
  }

  predicate Supplied(p: Predicting, actions: seq<Action>) {
    Draws(p.client.hold, p.bufferedHold, actions) <= |p.client.next|
  }

  lemma FinishingSupplies(kicks: KickTable, p: Predicting, actions: seq<Action>)
    requires Supplied(p, actions)
    ensures Supplied(FinishPredicted(kicks, p), actions)
  {
    hide FindSpawn, TryRotate;
  }

  lemma DroppingSupplies(c: Client)
    requires c.active.Some? && PredictHardDrop(c).Some?
    ensures PredictHardDrop(c).value.hold == c.hold && |PredictHardDrop(c).value.next| >= |c.next| - 1
  {
    hide FindSpawn, LockPiece;
  }

  lemma SettledActionSupplies(kicks: KickTable, p: Predicting, a: Action, rest: seq<Action>)
    requires !p.pending && Supplied(p, [a] + rest) && PredictNext(kicks, p, a).Some?
    ensures Supplied(PredictNext(kicks, p, a).value, rest)
  {
    hide FindSpawn, TryRotate, StepOnce, StepToWall, MoveVertical, PredictHardDrop;
    assert ([a] + rest)[1..] == rest;
    assert Hold in [a] + rest <==> a.Hold? || Hold in rest;
    if a.HardDrop? && p.client.active.Some? && !p.client.toppedOut {
      DroppingSupplies(p.client);
    }
  }

  lemma ActionSupplies(kicks: KickTable, p: Predicting, a: Action, rest: seq<Action>)
    requires Supplied(p, [a] + rest) && PredictNext(kicks, p, a).Some?
    ensures Supplied(PredictNext(kicks, p, a).value, rest)
  {
    if p.pending && (a.Hold? || a.Rotate?) {
      assert ([a] + rest)[1..] == rest;
      assert Hold in [a] + rest <==> a.Hold? || Hold in rest;
    } else {
      hide FinishPredicted;
      PredictingSettled(kicks, p, a);
      FinishingSupplies(kicks, p, [a] + rest);
      assert !FinishPredicted(kicks, p).pending by { FinishedIsSettled(kicks, p); }
      SettledActionSupplies(kicks, FinishPredicted(kicks, p), a, rest);
    }
  }

  lemma FinishedIsSettled(kicks: KickTable, p: Predicting)
    ensures !FinishPredicted(kicks, p).pending
  {
  }

  lemma PredictingSettled(kicks: KickTable, p: Predicting, a: Action)
    requires !(p.pending && (a.Hold? || a.Rotate?))
    ensures PredictNext(kicks, p, a) == PredictNext(kicks, FinishPredicted(kicks, p), a)
  {
    hide PredictHold, PredictRotate, PredictAction;
    assert FinishPredicted(kicks, FinishPredicted(kicks, p)) == FinishPredicted(kicks, p);
  }

  /** Is the action buffered by the server behind a pending generation? */
  predicate Buffered(s: Sim, a: Action) { s.generation.Some? && (a.Hold? || a.Rotate?) }

  /** Is the action only buffered by the client, after a hold? */
  predicate Awaited(w: Watch, a: Action) { w.AfterHold? && (a.Hold? || a.Rotate?) }

  function NextWatch(env: Env, s: Sim, w: Watch, a: Action, t: Sim): Watch {
    if Buffered(s, a) then NoHold
    else if Awaited(w, a) then (if a.Rotate? then w.(last := Some(a.direction)) else w)
    else WatchAfter(Finish(env, s), a, t)
  }

  /** The condition of one action, on the server's side of the run. */
  predicate Foreseeable(env: Env, s: Sim, w: Watch, a: Action) {
    || Buffered(s, a) || Awaited(w, a)
    || (FinishForeseen(env, s) && WatchForeseen(env, s, w) && ActionForeseen(env, Finish(env, s), a))
  }

  lemma BufferedAlike(env: Env, p: Predicting, s: Sim, w: Watch, a: Action, frame: int)
    requires InStep(env, p, s, w) && Buffered(s, a)
    ensures var r, q := TakeAction(env, s, a, frame), PredictNext(env.kicks, p, a);
            r.Ok? && q.Some? && InStep(env, q.value, r.value, NoHold)
  {
    hide FindSpawn;
  }

  lemma AwaitedAlike(env: Env, p: Predicting, s: Sim, w: Watch, a: Action, frame: int)
    requires Valid(s) && InStep(env, p, s, w) && Awaited(w, a) && s.generation.None?
    ensures var r, q := TakeAction(env, s, a, frame), PredictNext(env.kicks, p, a);
            r.Ok? && q.Some? && InStep(env, q.value, r.value, NextWatch(env, s, w, a, r.value))
  {
    hide InStep, ApplyAction, PredictNext, Valid;
    if a.Hold? {
      HoldAfterHold(env, p, s, w, frame);
    } else {
      TurnAfterHold(env, p, s, w, a.direction, frame);
    }
  }

  lemma SettlingAlike(env: Env, p: Predicting, s: Sim, w: Watch, a: Action, rest: seq<Action>, frame: int)
    requires ClientRules(env) && Valid(s) && InStep(env, p, s, w) && Foreseeable(env, s, w, a) && Supplied(p, [a] + rest)
    requires frame >= 0 && RollsOk(env) && CapFits(env) && NoneReady(s.pendingGarbage, frame)
    requires !Buffered(s, a) && !Awaited(w, a) && (p.pending ==> !a.Hold? && !a.Rotate?)
    ensures var r, q := TakeAction(env, s, a, frame), PredictNext(env.kicks, p, a);
            r.Ok? && q.Some? && InStep(env, q.value, r.value, NextWatch(env, s, w, a, r.value))
  {
    hide InStep, NoneReady, RollsOk, Valid, ApplyAction, PredictNext, FinishPredicted, FinishForeseen, WatchForeseen,
         ActionForeseen, Supplied;
    var settled, finished := FinishPredicted(env.kicks, p), Finish(env, s);
    FinishSettles(env, s);
    SuppliesTheHold(p, [a] + rest);
    FinishingAlike(env, p, s, w);
    FinishingSupplies(env.kicks, p, [a] + rest);
    SuppliesTheAction(settled, a, rest);
    assert finished.pendingGarbage == s.pendingGarbage;
    PredictingSettled(env.kicks, p, a);
    SettledActionAlike(env, settled, finished, a, frame);
  }

  lemma SuppliesTheHold(p: Predicting, actions: seq<Action>)
    requires Supplied(p, actions)
    ensures p.bufferedHold ==> p.client.hold.Some? || p.client.next != []
  {
  }

  lemma SuppliesTheAction(p: Predicting, a: Action, rest: seq<Action>)
    requires Supplied(p, [a] + rest)
    ensures a.HardDrop? ==> p.client.next != []
    ensures a.Hold? ==> p.client.hold.Some? || p.client.next != []
  {
    assert ([a] + rest)[0] == a;
  }

  lemma PendingMeansWatched(env: Env, p: Predicting, s: Sim, w: Watch)
    requires InStep(env, p, s, w)
    ensures p.pending <==> s.generation.Some? || w.AfterHold?
    ensures w.AfterHold? ==> s.generation.None?
  {
  }

  lemma ActionAlike(env: Env, p: Predicting, s: Sim, w: Watch, a: Action, rest: seq<Action>, frame: int)
    requires ClientRules(env) && Valid(s) && InStep(env, p, s, w) && Foreseeable(env, s, w, a) && Supplied(p, [a] + rest)
    requires frame >= 0 && RollsOk(env) && CapFits(env) && NoneReady(s.pendingGarbage, frame)
    ensures var r, q := TakeAction(env, s, a, frame), PredictNext(env.kicks, p, a);
            && r.Ok? && q.Some? && InStep(env, q.value, r.value, NextWatch(env, s, w, a, r.value))
            && Valid(r.value) && NoneReady(r.value.pendingGarbage, frame) && Supplied(q.value, rest)
  {
    hide InStep, Foreseeable, NoneReady, RollsOk, Valid, TakeAction, PredictNext, Supplied;
    TakeActionIsSafe(env, s, a, frame);
    TakeActionFlows(env, s, a, frame);
    QueueStaysUnready(s.pendingGarbage, TakeAction(env, s, a, frame).value.pendingGarbage, frame);
    PendingMeansWatched(env, p, s, w);
    if Buffered(s, a) {
      BufferedAlike(env, p, s, w, a, frame);
    } else if Awaited(w, a) {
      AwaitedAlike(env, p, s, w, a, frame);
    } else {
      SettlingAlike(env, p, s, w, a, rest, frame);
    }
    ActionSupplies(env.kicks, p, a, rest);
  }

  /** The condition of a whole batch, read off the server's run. */
  predicate Foreseen(env: Env, s: Sim, w: Watch, actions: seq<Action>, frame: int)
    decreases |actions|
  {
    if actions == [] then FinishForeseen(env, s) && WatchForeseen(env, s, w)
    else
      && Foreseeable(env, s, w, actions[0])
      && var r := TakeAction(env, s, actions[0], frame);
         r.Ok? ==> Foreseen(env, r.value, NextWatch(env, s, w, actions[0], r.value), actions[1..], frame)
  }

  /** Both sides are in step, and the client can finish as the server does. */
  ghost predicate EndsInStep(env: Env, p: Predicting, s: Sim) {
    exists w :: InStep(env, p, s, w) && FinishForeseen(env, s) && WatchForeseen(env, s, w)
  }

  lemma {:induction false} ActionsAlike(env: Env, p: Predicting, s: Sim, w: Watch, actions: seq<Action>, frame: int)
    requires ClientRules(env) && Valid(s) && InStep(env, p, s, w) && Foreseen(env, s, w, actions, frame) && Supplied(p, actions)
    requires frame >= 0 && RollsOk(env) && CapFits(env) && NoneReady(s.pendingGarbage, frame)
    ensures var r, q := TakeActions(env, s, actions, frame), PredictAll(env.kicks, p, actions);
            r.Ok? && q.Some? && EndsInStep(env, q.value, r.value) && Supplied(q.value, [])
    decreases |actions|
  {
    if actions != [] {
      hide InStep, Foreseeable, FinishForeseen, WatchForeseen, TakeAction, PredictNext, NoneReady, RollsOk, Valid, Supplied,
           EndsInStep, NextWatch;
      assert [actions[0]] + actions[1..] == actions;
      ActionAlike(env, p, s, w, actions[0], actions[1..], frame);
      var t := TakeAction(env, s, actions[0], frame).value;
      ActionsAlike(env, PredictNext(env.kicks, p, actions[0]).value, t, NextWatch(env, s, w, actions[0], t), actions[1..], frame);
    }
  }

  /**
   Prediction refines authority. For any batch the server could foresee (a hold only where its piece spawns alike and
   the turns after it come out as the last one; held movement only where the key state allows it; no buffered rotation
   that rescues a blocked spawn out of the client's reach), with no garbage ready and enough preview pieces, the client's state mirrors the
   server's action phase: the same board, active piece, hold, combo, cursor, preview, count and top-out; and neither
   side raises an error.
   */
  lemma PredictionRefinesAuthority(env: Env, c: Client, s: Sim, actions: seq<Action>, frame: int)
    requires ClientRules(env) && RollsOk(env) && CapFits(env) && frame >= 0
    requires Valid(s) && s.generation.None? && Mirrors(env, c, s)
    requires NoneReady(s.pendingGarbage, frame) && Draws(c.hold, false, actions) <= |c.next|
    requires Foreseen(env, s, NoHold, actions, frame)
    ensures ActionPhase(env, s, actions, frame).Ok? && Predict(env.kicks, c, actions).Some?
    ensures Mirrors(env, Predict(env.kicks, c, actions).value.client, ActionPhase(env, s, actions, frame).value)
  {
    hide FinishForeseen, WatchForeseen, Foreseen, NoneReady, RollsOk, Mirrors, MirrorsPending, MirrorsHeld, NoFullRow,
         FinishPredicted, Finish, Supplied, Draws;
    assert InStep(env, Begin(c), s, NoHold);
    assert Supplied(Begin(c), actions) by { BeginsSupplied(c, actions); }
    ActionsAlike(env, Begin(c), s, NoHold, actions, frame);
    var p, t := PredictAll(env.kicks, Begin(c), actions).value, TakeActions(env, s, actions, frame).value;
    var w :| InStep(env, p, t, w) && FinishForeseen(env, t) && WatchForeseen(env, t, w);
    SuppliesTheHold(p, []);
    FinishingAlike(env, p, t, w);
  }

  // ---------------------------------------------------------------- exactly when prediction is right

  /** Prediction is right each time both sides have settled: wherever no hold or rotation is about to be buffered. */
  ghost predicate RightThroughout(env: Env, p: Predicting, s: Sim, w: Watch, actions: seq<Action>, frame: int)
    decreases |actions|
  {
    if actions == [] then Mirrors(env, FinishPredicted(env.kicks, p).client, Finish(env, s))
    else
      var a := actions[0];
      var r, q := TakeAction(env, s, a, frame), PredictNext(env.kicks, p, a);
      && (Buffered(s, a) || Awaited(w, a) || Mirrors(env, FinishPredicted(env.kicks, p).client, Finish(env, s)))
      && r.Ok? && q.Some? && RightThroughout(env, q.value, r.value, NextWatch(env, s, w, a, r.value), actions[1..], frame)
  }

  lemma DifferentPiecesAreSeen(env: Env, p: Predicting, s: Sim, actions: seq<Action>, frame: int)
    requires s.generation.None? && !p.pending && p.client.active != s.active
    ensures !RightThroughout(env, p, s, NoHold, actions, frame)
  {
    hide PreviewOk, SameCounters;
  }

  /** The client has found no place for a held piece that the server has lifted. */
  predicate Lost(p: Predicting, s: Sim) {
    && p.pending && p.client.active.None? && p.client.toppedOut
    && s.generation.None? && s.active.Some? && !s.toppedOut && !s.canHold
  }

  lemma AwaitingStaysLost(env: Env, p: Predicting, s: Sim, w: Watch, a: Action, frame: int)
    requires Lost(p, s) && Awaited(w, a)
    ensures var r, q := TakeAction(env, s, a, frame), PredictNext(env.kicks, p, a);
            r.Ok? && q.Some? && Lost(q.value, r.value) && NextWatch(env, s, w, a, r.value).AfterHold?
  {
    hide TryRotate;
  }

  lemma {:induction false} LostPiecesAreSeen(env: Env, p: Predicting, s: Sim, w: Watch, actions: seq<Action>, frame: int)
    requires Lost(p, s) && w.AfterHold?
    ensures !RightThroughout(env, p, s, w, actions, frame)
    decreases |actions|
  {
    assert FinishPredicted(env.kicks, p).client == p.client;
    hide FinishPredicted, TakeAction, PredictNext, NextWatch, PreviewOk, SameCounters;
    if actions != [] && Awaited(w, actions[0]) {
      AwaitingStaysLost(env, p, s, w, actions[0], frame);
      var t, q := TakeAction(env, s, actions[0], frame).value, PredictNext(env.kicks, p, actions[0]).value;
      LostPiecesAreSeen(env, q, t, NextWatch(env, s, w, actions[0], t), actions[1..], frame);
    }
  }

  lemma UnforeseenMovesDiffer(env: Env, p: Predicting, s: Sim, a: Action, frame: int)
    requires s.generation.None? && !p.pending && Mirrors(env, p.client, s) && a.Move? && !ActionForeseen(env, s, a)
    ensures var r, q := ApplyAction(env, s, a, frame), PredictNext(env.kicks, p, a);
            && r.Ok? && q.Some? && r.value.generation.None? && !q.value.pending && q.value.client.active != r.value.active
  {
    hide PlacementValid, StepOnce, SetHorizontal, MoveForeseen, PreviewOk;
    MovesAlikeExactlyWhenForeseen(env, s, a.side, a.pressed);
  }

  lemma UnforeseenHoldsAreLost(env: Env, p: Predicting, s: Sim, frame: int)
    requires ClientRules(env) && s.generation.None? && !s.bufferedHold && s.bufferedRotation.None?
    requires !p.pending && Mirrors(env, p.client, s) && !ActionForeseen(env, s, Hold)
    requires p.client.hold.Some? || p.client.next != []
    ensures var r, q := ApplyAction(env, s, Hold, frame), PredictNext(env.kicks, p, Hold);
            r.Ok? && q.Some? && Lost(q.value, r.value) && WatchAfter(s, Hold, r.value).AfterHold?
  {
    hide PlacementValid, SearchPlacement, PreviewOk;
    var kind := Replacement(env, s);
    HoldingSpawns(env, s);
    SpawnsAlike(env, s.board, kind, None, true);
    assert LiftedSpawn(s.board, kind, SPAWN_Y + 1).Some? && FindSpawn(s.board, kind, false).None?;
    assert kind == if p.client.hold.Some? then p.client.hold.value else p.client.next[0] by {
      PreviewedKind(env, p.client, s);
    }
  }

  lemma PreviewedKind(env: Env, c: Client, s: Sim)
    requires PreviewOk(env, c, s) && c.hold == s.hold && (c.hold.Some? || c.next != [])
    ensures Replacement(env, s) == if c.hold.Some? then c.hold.value else c.next[0]
  {
    if c.hold.None? {
      assert c.next[0] == env.pieces(s.cursor + 0);
    }
  }

  /** An action that is not foreseen makes both sides differ where they next settle. */
  lemma UnforeseenActionsAreSeen(
    env: Env, p: Predicting, s: Sim, w: Watch, a: Action, rest: seq<Action>, frame: int)
    requires ClientRules(env) && InStep(env, p, s, w) && Supplied(p, [a] + rest) && !Buffered(s, a) && !Awaited(w, a)
    requires FinishForeseen(env, s) && WatchForeseen(env, s, w) && !ActionForeseen(env, Finish(env, s), a)
    ensures var r, q := TakeAction(env, s, a, frame), PredictNext(env.kicks, p, a);
            r.Ok? && q.Some? ==> !RightThroughout(env, q.value, r.value, NextWatch(env, s, w, a, r.value), rest, frame)
  {
    hide InStep, ApplyAction, PredictNext, FinishPredicted, FinishForeseen, WatchForeseen, ActionForeseen, Supplied,
         RightThroughout, Mirrors, Lost;
    var settled, finished := FinishPredicted(env.kicks, p), Finish(env, s);
    PendingMeansWatched(env, p, s, w);
    SuppliesTheHold(p, [a] + rest);
    FinishingAlike(env, p, s, w);
    FinishingSupplies(env.kicks, p, [a] + rest);
    SuppliesTheAction(settled, a, rest);
    PredictingSettled(env.kicks, p, a);
    SettledFlags(env, settled, finished);
    assert a.Move? || a.Hold? by { OnlyMovesAndHoldsAreUnforeseen(env, finished, a); }
    if a.Move? {
      UnforeseenMovesDiffer(env, settled, finished, a, frame);
      var t, q := ApplyAction(env, finished, a, frame).value, PredictNext(env.kicks, settled, a).value;
      DifferentPiecesAreSeen(env, q, t, rest, frame);
    } else {
      UnforeseenHoldsAreLost(env, settled, finished, frame);
      var t, q := ApplyAction(env, finished, a, frame).value, PredictNext(env.kicks, settled, a).value;
      LostPiecesAreSeen(env, q, t, WatchAfter(finished, a, t), rest, frame);
    }
  }

  lemma OnlyMovesAndHoldsAreUnforeseen(env: Env, s: Sim, a: Action)
    ensures !ActionForeseen(env, s, a) ==> a.Move? || a.Hold?
  {
  }

  lemma SettledFlags(env: Env, p: Predicting, s: Sim)
    requires InStep(env, p, s, NoHold) && s.generation.None?
    ensures !p.pending && Mirrors(env, p.client, s) && !s.bufferedHold && s.bufferedRotation.None?
  {
  }

  lemma {:induction false} RightExactlyWhenForeseen(
    env: Env, p: Predicting, s: Sim, w: Watch, actions: seq<Action>, frame: int)
    requires ClientRules(env) && Valid(s) && InStep(env, p, s, w) && Supplied(p, actions)
    requires frame >= 0 && RollsOk(env) && CapFits(env) && NoneReady(s.pendingGarbage, frame)
    ensures Foreseen(env, s, w, actions, frame) <==> RightThroughout(env, p, s, w, actions, frame)
    decreases |actions|
  {
    hide InStep, FinishForeseen, WatchForeseen, ActionForeseen, TakeAction, PredictNext, NoneReady, RollsOk, Valid, Supplied,
         NextWatch, Mirrors, FinishPredicted, Finish;
    SuppliesTheHold(p, actions);
    FinishingAlikeExactlyWhenForeseen(env, p, s, w);
    if actions != [] {
      var a, rest := actions[0], actions[1..];
      assert [a] + rest == actions;
      if Foreseeable(env, s, w, a) {
        ActionAlike(env, p, s, w, a, rest, frame);
        var t := TakeAction(env, s, a, frame).value;
        RightExactlyWhenForeseen(env, PredictNext(env.kicks, p, a).value, t, NextWatch(env, s, w, a, t), rest, frame);
      } else if FinishForeseen(env, s) && WatchForeseen(env, s, w) {
        UnforeseenActionsAreSeen(env, p, s, w, a, rest, frame);
      }
    }
  }

  /**
   The condition is exact: with no garbage ready and enough preview pieces, the batch is foreseen if and only if the
   client mirrors the server each time both have settled, from the first action to the end of the action phase.
   */
  lemma PredictionIsRightThroughoutExactlyWhenForeseen(env: Env, c: Client, s: Sim, actions: seq<Action>, frame: int)
    requires ClientRules(env) && RollsOk(env) && CapFits(env) && frame >= 0
    requires Valid(s) && s.generation.None? && Mirrors(env, c, s)
    requires NoneReady(s.pendingGarbage, frame) && Draws(c.hold, false, actions) <= |c.next|
    ensures Foreseen(env, s, NoHold, actions, frame) <==> RightThroughout(env, Begin(c), s, NoHold, actions, frame)
  {
    hide Foreseen, NoneReady, RollsOk, Mirrors, NoFullRow, RightThroughout, Supplied, Draws;
    BeginsInStep(env, c, s);
    BeginsSupplied(c, actions);
    RightExactlyWhenForeseen(env, Begin(c), s, NoHold, actions, frame);
  }

  lemma BeginsSupplied(c: Client, actions: seq<Action>)
    requires Draws(c.hold, false, actions) <= |c.next|
    ensures Supplied(Begin(c), actions)
  {
  }

  /** A free spawn footprint needs no rescue. */
  lemma FreeFootprintsAreForeseen(env: Env, b: FieldBoard, kind: Kind, rotation: Direction, lift: bool)
    requires ClientRules(env) && PlacementValid(b, SpawnPiece(kind, SPAWN_Y))
    ensures NoRescue(env, b, kind, rotation, SPAWN_Y, HighestSpawn(env, lift))
  {
  }

  /** Neither holds nor held movement, and no rotation right after a hard drop. */
  predicate PlainBatch(actions: seq<Action>) {
    && (forall i | 0 <= i < |actions| :: !actions[i].Hold? && !actions[i].Move?)
    && (forall i | 0 < i < |actions| :: actions[i - 1].HardDrop? ==> !actions[i].Rotate?)
  }

  lemma OnlyDropsRequest(env: Env, s: Sim, a: Action, frame: int)
    requires TakeAction(env, s, a, frame).Ok? && !a.Hold? && (s.generation.Some? ==> !a.Rotate?)
    requires (s.bufferedRotation.None? && !s.bufferedHold) || s.generation.Some?
    ensures var t := TakeAction(env, s, a, frame).value;
            t.bufferedRotation.None? && !t.bufferedHold && (t.generation.Some? ==> a.HardDrop?)
  {
    hide PlacementValid, SearchPlacement, Turn, ResolveLock;
    var f := Finish(env, s);
    assert f.generation.None? && f.bufferedRotation.None? && !f.bufferedHold;
    if f.active.Some? && !f.toppedOut {
      match a
      case Move(side, pressed) => SetHorizontalMoves(env, f, side, pressed);
      case MoveStep(side) => StepMoves(env, f, side);
      case MoveToWall(side) => WallMoves(env, f, side);
      case SoftDropStep(cells) => FallMoves(f, if cells > 0 then cells else 0);
      case SonicDrop => FloorMoves(f);
      case Rotate(direction) => TurnMoves(env, f, direction);
      case HardDrop => FloorMoves(f);
      case SoftDrop(_) =>
      case ClearHeld =>
    }
  }

  lemma {:induction false} PlainBatchesAreForeseen(env: Env, s: Sim, actions: seq<Action>, frame: int)
    requires PlainBatch(actions) && s.bufferedRotation.None? && !s.bufferedHold
    requires s.generation.Some? && actions != [] ==> !actions[0].Rotate?
    ensures Foreseen(env, s, NoHold, actions, frame)
    decreases |actions|
  {
    if actions != [] {
      var r := TakeAction(env, s, actions[0], frame);
      if r.Ok? {
        OnlyDropsRequest(env, s, actions[0], frame);
        PlainBatchesAreForeseen(env, r.value, actions[1..], frame);
      }
    }
  }

  // ---------------------------------------------------------------- where prediction fails

  lemma EmptyBoardFits(b: FieldBoard, p: Piece)
    requires forall y | 0 <= y < HEIGHT :: b.rows[y] == {}
    requires p.x == SPAWN_X && p.y == SPAWN_Y
    ensures PlacementValid(b, p)
  {
    LocalCellsFillTheBox(p.kind, p.rotation);
  }

  lemma UnkickedTurn(kicks: KickTable, b: FieldBoard, p: Piece, direction: Direction)
    requires forall k: Kind, r: nat, d: Direction :: kicks(k, r, d) != [] && kicks(k, r, d)[0] == Cell(0, 0)
    requires forall y | 0 <= y < HEIGHT :: b.rows[y] == {}
    requires p.x == SPAWN_X && p.y == SPAWN_Y
    ensures TryRotate(kicks, b, p, direction)
            == Some(Rotated(Piece(p.kind, TargetRotation(p.rotation, direction), p.x, p.y), 0))
  {
    EmptyBoardFits(b, Kicked(p, direction, Cell(0, 0)));
  }

  // ---------------------------------------------------------------- rotations after a hold

  function Rotations(directions: seq<Direction>): (actions: seq<Action>)
    decreases |directions|
  {
    if directions == [] then [] else [Rotate(directions[0])] + Rotations(directions[1..])
  }

  /** The rotations of a list, one after the other. */
  function Composed(env: Env, b: FieldBoard, piece: Option<Piece>, directions: seq<Direction>): Option<Piece>
    decreases |directions|
  {
    if directions == [] then piece
    else Composed(env, b, TurnedSpawn(env, b, piece, Some(directions[0])), directions[1..])
  }

  function LastOf(directions: seq<Direction>, before: Option<Direction>): Option<Direction> {
    if directions == [] then before else Some(directions[|directions| - 1])
  }

  lemma {:induction false} TurnsAfterHold(env: Env, p: Predicting, s: Sim, w: Watch, directions: seq<Direction>, frame: int)
    requires Valid(s) && s.generation.None? && w.AfterHold? && InStep(env, p, s, w)
    requires frame >= 0 && RollsOk(env) && CapFits(env)
    ensures var r, q := TakeActions(env, s, Rotations(directions), frame), PredictAll(env.kicks, p, Rotations(directions));
            && r.Ok? && q.Some? && r.value.generation.None?
            && InStep(env, q.value, r.value, w.(last := LastOf(directions, w.last)))
            && r.value.board == s.board && r.value.active == Composed(env, s.board, s.active, directions)
    decreases |directions|
  {
    hide InStep, ApplyAction, PredictNext, Valid, RollsOk, TurnedSpawn;
    if directions == [] {
      assert w.(last := LastOf(directions, w.last)) == w;
    } else {
      var a := Rotate(directions[0]);
      assert Rotations(directions)[0] == a && Rotations(directions)[1..] == Rotations(directions[1..]);
      TurnAfterHold(env, p, s, w, directions[0], frame);
      TakeActionIsSafe(env, s, a, frame);
      var t := TakeAction(env, s, a, frame).value;
      TurnsAfterHold(env, PredictNext(env.kicks, p, a).value, t, w.(last := Some(directions[0])), directions[1..], frame);
      assert LastOf(directions, w.last) == LastOf(directions[1..], Some(directions[0]));
    }
  }

  lemma {:induction false} ComposedEndsWithTheLast(env: Env, b: FieldBoard, piece: Option<Piece>, directions: seq<Direction>)
    requires directions != []
    ensures var n := |directions| - 1;
            Composed(env, b, piece, directions)
            == TurnedSpawn(env, b, Composed(env, b, piece, directions[..n]), Some(directions[n]))
    decreases |directions|
  {
    hide TurnedSpawn;
    var n := |directions| - 1;
    if n > 0 {
      assert directions[..n][1..] == directions[1..][..n - 1];
      ComposedEndsWithTheLast(env, b, TurnedSpawn(env, b, piece, Some(directions[0])), directions[1..]);
    } else {
      assert directions[1..] == [];
    }
  }

  /** Two pieces come out of a turn as one: each by a kick to the same place, or one by a kick to the other's place. */
  predicate TurnsMeet(env: Env, b: FieldBoard, p: Piece, q: Piece, direction: Direction) {
    match (TryRotate(env.kicks, b, p, direction), TryRotate(env.kicks, b, q, direction))
    case (Some(turned), Some(other)) => turned.piece == other.piece
    case (Some(turned), None) => turned.piece == q
    case (None, Some(other)) => p == other.piece
    case (None, None) => false
  }

  /** All turns but the last leave the held piece as it was, or where the last one makes up for them. */
  predicate LastDecides(env: Env, b: FieldBoard, spawned: Option<Piece>, directions: seq<Direction>) {
    directions != [] && spawned.Some? ==>
      var n := |directions| - 1;
      var before := Composed(env, b, spawned, directions[..n]);
      before == spawned || (before.Some? && TurnsMeet(env, b, spawned.value, before.value, directions[n]))
  }

  lemma {:induction false} ComposingNothing(env: Env, b: FieldBoard, directions: seq<Direction>)
    ensures Composed(env, b, None, directions) == None
    decreases |directions|
  {
    if directions != [] {
      ComposingNothing(env, b, directions[1..]);
    }
  }

  lemma LastDecidesExactly(env: Env, b: FieldBoard, spawned: Option<Piece>, directions: seq<Direction>)
    ensures Composed(env, b, spawned, directions) == TurnedSpawn(env, b, spawned, LastOf(directions, None))
            <==> LastDecides(env, b, spawned, directions)
  {
    hide TryRotate;
    if spawned.None? {
      ComposingNothing(env, b, directions);
    } else if directions != [] {
      var n := |directions| - 1;
      ComposedEndsWithTheLast(env, b, spawned, directions);
      ComposingKeepsAPiece(env, b, spawned, directions[..n]);
    }
  }

  lemma {:induction false} ComposingKeepsAPiece(env: Env, b: FieldBoard, piece: Option<Piece>, directions: seq<Direction>)
    requires piece.Some?
    ensures Composed(env, b, piece, directions).Some?
    decreases |directions|
  {
    hide TryRotate;
    if directions != [] {
      ComposingKeepsAPiece(env, b, TurnedSpawn(env, b, piece, Some(directions[0])), directions[1..]);
    }
  }

  /**
   Rotations after a hold, of which the client keeps only the last, are predicted right exactly when the earlier ones
   leave the held piece as it was, or the last one turns both pieces to one place, or kicks one of them to where the
   other stays.
   */
  lemma RotationsAfterAHoldExactlyWhenTheLastDecides(
    env: Env, c: Client, s: Sim, directions: seq<Direction>, frame: int)
    requires ClientRules(env) && RollsOk(env) && CapFits(env) && frame >= 0
    requires Valid(s) && s.generation.None? && !s.toppedOut && Mirrors(env, c, s)
    requires s.canHold && HoldForeseen(env, s) && (c.hold.Some? || c.next != [])
    ensures var batch, spawned := [Hold] + Rotations(directions), FindSpawn(s.board, Replacement(env, s), false);
            var server, client := ActionPhase(env, s, batch, frame), Predict(env.kicks, c, batch);
            && server.Ok? && client.Some?
            && server.value.active == Composed(env, s.board, spawned, directions)
            && (Mirrors(env, client.value.client, server.value) <==> LastDecides(env, s.board, spawned, directions))
  {
    LastDecidesExactly(env, s.board, FindSpawn(s.board, Replacement(env, s), false), directions);
    hide LastDecides, HoldForeseen, ApplyAction, PredictNext, RollsOk, TurnedSpawn, Composed, InStep, FinishPredicted, FindSpawn, Replacement;
    var batch := [Hold] + Rotations(directions);
    assert batch[1..] == Rotations(directions);
    assert InStep(env, Begin(c), s, NoHold) by { BeginsInStep(env, c, s); }
    SettledHoldAlike(env, Begin(c), s, frame);
    TakeActionIsSafe(env, s, Hold, frame);
    var held, waiting := TakeAction(env, s, Hold, frame).value, PredictNext(env.kicks, Begin(c), Hold).value;
    HeldSpawnIsFound(env, s, frame);
    var w := AfterHold(held.active, None);
    TurnsAfterHold(env, waiting, held, w, directions, frame);
    WaitingMirrorsExactlyWhenForeseen(
      env, PredictAll(env.kicks, waiting, Rotations(directions)).value,
      TakeActions(env, held, Rotations(directions), frame).value, w.(last := LastOf(directions, None)));
  }

  /** One rotation after a hold is always predicted right. */
  lemma OneRotationAfterAHoldIsForeseen(env: Env, b: FieldBoard, spawned: Option<Piece>, directions: seq<Direction>)
    requires |directions| <= 1
    ensures LastDecides(env, b, spawned, directions)
  {
    if directions != [] {
      assert directions[..|directions| - 1] == [];
    }
  }

  lemma BeginsInStep(env: Env, c: Client, s: Sim)
    requires Valid(s) && s.generation.None? && Mirrors(env, c, s)
    ensures InStep(env, Begin(c), s, NoHold)
  {
  }

  lemma HeldSpawnIsFound(env: Env, s: Sim, frame: int)
    requires ClientRules(env) && Valid(s) && s.generation.None? && !s.toppedOut && s.canHold && HoldForeseen(env, s)
    ensures ApplyAction(env, s, Hold, frame).Ok?
    ensures var t := ApplyAction(env, s, Hold, frame).value;
            t.active == FindSpawn(s.board, Replacement(env, s), false) && t.generation.None? && t.board == s.board
    ensures TakeAction(env, s, Hold, frame) == ApplyAction(env, s, Hold, frame) && Takes(s, Hold)
  {
    hide SearchPlacement, FindSpawn, HoldForeseen, PerformHold, NoFullRow;
    HoldingSpawns(env, s);
    HoldsSpawnAlikeExactlyWhenForeseen(env, s);
  }

  /**
   A batch for which it does not: on an empty field the server turns the held piece twice, while the client keeps only
   the last of the two rotations.
   */
  lemma RotationsAfterAHoldAreMispredicted(env: Env, c: Client, s: Sim, kind: Kind, frame: int)
    requires ClientRules(env) && Valid(s) && s.generation.None? && !s.toppedOut && Mirrors(env, c, s)
    requires s.canHold && s.hold == Some(kind)
    requires forall y | 0 <= y < HEIGHT :: s.board.rows[y] == {}
    requires forall k: Kind, r: nat, d: Direction :: env.kicks(k, r, d) != [] && env.kicks(k, r, d)[0] == Cell(0, 0)
    ensures var batch := [Hold, Rotate(Cw), Rotate(Cw)];
            && ActionPhase(env, s, batch, frame).Ok? && Predict(env.kicks, c, batch).Some?
            && ActionPhase(env, s, batch, frame).value.active == Some(Piece(kind, 2, SPAWN_X, SPAWN_Y))
            && Predict(env.kicks, c, batch).value.client.active == Some(Piece(kind, 1, SPAWN_X, SPAWN_Y))
  {
    var batch := [Hold, Rotate(Cw), Rotate(Cw)];
    assert batch[1..] == [Rotate(Cw), Rotate(Cw)] && batch[1..][1..] == [Rotate(Cw)] && batch[1..][1..][1..] == [];
    HeldPieceTurnsTwice(env, s, kind, frame);
    HeldPieceIsPredictedOnce(env, c, s, kind);
  }

  predicate OpenField(s: Sim) {
    s.generation.None? && !s.toppedOut && forall y | 0 <= y < HEIGHT :: s.board.rows[y] == {}
  }

  lemma TurningOnce(env: Env, s: Sim, p: Piece, frame: int)
    requires OpenField(s) && s.active == Some(p) && p.x == SPAWN_X && p.y == SPAWN_Y
    requires forall k: Kind, r: nat, d: Direction :: env.kicks(k, r, d) != [] && env.kicks(k, r, d)[0] == Cell(0, 0)
    ensures var r := TakeAction(env, s, Rotate(Cw), frame);
            r.Ok? && OpenField(r.value) && r.value.active == Some(p.(rotation := TargetRotation(p.rotation, Cw)))
  {
    hide PlacementValid, TryRotate;
    UnkickedTurn(env.kicks, s.board, p, Cw);
    EmptyBoardFits(s.board, p.(rotation := TargetRotation(p.rotation, Cw)));
  }

  lemma HoldingOnce(env: Env, s: Sim, kind: Kind, frame: int)
    requires ClientRules(env) && OpenField(s) && s.active.Some? && s.canHold && s.hold == Some(kind)
    requires !s.bufferedHold && s.bufferedRotation.None?
    ensures var r := TakeAction(env, s, Hold, frame);
            r.Ok? && OpenField(r.value) && r.value.active == Some(SpawnPiece(kind, SPAWN_Y))
  {
    hide PlacementValid, TryRotate;
    EmptyBoardFits(s.board, SpawnPiece(kind, SPAWN_Y));
  }

  lemma HeldPieceTurnsTwice(env: Env, s: Sim, kind: Kind, frame: int)
    requires ClientRules(env) && Valid(s) && s.generation.None? && !s.toppedOut
    requires s.canHold && s.hold == Some(kind)
    requires forall y | 0 <= y < HEIGHT :: s.board.rows[y] == {}
    requires forall k: Kind, r: nat, d: Direction :: env.kicks(k, r, d) != [] && env.kicks(k, r, d)[0] == Cell(0, 0)
    ensures var first := TakeAction(env, s, Hold, frame);
            && first.Ok? && first.value.generation.None?
            && var second := TakeAction(env, first.value, Rotate(Cw), frame);
            && second.Ok? && second.value.generation.None?
            && var third := TakeAction(env, second.value, Rotate(Cw), frame);
            third.Ok? && third.value.generation.None? && third.value.active == Some(Piece(kind, 2, SPAWN_X, SPAWN_Y))
  {
    hide TakeAction;
    HoldingOnce(env, s, kind, frame);
    var first := TakeAction(env, s, Hold, frame).value;
    TurningOnce(env, first, SpawnPiece(kind, SPAWN_Y), frame);
    var second := TakeAction(env, first, Rotate(Cw), frame).value;
    TurningOnce(env, second, Piece(kind, 1, SPAWN_X, SPAWN_Y), frame);
  }

  lemma HeldPieceIsPredictedOnce(env: Env, c: Client, s: Sim, kind: Kind)
    requires ClientRules(env) && Valid(s) && s.generation.None? && !s.toppedOut && Mirrors(env, c, s)
    requires s.canHold && s.hold == Some(kind)
    requires forall y | 0 <= y < HEIGHT :: s.board.rows[y] == {}
    requires forall k: Kind, r: nat, d: Direction :: env.kicks(k, r, d) != [] && env.kicks(k, r, d)[0] == Cell(0, 0)
    ensures var first := PredictNext(env.kicks, Begin(c), Hold);
            && first.Some?
            && var second := PredictNext(env.kicks, first.value, Rotate(Cw));
            && second.Some?
            && var third := PredictNext(env.kicks, second.value, Rotate(Cw));
            && third.Some?
            && FinishPredicted(env.kicks, third.value).client.active == Some(Piece(kind, 1, SPAWN_X, SPAWN_Y))
  {
    hide PlacementValid, TryRotate;
    EmptyBoardFits(s.board, SpawnPiece(kind, SPAWN_Y));
    UnkickedTurn(env.kicks, s.board, SpawnPiece(kind, SPAWN_Y), Cw);
  }
}

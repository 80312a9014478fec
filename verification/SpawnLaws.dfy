/** Where new pieces appear: the lowest height at which the turned piece or its footprint fits, or nowhere at all. */
module SpawnLaws {
  import opened Wrappers
  import opened Pieces
  import opened Boards
  import opened Rotation
  import opened Simulation
  import opened SimulationLaws

  /** A new piece in spawn orientation at some height. */
  function Footprint(env: Env, kind: Kind, y: int): Piece { Piece(kind, 0, env.rules.spawnX, y) }

  /** Does kick `k` of the buffered rotation bring the new piece to a free place? */
  predicate KickFits(env: Env, b: FieldBoard, kind: Kind, y: int, turn: Direction, k: nat)
    requires k < |env.kicks(kind, 0, turn)|
  {
    PlacementValid(b, Kicked(Footprint(env, kind, y), turn, env.kicks(kind, 0, turn)[k]))
  }

  predicate TurnFits(env: Env, b: FieldBoard, kind: Kind, y: int, turn: Option<Direction>) {
    turn.Some? && exists k: nat :: k < |env.kicks(kind, 0, turn.value)| && KickFits(env, b, kind, y, turn.value, k)
  }

  /** Is there a place for the piece at this height, turned or not? */
  predicate PlaceAt(env: Env, b: FieldBoard, kind: Kind, y: int, turn: Option<Direction>) {
    TurnFits(env, b, kind, y, turn) || PlacementValid(b, Footprint(env, kind, y))
  }

  /** The placement at a height: turned by the first kick that fits if one does, in spawn orientation otherwise. */
  predicate PlacedAt(env: Env, b: FieldBoard, kind: Kind, y: int, turn: Option<Direction>, p: Placement) {
    && p.active.Some? && p.liftedRows == y - env.rules.spawnY
    && (if TurnFits(env, b, kind, y, turn) then
          && p.irsKick.Some? && p.irsKick.value < |env.kicks(kind, 0, turn.value)|
          && p.active.value == Kicked(Footprint(env, kind, y), turn.value, env.kicks(kind, 0, turn.value)[p.irsKick.value])
          && KickFits(env, b, kind, y, turn.value, p.irsKick.value)
          && forall k: nat | k < p.irsKick.value :: !KickFits(env, b, kind, y, turn.value, k)
        else
          && p.irsKick.None? && p.active.value == Footprint(env, kind, y) && PlacementValid(b, p.active.value))
  }

  lemma PlacementsAreExact(env: Env, b: FieldBoard, kind: Kind, y: int, turn: Option<Direction>)
    ensures var p := PlacementAt(env, b, kind, y, turn);
            if PlaceAt(env, b, kind, y, turn) then PlacedAt(env, b, kind, y, turn, p) else p.active.None?
  {
    if turn.Some? {
      var base, kicks := Footprint(env, kind, y), env.kicks(kind, 0, turn.value);
      RotationTakesTheFirstFit(b, base, turn.value, kicks, 0);
      assert forall k: nat | k < |kicks| ::
          KickFits(env, b, kind, y, turn.value, k) <==> PlacementValid(b, Kicked(base, turn.value, kicks[k]));
      var r := FirstKick(b, base, turn.value, kicks, 0);
      if r.Some? {
        assert KickFits(env, b, kind, y, turn.value, r.value.kickIndex);
      }
    }
  }

  /** The upward search stops at the lowest height with a place, and finds nothing only if there is none at all. */
  lemma {:induction false} SearchStopsAtTheLowestPlace(
    env: Env, b: FieldBoard, kind: Kind, turn: Option<Direction>, y: int, highest: int)
    ensures var p := SearchPlacement(env, b, kind, turn, y, highest);
            && (p.active.None? ==> forall h | y <= h <= highest :: !PlaceAt(env, b, kind, h, turn))
            && (p.active.Some? ==>
                var at := p.liftedRows + env.rules.spawnY;
                && y <= at <= highest && PlaceAt(env, b, kind, at, turn) && PlacedAt(env, b, kind, at, turn, p)
                && forall h | y <= h < at :: !PlaceAt(env, b, kind, h, turn))
    decreases highest - y + 1
  {
    hide PlacementAt, PlaceAt;
    if y <= highest {
      PlacementsAreExact(env, b, kind, y, turn);
      if PlacementAt(env, b, kind, y, turn).active.None? {
        SearchStopsAtTheLowestPlace(env, b, kind, turn, y + 1, highest);
      }
    }
  }

  /** The active piece of `t` has just appeared at this height, and below it there was no place. */
  predicate AppearsAt(env: Env, b: FieldBoard, kind: Kind, turn: Option<Direction>, t: Sim, at: int) {
    && env.rules.spawnY <= at
    && PlacedAt(env, b, kind, at, turn,
                Placement(t.active, at - env.rules.spawnY,
                          if t.lastRotation.None? then None else Some(t.lastRotation.value.kickIndex)))
    && forall h | env.rules.spawnY <= h < at :: !PlaceAt(env, b, kind, h, turn)
  }

  /** The frame reports the piece with its cause and the rows it was lifted by; the very first piece has no cause. */
  predicate IsReported(env: Env, s: Sim, t: Sim, at: int)
    requires s.generation.Some?
  {
    t.frameSpawns == match s.generation.value.cause
                     case None => s.frameSpawns
                     case Some(cause) => s.frameSpawns + [SpawnEvent(cause, GeneratedKind(env, s), at - env.rules.spawnY)]
  }

  /**
   Completing a generation: the piece that comes, from the hold if a hold was buffered and may be used, appears at the
   lowest height with a place, at the spawn height or, after a lock that cleared lines, anywhere above it; the player goes
   out exactly when there is no such place.
   */
  lemma PiecesAppearAtTheLowestPlace(env: Env, s: Sim)
    requires s.generation.Some?
    ensures var t, kind, turn := Finish(env, s), GeneratedKind(env, s), s.bufferedRotation;
            var highest := if s.generation.value.allowClutchLift then HEIGHT - 1 else env.rules.spawnY;
            && t.generation.None? && !t.bufferedHold && t.bufferedRotation.None? && t.board == s.board
            && (t.toppedOut <==> t.active.None?)
            && (t.toppedOut <==> forall h | env.rules.spawnY <= h <= highest :: !PlaceAt(env, s.board, kind, h, turn))
            && (!t.toppedOut ==>
                exists at :: at <= highest && AppearsAt(env, s.board, kind, turn, t, at) && IsReported(env, s, t, at))
            && (t.toppedOut ==> t.frameSpawns == s.frameSpawns)
            && t.lockFrames == 0 && t.lockResets == 0 && t.gravityRemainder == 0
  {
    hide PlaceAt, PlacedAt, SearchPlacement;
    var highest := HighestSpawn(env, s.generation.value.allowClutchLift);
    var p := SearchPlacement(env, s.board, GeneratedKind(env, s), s.bufferedRotation, env.rules.spawnY, highest);
    SearchStopsAtTheLowestPlace(env, s.board, GeneratedKind(env, s), s.bufferedRotation, env.rules.spawnY, highest);
    if p.active.Some? {
      KicksNeedATurn(env, s.board, GeneratedKind(env, s), p.liftedRows + env.rules.spawnY, s.bufferedRotation, p);
      var at := p.liftedRows + env.rules.spawnY;
      PlacedKind(env, s.board, GeneratedKind(env, s), at, s.bufferedRotation, p);
      assert IsReported(env, s, Finish(env, s), at);
      assert AppearsAt(env, s.board, GeneratedKind(env, s), s.bufferedRotation, Finish(env, s), at);
    }
  }

  lemma PlacedKind(env: Env, b: FieldBoard, kind: Kind, y: int, turn: Option<Direction>, p: Placement)
    requires PlacedAt(env, b, kind, y, turn, p)
    ensures p.active.value.kind == kind
  {
  }

  lemma KicksNeedATurn(env: Env, b: FieldBoard, kind: Kind, y: int, turn: Option<Direction>, p: Placement)
    requires PlacedAt(env, b, kind, y, turn, p)
    ensures p.irsKick.Some? ==> turn.Some?
  {
  }
}

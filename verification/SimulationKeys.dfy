/** What the server makes of the keys a player holds: which direction is on, and when it steps by itself. */
module SimulationKeys {
  import opened Wrappers
  import opened Boards
  import opened Garbage
  import opened Pieces
  import opened Attack
  import opened Rotation
  import opened Simulation
  import opened SimulationLaws
  import opened SimulationLedger

  /** The keys that are down: the sides in the order they were pressed, and the soft drop. */
  datatype Keys = Keys(sides: seq<Side>, softDrop: bool)

  const NO_KEYS := Keys([], false)

  function Lifted(sides: seq<Side>, side: Side): seq<Side> {
    if sides == [] then []
    else if sides[0] == side then Lifted(sides[1..], side)
    else [sides[0]] + Lifted(sides[1..], side)
  }

  /** The keys after one more action of the player. */
  function After(k: Keys, a: Action): Keys {
    match a
    case Move(side, pressed) =>
      if !pressed then k.(sides := Lifted(k.sides, side)) else if side in k.sides then k else k.(sides := k.sides + [side])
    case SoftDrop(pressed) => k.(softDrop := pressed)
    case ClearHeld => NO_KEYS
    case _ => k
  }

  function AfterAll(k: Keys, actions: seq<Action>): Keys
    decreases |actions|
  {
    if actions == [] then k else AfterAll(After(k, actions[0]), actions[1..])
  }

  /** The keys that are down after a run, from its operations alone; a refused frame counts for nothing. */
  function KeysDown(ops: seq<Op>): Keys {
    if ops == [] then NO_KEYS
    else
      var before := KeysDown(ops[..|ops| - 1]);
      match ops[|ops| - 1]
      case Frame(frame, actions) => if frame >= 1 && |actions| <= 64 then AfterAll(before, actions) else before
      case Incoming(_) => before
      case Release => NO_KEYS
  }

  predicate Distinct(sides: seq<Side>) { |sides| <= 2 && (|sides| == 2 ==> sides[0] != sides[1]) }

  /** The held keys of the state are these, and the direction that is on is the side pressed last. */
  predicate Follows(s: Sim, k: Keys) {
    && (s.held.left <==> Left in k.sides) && (s.held.right <==> Right in k.sides) && s.held.softDrop == k.softDrop
    && s.horizontal == (if k.sides == [] then None else Some(k.sides[|k.sides| - 1]))
    && Distinct(k.sides)
  }

  predicate FollowsWhileLive(s: Sim, k: Keys) {
    && (s.generation.Some? ==> !s.toppedOut)
    && (s.generation.None? && !s.toppedOut ==> s.active.Some?)
    && (!s.toppedOut ==> Follows(s, k))
  }

  predicate SameKeys(s: Sim, t: Sim) {
    t.held == s.held && t.horizontal == s.horizontal && t.generation == s.generation && t.toppedOut == s.toppedOut
    && (t.active.Some? <==> s.active.Some?)
  }

  lemma LiftingLeavesTheOther(sides: seq<Side>, side: Side)
    requires Distinct(sides)
    ensures var rest := Lifted(sides, side);
            && Distinct(rest) && side !in rest && (Other(side) in rest <==> Other(side) in sides)
            && (rest != [] ==> rest[|rest| - 1] == Other(side))
            && (side !in sides ==> rest == sides)
  {
    if |sides| == 1 {
      assert sides[1..] == [];
    } else if |sides| == 2 {
      assert sides[1..][1..] == [] && sides[1..] == [sides[1]];
    }
  }

  /** The piece one cell further to a side, if that place is free; where it is otherwise. */
  function Stepped(s: Sim, side: Side): Piece
    requires s.active.Some?
  {
    var p := s.active.value;
    var next := Piece(p.kind, p.rotation, if side.Left? then p.x - 1 else p.x + 1, p.y);
    if PlacementValid(s.board, next) then next else p
  }

  lemma StepKeepsKeys(env: Env, s: Sim, side: Side)
    ensures var t := MoveHorizontal(env, s, side);
            && SameKeys(s, t) && t.horizontalFrames == s.horizontalFrames
            && (s.active.Some? ==> t.active == Some(Stepped(s, side)))
  {
    hide PlacementValid;
    if s.active.Some? {
      SteppedIsTheStep(s, side);
      ManipulatingKeepsKeys(env, s, Step(s.active.value, side), None);
    }
    hide Manipulate, Stepped, Step;
  }

  lemma SteppedIsTheStep(s: Sim, side: Side)
    requires s.active.Some?
    ensures var next := Step(s.active.value, side);
            Stepped(s, side) == if PlacementValid(s.board, next) then next else s.active.value
  {
    hide PlacementValid;
  }

  lemma ManipulatingKeepsKeys(env: Env, s: Sim, candidate: Piece, rotation: Option<LastRotation>)
    requires s.active.Some?
    ensures var t := Manipulate(env, s, candidate, rotation);
            && SameKeys(s, t) && t.horizontalFrames == s.horizontalFrames
            && t.active == if PlacementValid(s.board, candidate) then Some(candidate) else s.active
  {
    hide PlacementValid, Grounded;
  }

  lemma {:induction false} WallKeepsKeys(env: Env, s: Sim, side: Side)
    ensures SameKeys(s, MoveToTheWall(env, s, side))
    decreases if CanStep(s, side) then Room(Step(s.active.value, side), side) + 1 else 0
  {
    if CanStep(s, side) {
      FittingPieceHasRoom(s.board, Step(s.active.value, side), side);
      var moved := MoveHorizontal(env, s, side);
      if CanStep(moved, side) {
        FittingPieceHasRoom(moved.board, Step(moved.active.value, side), side);
      }
      StepKeepsKeys(env, s, side);
      hide MoveHorizontal, PlacementValid;
      WallKeepsKeys(env, moved, side);
    }
  }

  lemma TurnKeepsKeys(env: Env, s: Sim, direction: Direction)
    ensures SameKeys(s, Turn(env, s, direction))
  {
    hide Manipulate, PlacementValid, TryRotate;
    if s.active.Some? {
      forall p: Piece, r: LastRotation ensures SameKeys(s, Manipulate(env, s, p, Some(r))) {
        ManipulatingKeepsKeys(env, s, p, Some(r));
      }
    }
  }

  lemma {:induction false} FallKeepsKeys(s: Sim, cells: nat)
    ensures SameKeys(s, Fall(s, cells))
    decreases cells
  {
    if cells > 0 && CanFall(s) {
      FallKeepsKeys(s.(active := Some(Below(s.active.value))), cells - 1);
    }
  }

  lemma {:induction false} FloorKeepsKeys(s: Sim)
    ensures SameKeys(s, FallToFloor(s))
    decreases if CanFall(s) then s.active.value.y + 4 else 0
  {
    if CanFall(s) {
      FittingPieceHasRoom(s.board, Below(s.active.value), Left);
      var next := s.(active := Some(Below(s.active.value)));
      if CanFall(next) {
        FittingPieceHasRoom(next.board, Below(next.active.value), Left);
      }
      FloorKeepsKeys(next);
    }
  }

  lemma LockKeepsKeys(env: Env, s: Sim, frame: int, cause: SpawnCause, k: Keys)
    requires FollowsWhileLive(s, k) && s.active.Some? && !s.toppedOut && s.generation.None?
    ensures var r := Lock(env, s, frame, cause); r.Ok? ==> FollowsWhileLive(r.value, k)
  {
    hide ResolveLock;
  }

  lemma FinishKeepsKeys(env: Env, s: Sim, k: Keys)
    requires FollowsWhileLive(s, k)
    ensures FollowsWhileLive(Finish(env, s), k) && Finish(env, s).generation.None?
  {
    hide SearchPlacement;
  }

  lemma SameKeysFollow(s: Sim, t: Sim, k: Keys)
    requires SameKeys(s, t) && FollowsWhileLive(s, k)
    ensures FollowsWhileLive(t, k)
  {
  }

  function Chosen(s: Sim, side: Side, pressed: bool): Option<Side> {
    if pressed && !HoldsSide(s.held, side) then Some(side)
    else if !pressed && s.horizontal == Some(side) then (if HoldsSide(s.held, Other(side)) then Some(Other(side)) else None)
    else s.horizontal
  }

  lemma ChoiceFollows(s: Sim, t: Sim, side: Side, pressed: bool, k: Keys)
    requires Follows(s, k) && t.held == WithSide(s.held, side, pressed) && t.horizontal == Chosen(s, side, pressed)
    ensures Follows(t, After(k, Move(side, pressed)))
  {
    LiftingLeavesTheOther(k.sides, side);
    hide Lifted;
  }

  lemma SidesFollow(env: Env, s: Sim, side: Side, pressed: bool, k: Keys)
    requires Follows(s, k)
    ensures var t := SetHorizontal(env, s, side, pressed);
            && Follows(t, After(k, Move(side, pressed)))
            && t.generation == s.generation && t.toppedOut == s.toppedOut && (t.active.Some? <==> s.active.Some?)
  {
    hide MoveHorizontal, PlacementValid, Lifted, Follows, Stepped;
    var held := s.(held := WithSide(s.held, side, pressed));
    StepKeepsKeys(env, held.(horizontal := Some(Left), horizontalFrames := 0), Left);
    StepKeepsKeys(env, held.(horizontal := Some(Right), horizontalFrames := 0), Right);
    var t := SetHorizontal(env, s, side, pressed);
    assert t.held == held.held && t.horizontal == Chosen(s, side, pressed);
    ChoiceFollows(s, t, side, pressed, k);
  }

  lemma ClearingFollows(s: Sim, k: Keys)
    requires FollowsWhileLive(s, k)
    ensures FollowsWhileLive(ClearHeldInput(s), NO_KEYS)
  {
  }

  lemma SoftDropFollows(s: Sim, pressed: bool, k: Keys)
    requires Follows(s, k)
    ensures Follows(s.(held := s.held.(softDrop := pressed)), k.(softDrop := pressed))
  {
  }

  lemma SwapFollows(env: Env, s: Sim, t: Sim, k: Keys)
    requires FollowsWhileLive(s, k) && !s.toppedOut && s.active.Some?
    requires Request(SwapHold(env, s), Replacement(env, s), Some(ByHold), s.allowClutchLift, false) == Ok(t)
    ensures FollowsWhileLive(t, k)
  {
  }

  lemma BufferingFollows(s: Sim, t: Sim, k: Keys)
    requires FollowsWhileLive(s, k) && t == s.(bufferedHold := t.bufferedHold, bufferedRotation := t.bufferedRotation)
    ensures FollowsWhileLive(t, k)
  {
  }

  lemma ActionFollows(env: Env, s: Sim, a: Action, frame: int, k: Keys)
    requires FollowsWhileLive(s, k) && s.generation.None?
    ensures var r := ApplyAction(env, s, a, frame); r.Ok? ==> FollowsWhileLive(r.value, After(k, a))
  {
    hide PlacementValid, SetHorizontal, MoveHorizontal, Turn, Lifted, CanFall, CanStep, Follows, Lock, Finish;
    if a.ClearHeld? {
      ClearingFollows(s, k);
    } else if s.active.Some? && !s.toppedOut {
      match a
      case Move(side, pressed) => SidesFollow(env, s, side, pressed, k);
      case MoveStep(side) =>
        StepKeepsKeys(env, s, side);
        SameKeysFollow(s, MoveHorizontal(env, s, side), k);
      case MoveToWall(side) =>
        WallKeepsKeys(env, s, side);
        SameKeysFollow(s, MoveToTheWall(env, s, side), k);
      case SoftDrop(pressed) => SoftDropFollows(s, pressed, k);
      case SoftDropStep(cells) =>
        FallKeepsKeys(s, if cells > 0 then cells else 0);
        SameKeysFollow(s, Fall(s, if cells > 0 then cells else 0), k);
      case SonicDrop =>
        FloorKeepsKeys(s);
        SameKeysFollow(s, FallToFloor(s), k);
      case Rotate(direction) =>
        TurnKeepsKeys(env, s, direction);
        SameKeysFollow(s, Turn(env, s, direction), k);
      case Hold =>
        if s.canHold {
          var swapped := Request(SwapHold(env, s), Replacement(env, s), Some(ByHold), s.allowClutchLift, false).value;
          SwapFollows(env, s, swapped, k);
          FinishKeepsKeys(env, swapped, k);
        }
      case HardDrop =>
        FloorKeepsKeys(s);
        SameKeysFollow(s, FallToFloor(s), k);
        assert FallToFloor(s).generation.None?;
        LockKeepsKeys(env, FallToFloor(s), frame, ByHardDrop, k);
    }
  }

  lemma {:induction false} ActionsFollow(env: Env, s: Sim, actions: seq<Action>, frame: int, k: Keys)
    requires FollowsWhileLive(s, k)
    ensures var r := TakeActions(env, s, actions, frame); r.Ok? ==> FollowsWhileLive(r.value, AfterAll(k, actions))
    decreases |actions|
  {
    hide ApplyAction, Finish, Follows;
    if actions != [] {
      FinishKeepsKeys(env, s, k);
      ActionFollows(env, Finish(env, s), actions[0], frame, k);
      var r := TakeAction(env, s, actions[0], frame);
      if r.Ok? {
        if s.generation.Some? && (actions[0].Hold? || actions[0].Rotate?) {
          BufferingFollows(s, r.value, k);
        }
        assert FollowsWhileLive(r.value, After(k, actions[0]));
        ActionsFollow(env, r.value, actions[1..], frame, After(k, actions[0]));
      }
    }
  }

  lemma ClockFollows(env: Env, s: Sim, frame: int, k: Keys)
    requires RulesOk(env.rules) && FollowsWhileLive(s, k) && s.generation.None?
    ensures var r := ClockPhase(env, s, frame); r.Ok? ==> FollowsWhileLive(r.value, k) && r.value.generation.None?
  {
    hide RepeatHorizontal, ApplyGravity, Follows, Finish, AdvanceLock;
    if !s.toppedOut && s.active.Some? {
      var repeated := RepeatHorizontal(env, s);
      RepeatKeepsKeys(env, s);
      var fallen := ApplyGravity(env, repeated);
      GravityKeepsKeys(env, repeated);
      SameKeysFollow(s, repeated, k);
      SameKeysFollow(repeated, fallen, k);
      AdvanceLockFollows(env, fallen, frame, k);
      var r := AdvanceLock(env, fallen, frame);
      if r.Ok? {
        FinishKeepsKeys(env, r.value, k);
      }
    }
  }

  lemma AdvanceLockFollows(env: Env, s: Sim, frame: int, k: Keys)
    requires FollowsWhileLive(s, k) && s.generation.None? && !s.toppedOut
    ensures var r := AdvanceLock(env, s, frame); r.Ok? ==> FollowsWhileLive(r.value, k)
  {
    hide Lock, PlacementValid;
    SameKeysFollow(s, WithLockFrames(s, s.lockFrames + 1), k);
    SameKeysFollow(s, WithLockFrames(s, 0), k);
    if s.active.Some? {
      LockKeepsKeys(env, WithLockFrames(s, s.lockFrames + 1), frame, Automatic, k);
    }
  }

  lemma RepeatKeepsKeys(env: Env, s: Sim)
    requires RulesOk(env.rules)
    ensures SameKeys(s, RepeatHorizontal(env, s))
  {
    hide MoveToTheWall, MoveHorizontal, Stepped;
    if s.horizontal.Some? {
      var ticked := s.(horizontalFrames := s.horizontalFrames + 1);
      WallKeepsKeys(env, ticked, s.horizontal.value);
      StepKeepsKeys(env, ticked, s.horizontal.value);
    }
  }

  lemma GravityKeepsKeys(env: Env, s: Sim)
    requires RulesOk(env.rules)
    ensures SameKeys(s, ApplyGravity(env, s))
  {
    var threshold := env.rules.tickRateHz * MICROS_PER_CELL;
    forall cells: nat, remainder ensures SameKeys(s, Fall(s.(gravityRemainder := remainder), cells)) {
      FallKeepsKeys(s.(gravityRemainder := remainder), cells);
    }
  }

  lemma FrameFollows(env: Env, s: Sim, frame: int, actions: seq<Action>, k: Keys)
    requires RulesOk(env.rules) && FollowsWhileLive(s, k) && s.generation.None? && AdvanceFrame(env, s, frame, actions).Ok?
    ensures var t := AdvanceFrame(env, s, frame, actions).value.sim;
            FollowsWhileLive(t, AfterAll(k, actions)) && t.generation.None?
  {
    if !s.toppedOut {
      ActionsFollow(env, FreshFrame(s), actions, frame, k);
      var acted := TakeActions(env, FreshFrame(s), actions, frame).value;
      FinishKeepsKeys(env, acted, AfterAll(k, actions));
      ClockFollows(env, Finish(env, acted), frame, AfterAll(k, actions));
    }
  }

  /**
   On every run, as long as the player is in the game, the keys the server holds down are those the player has pressed and
   not let go, and the direction that repeats by itself is that of the key pressed last among them.
   */
  lemma {:induction false} HeldKeysSteer(env: Env, board: FieldBoard, ops: seq<Op>)
    requires RollsOk(env) && CapFits(env) && RulesOk(env.rules) && NoFullRow(board)
    ensures var s := Run(env, board, ops).sim; FollowsWhileLive(s, KeysDown(ops)) && s.generation.None?
    decreases |ops|
  {
    if ops == [] {
      NewSimFollows(env, board);
    } else {
      var front, op := ops[..|ops| - 1], ops[|ops| - 1];
      HeldKeysSteer(env, board, front);
      RunsRaiseNoError(env, board, front, op);
      var b := Run(env, board, front);
      if op.Frame? && Apply(env, b, op).Ok? {
        FrameFollows(env, b.sim, op.frame, op.actions, KeysDown(front));
      }
    }
  }

  lemma NewSimFollows(env: Env, board: FieldBoard)
    ensures FollowsWhileLive(NewSim(env, board), NO_KEYS) && NewSim(env, board).generation.None?
  {
    hide SearchPlacement;
  }

  /**
   A press or release that changes the direction steps once that way and counts the delay from the start; one that leaves
   no direction, or leaves it as it was, moves nothing.
   */
  lemma ChangesStepOnce(env: Env, s: Sim, side: Side, pressed: bool, frame: int, k: Keys)
    requires Follows(s, k) && s.active.Some? && !s.toppedOut && s.generation.None?
    ensures var r := ApplyAction(env, s, Move(side, pressed), frame);
            && r.Ok? && Follows(r.value, After(k, Move(side, pressed)))
            && (if r.value.horizontal == s.horizontal then r.value == s.(held := r.value.held)
                else
                  && r.value.horizontalFrames == 0
                  && r.value.active == Some(if r.value.horizontal.None? then s.active.value
                                            else Stepped(s, r.value.horizontal.value)))
  {
    SidesFollow(env, s, side, pressed, k);
    SettingSteps(env, s, side, pressed, k);
    hide Follows, SetHorizontal, Stepped;
  }

  lemma SettingSteps(env: Env, s: Sim, side: Side, pressed: bool, k: Keys)
    requires Follows(s, k) && s.active.Some?
    ensures var t := SetHorizontal(env, s, side, pressed);
            if t.horizontal == s.horizontal then t == s.(held := t.held)
            else
              && t.horizontalFrames == 0
              && t.active == Some(if t.horizontal.None? then s.active.value else Stepped(s, t.horizontal.value))
  {
    DirectionIsHeld(s, k);
    var held := s.(held := WithSide(s.held, side, pressed));
    TurnSteps(env, held, Left);
    TurnSteps(env, held, Right);
    SteppedReadsThePiece(s, held);
    hide Follows, MoveHorizontal, Stepped;
  }

  lemma SteppedReadsThePiece(s: Sim, t: Sim)
    requires s.active.Some? && t.active == s.active && t.board == s.board
    ensures Stepped(t, Left) == Stepped(s, Left) && Stepped(t, Right) == Stepped(s, Right)
  {
    hide PlacementValid;
  }

  lemma DirectionIsHeld(s: Sim, k: Keys)
    requires Follows(s, k)
    ensures s.horizontal.Some? ==> HoldsSide(s.held, s.horizontal.value)
  {
  }

  lemma TurnSteps(env: Env, s: Sim, to: Side)
    requires s.active.Some?
    ensures var t := MoveHorizontal(env, s.(horizontal := Some(to), horizontalFrames := 0), to);
            t.horizontal == Some(to) && t.horizontalFrames == 0 && t.active == Some(Stepped(s, to))
  {
    StepKeepsKeys(env, s.(horizontal := Some(to), horizontalFrames := 0), to);
    hide MoveHorizontal, PlacementValid;
  }
}

/**
 What the clock does to a piece nobody touches: when it is locked, how far it falls, and when a held direction steps.
 Everything is stated over whole runs of one player's simulation.
 */
module SimulationClock {
  import opened Wrappers
  import opened Pieces
  import opened Boards
  import opened Garbage
  import opened GarbageRows
  import opened Attack
  import opened Rotation
  import opened Simulation
  import opened SimulationLaws
  import opened SimulationLedger
  import opened SimulationTraces

  function Shifted(p: Piece, dx: int, dy: int): Piece { Piece(p.kind, p.rotation, p.x + dx, p.y + dy) }

  /** A player still in the game, with a piece in play that fits and nothing left to generate. */
  predicate Live(s: Sim) { Valid(s) && s.generation.None? && !s.toppedOut }

  // ---------------------------------------------------------------- the lock delay

  lemma AdvanceLockLocksOnTime(env: Env, s: Sim, frame: int)
    requires Live(s) && frame >= 0 && RollsOk(env) && CapFits(env)
    ensures var r := AdvanceLock(env, s, frame);
            && r.Ok?
            && (if !Rests(s) then r.value == s.(lockFrames := 0)
                else if s.lockFrames + 1 < env.rules.lockDelayFrames then r.value == s.(lockFrames := s.lockFrames + 1)
                else exists l: LockSummary :: r.value.frameLocks == s.frameLocks + [l] && l.piece == s.active.value.kind)
  {
    hide ResolveLock, AfterLock, NoFullRow;
    assert Grounded(s) <==> Rests(s);
    if Rests(s) && s.lockFrames + 1 >= env.rules.lockDelayFrames {
      LockAddsItsSummary(env, WithLockFrames(s, s.lockFrames + 1), frame);
    }
  }

  lemma LockAddsItsSummary(env: Env, s: Sim, frame: int)
    requires Live(s) && frame >= 0 && RollsOk(env) && CapFits(env)
    ensures var r := Lock(env, s, frame, Automatic);
            r.Ok? && exists l: LockSummary :: r.value.frameLocks == s.frameLocks + [l] && l.piece == s.active.value.kind
  {
    LockOutcomeIsSafe(env, s, frame);
    LockOutcomeBalances(env, s, frame);
    hide ResolveLock;
    var o := ResolveLock(env, s, frame).value;
    assert AfterLock(env, s, o, Automatic).value.frameLocks == s.frameLocks + [o.summary];
  }

  /**
   The clock's part of a frame, for a live player: it reports a lock if and only if the piece, where repeated movement
   and gravity leave it, has the floor or the stack right below it and its lock delay is complete. Otherwise the delay
   counts one frame more while the piece rests, and starts over while it does not.
   */
  lemma ClockLocksOnTime(env: Env, s: Sim, frame: int)
    requires Live(s) && frame >= 0 && RollsOk(env) && CapFits(env) && RulesOk(env.rules)
    ensures var moved, r := ApplyGravity(env, RepeatHorizontal(env, s)), ClockPhase(env, s, frame);
            && r.Ok? && moved.active.Some?
            && var rests := !PlacementValid(moved.board, Shifted(moved.active.value, 0, -1));
               && (r.value.frameLocks != s.frameLocks <==> rests && moved.lockFrames + 1 >= env.rules.lockDelayFrames)
               && (r.value.frameLocks == s.frameLocks ==>
                   r.value == moved.(lockFrames := if rests then moved.lockFrames + 1 else 0))
               && (r.value.frameLocks != s.frameLocks ==>
                   exists l: LockSummary ::
                     r.value.frameLocks == s.frameLocks + [l] && l.piece == s.active.value.kind)
  {
    hide RepeatHorizontal, ApplyGravity, AdvanceLock;
    var moved := ApplyGravity(env, RepeatHorizontal(env, s));
    ClockMoves(env, s);
    MovedStaysValid(s, moved);
    AdvanceLockLocksOnTime(env, moved, frame);
    FinishLeavesTheLog(env, AdvanceLock(env, moved, frame).value);
  }

  lemma FinishLeavesTheLog(env: Env, s: Sim)
    ensures Finish(env, s).frameLocks == s.frameLocks
    ensures s.generation.None? ==> Finish(env, s) == s
  {
  }

  // ---------------------------------------------------------------- idle frames

  /** An idle frame is the clock alone. */
  lemma IdleFramesAreTheClock(env: Env, s: Sim, frame: int)
    requires Live(s) && frame >= 1 && RollsOk(env) && CapFits(env) && RulesOk(env.rules)
    ensures AdvanceFrame(env, s, frame, []).Ok?
    ensures ClockPhase(env, FreshFrame(s), frame) == Ok(AdvanceFrame(env, s, frame, []).value.sim)
  {
    hide ClockPhase;
    FramesAreSafe(env, s, frame, []);
  }

  /** The player does nothing: a frame without actions, garbage arriving, or keys let go. */
  predicate Untouched(op: Op) {
    match op
    case Frame(frame, actions) => frame >= 1 && actions == []
    case Incoming(packet) => PacketOk(packet)
    case Release => true
  }

  function Frames(ops: seq<Op>): nat { if ops == [] then 0 else Frames(ops[..|ops| - 1]) + Bit(ops[|ops| - 1].Frame?) }

  /** `t` is `s` with the lock delay counted on; only the queue, the keys and the remainder may differ besides. */
  predicate RestsOn(s: Sim, t: Sim, frames: int) {
    && Live(t) && t.board == s.board && t.active == s.active && t.horizontal.None?
    && t.lockFrames == s.lockFrames + frames
  }

  lemma RestingPiecesStay(env: Env, s: Sim)
    requires RulesOk(env.rules) && Rests(s) && s.horizontal.None?
    ensures var moved := ApplyGravity(env, RepeatHorizontal(env, s)); moved == s.(gravityRemainder := moved.gravityRemainder)
  {
  }

  /** One more frame of rest: the delay counts on, or the piece is locked. */
  lemma OneFrameOfRest(env: Env, s: Sim, frame: int)
    requires Live(s) && Rests(s) && s.horizontal.None? && frame >= 1
    requires RollsOk(env) && CapFits(env) && RulesOk(env.rules)
    ensures var r := AdvanceFrame(env, s, frame, []);
            && r.Ok?
            && (if s.lockFrames + 1 < env.rules.lockDelayFrames
                then r.value.sim.frameLocks == [] && RestsOn(s, r.value.sim, 1)
                else |r.value.sim.frameLocks| == 1 && r.value.sim.frameLocks[0].piece == s.active.value.kind)
  {
    hide ClockPhase, AdvanceFrame, ApplyGravity, RepeatHorizontal;
    IdleFramesAreTheClock(env, s, frame);
    RestingPiecesStay(env, FreshFrame(s));
    ClockLocksOnTime(env, FreshFrame(s), frame);
  }

  lemma OneUntouchedOp(env: Env, s: Book, b: Book, op: Op, frames: nat)
    requires RollsOk(env) && CapFits(env) && RulesOk(env.rules)
    requires Rests(s.sim) && RestsOn(s.sim, b.sim, frames) && b.locks == s.locks && Untouched(op)
    requires op.Frame? ==> s.sim.lockFrames + frames + 1 < env.rules.lockDelayFrames
    ensures Apply(env, b, op).Ok?
    ensures var t := Apply(env, b, op).value; t.locks == s.locks && RestsOn(s.sim, t.sim, frames + Bit(op.Frame?))
  {
    hide AdvanceFrame;
    match op
    case Frame(frame, actions) =>
      OneFrameOfRest(env, b.sim, frame);
      assert s.locks + [] == s.locks;
    case Incoming(packet) =>
    case Release =>
  }

  lemma RunOneMore(env: Env, board: FieldBoard, ops: seq<Op>, op: Op)
    requires RulesOk(env.rules)
    ensures Run(env, board, ops + [op]) ==
            var before := Run(env, board, ops);
            if Apply(env, before, op).Ok? then Apply(env, before, op).value else before
  {
    assert (ops + [op])[..|ops|] == ops;
  }

  lemma {:induction false} RestRunsOn(env: Env, board: FieldBoard, ops: seq<Op>, more: seq<Op>)
    requires RollsOk(env) && CapFits(env) && RulesOk(env.rules)
    requires var s := Run(env, board, ops).sim;
             && Live(s) && Rests(s) && s.horizontal.None?
             && (Frames(more) == 0 || s.lockFrames + Frames(more) < env.rules.lockDelayFrames)
    requires forall i | 0 <= i < |more| :: Untouched(more[i])
    ensures var b, c := Run(env, board, ops), Run(env, board, ops + more);
            c.locks == b.locks && RestsOn(b.sim, c.sim, Frames(more))
    decreases |more|
  {
    hide Apply, Run, RollsOk;
    if more == [] {
      assert ops + more == ops;
    } else {
      var m := |more| - 1;
      RestRunsOn(env, board, ops, more[..m]);
      OneUntouchedOp(env, Run(env, board, ops), Run(env, board, ops + more[..m]), more[m], Frames(more[..m]));
      RunOneMore(env, board, ops + more[..m], more[m]);
      assert ops + more == ops + more[..m] + [more[m]];
    }
  }

  /**
   A piece that rests untouched is locked when its lock delay is complete, and not before: after any further operations
   of which `n` are idle frames, with the delay still running, nothing has been locked and the piece is where it was; the
   next idle frame locks it if and only if that frame completes the delay.
   */
  lemma RestingPiecesLockOnTime(env: Env, board: FieldBoard, ops: seq<Op>, more: seq<Op>, frame: int)
    requires RollsOk(env) && CapFits(env) && RulesOk(env.rules) && NoFullRow(board) && frame >= 1
    requires var s := Run(env, board, ops).sim;
             && !s.toppedOut && Rests(s) && s.horizontal.None?
             && (Frames(more) == 0 || s.lockFrames + Frames(more) < env.rules.lockDelayFrames)
    requires forall i | 0 <= i < |more| :: Untouched(more[i])
    ensures var b, c := Run(env, board, ops), Run(env, board, ops + more);
            var d := Run(env, board, ops + more + [Frame(frame, [])]);
            && c.locks == b.locks && c.sim.active == b.sim.active && !c.sim.toppedOut
            && (if b.sim.lockFrames + Frames(more) + 1 < env.rules.lockDelayFrames
                then d.locks == b.locks && d.sim.active == b.sim.active
                else |d.locks| == |b.locks| + 1 && d.locks[..|b.locks|] == b.locks
                     && d.locks[|b.locks|].piece == b.sim.active.value.kind)
  {
    hide AdvanceFrame, Run, RollsOk;
    RunsAreSound(env, I, board, ops);
    RestRunsOn(env, board, ops, more);
    var c := Run(env, board, ops + more);
    OneFrameOfRest(env, c.sim, frame);
    RunOneMore(env, board, ops + more, Frame(frame, []));
  }

  // ---------------------------------------------------------------- only resting pieces lock

  /** Each lock is of a piece that rests on the board of that moment, the clock's after its whole delay. */
  predicate AllAtRest(env: Env, ms: seq<Moment>) {
    forall i | 0 <= i < |ms| ::
      && Rests(ms[i].sim)
      && (ms[i].cause.Automatic? ==> ms[i].sim.lockFrames >= env.rules.lockDelayFrames)
  }

  lemma {:induction false} LinkedAtRest(env: Env, frame: int, s: Sim, ms: seq<Moment>, t: Sim)
    requires Linked(env, frame, s, ms, t)
    ensures AllAtRest(env, ms)
    decreases |ms|
  {
    hide Rests, ResolveLock, Posted, Quiet;
    if ms != [] {
      LinkedAtRest(env, frame, Posted(ms[0]), ms[1..], t);
      assert forall i | 1 <= i < |ms| :: ms[i] == ms[1..][i - 1];
    }
  }

  /**
   On every run, every lock a frame reports is of a resting piece: there is a chain of states from the frame's beginning
   to its end, with only the piece in play moving in between, in which each reported lock happens to a piece with the
   floor or the stack right below it. At most one of them is the clock's, and no frame locks more pieces than it is
   handed hard drops, plus that one.
   */
  lemma OnlyRestingPiecesLock(env: Env, board: FieldBoard, ops: seq<Op>, frame: int, actions: seq<Action>)
    requires RollsOk(env) && CapFits(env) && RulesOk(env.rules) && NoFullRow(board)
    requires Apply(env, Run(env, board, ops), Frame(frame, actions)).Ok?
    ensures var b := Run(env, board, ops);
            var t := Apply(env, b, Frame(frame, actions)).value;
            exists drops, last ::
              && Linked(env, frame, FreshFrame(b.sim), drops + last, t.sim)
              && t.locks == b.locks + Summaries(drops + last)
              && AllAtRest(env, drops + last)
              && CausedBy(drops, ByHardDrop) && |drops| <= HardDrops(actions)
              && CausedBy(last, Automatic) && |last| <= 1
  {
    hide AdvanceFrame, Run, Linked, Ends, AllAtRest, RollsOk;
    var b := Run(env, board, ops);
    RunsAreSound(env, I, board, ops);
    var drops, last := FrameIsTraced(env, b.sim, frame, actions);
    LinkedAtRest(env, frame, FreshFrame(b.sim), drops + last, AdvanceFrame(env, b.sim, frame, actions).value.sim);
  }

  // ---------------------------------------------------------------- what a lock reports

  /** A lock's summary is that of the piece and the board it happened on, and its board what is left with garbage below. */
  predicate Describes(m: Moment)
    requires Fits(m.sim)
  {
    var piece, l := m.sim.active.value, m.outcome.summary;
    var r := LockPiece(m.sim.board, piece).value;
    && l.piece == piece.kind && l.spin == ClassifySpin(m.sim.board, piece, m.sim.lastRotation)
    && l.lines == r.Lines() && l.perfectClear == r.perfectClear && l.clearedGarbageLines == r.clearedGarbageLineCount
    && IsBoard(r.board)
    && InsertGarbage(r.board, l.appliedGarbageHoles) == Some(Insertion(m.outcome.board, m.outcome.toppedOut))
  }

  lemma LocksDescribeThemselves(env: Env, frame: int, m: Moment)
    requires IsLock(env, frame, m)
    ensures Describes(m)
  {
    LockingLeavesNoFullRow(m.sim.board, m.sim.active.value);
    hide CancelAll, TakeReady, ResolveClear, NeedsRoll, OpenerMultiplier, Amount, ClassifySpin, LockPiece, PlacementValid;
  }

  // ---------------------------------------------------------------- handling the piece

  /** The actions that move or turn the piece by one accepted manipulation at most. */
  predicate IsManipulation(a: Action) { a.Move? || a.MoveStep? || a.Rotate? }

  /** `t` is `s` after a manipulation: as it was, or moved, remembered, and with its lock delay restarted if it may. */
  predicate Manipulated(env: Env, s: Sim, t: Sim, turn: Option<Direction>)
    requires s.active.Some?
  {
    && Fits(t) && t.active.value.kind == s.active.value.kind
    && (t.active == s.active ==> t.lockFrames == s.lockFrames && t.lockResets == s.lockResets && t.lastRotation == s.lastRotation)
    && (t.active != s.active ==>
        && (if Rests(s) && s.lockResets < env.rules.lockResetLimit
            then t.lockFrames == 0 && t.lockResets == s.lockResets + 1
            else t.lockFrames == s.lockFrames && t.lockResets == s.lockResets)
        && (if turn.Some?
            then t.lastRotation.Some? && t.lastRotation.value.direction == turn.value
                 && t.active.value.rotation == TargetRotation(s.active.value.rotation, turn.value)
            else t.lastRotation.None? && t.active.value.rotation == s.active.value.rotation
                 && t.active.value.y == s.active.value.y))
  }

  lemma StepIsAManipulation(env: Env, s: Sim, side: Side)
    requires Fits(s)
    ensures Manipulated(env, s, MoveHorizontal(env, s, side), None)
  {
    assert Grounded(s) <==> Rests(s);
    hide PlacementValid;
  }

  lemma TurnIsAManipulation(env: Env, s: Sim, direction: Direction)
    requires Fits(s)
    ensures Manipulated(env, s, Turn(env, s, direction), Some(direction))
  {
    var p := s.active.value;
    assert Grounded(s) <==> Rests(s);
    RotationTakesTheFirstFit(s.board, p, direction, env.kicks(p.kind, p.rotation, direction), 0);
    hide PlacementValid, FirstKick, IsBoard;
  }

  /** Do two states differ only in the keys that are held? */
  predicate SameButKeys(s: Sim, u: Sim) {
    u == s.(held := u.held, horizontal := u.horizontal, horizontalFrames := u.horizontalFrames)
  }

  lemma KeysDoNotMatter(env: Env, s: Sim, u: Sim, t: Sim, turn: Option<Direction>)
    requires s.active.Some? && SameButKeys(s, u) && Manipulated(env, u, t, turn)
    ensures Manipulated(env, s, t, turn)
  {
    hide PlacementValid;
  }

  lemma UntouchedIsManipulated(env: Env, s: Sim, u: Sim, turn: Option<Direction>)
    requires Fits(s) && SameButKeys(s, u)
    ensures Manipulated(env, s, u, turn)
  {
    hide PlacementValid;
  }

  lemma HeldIsAManipulation(env: Env, s: Sim, side: Side, pressed: bool)
    requires Fits(s)
    ensures Manipulated(env, s, SetHorizontal(env, s, side, pressed), None)
  {
    hide PlacementValid, MoveHorizontal, Manipulated;
    var held := s.(held := WithSide(s.held, side, pressed));
    var to, back := held.(horizontal := Some(side), horizontalFrames := 0), held.(horizontal := Some(Other(side)), horizontalFrames := 0);
    StepIsAManipulation(env, to, side);
    KeysDoNotMatter(env, s, to, MoveHorizontal(env, to, side), None);
    StepIsAManipulation(env, back, Other(side));
    KeysDoNotMatter(env, s, back, MoveHorizontal(env, back, Other(side)), None);
    UntouchedIsManipulated(env, s, held, None);
    UntouchedIsManipulated(env, s, held.(horizontal := None, horizontalFrames := 0), None);
  }

  /**
   A manipulation that moves or turns the piece is remembered as its last rotation or as none. It restarts the lock delay
   of a resting piece and uses up a reset, while resets remain; otherwise the lock delay runs on. One that does not move
   the piece changes neither.
   */
  lemma ManipulationsRestartTheDelay(env: Env, s: Sim, a: Action, frame: int)
    requires Live(s) && IsManipulation(a)
    ensures ApplyAction(env, s, a, frame).Ok?
    ensures Manipulated(env, s, ApplyAction(env, s, a, frame).value, if a.Rotate? then Some(a.direction) else None)
  {
    hide NoFullRow, ResolveLock, AfterLock, MoveToTheWall, Fall, FallToFloor, Manipulated, SetHorizontal, MoveHorizontal, Turn;
    match a
    case Move(side, pressed) => HeldIsAManipulation(env, s, side, pressed);
    case MoveStep(side) => StepIsAManipulation(env, s, side);
    case Rotate(direction) => TurnIsAManipulation(env, s, direction);
    case _ =>
  }
}

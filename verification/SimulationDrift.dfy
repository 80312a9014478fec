/** How an untouched piece moves in open space: rows fallen and steps made over any number of frames. */
module SimulationDrift {
  import opened Wrappers
  import opened Quotients
  import opened Pieces
  import opened Boards
  import opened Garbage
  import opened Attack
  import opened Rotation
  import opened Simulation
  import opened SimulationLaws
  import opened SimulationLedger
  import opened SimulationTraces
  import opened SimulationClock

  // ---------------------------------------------------------------- straight down

  /** Is the place `rows` rows below a piece free for it? */
  predicate FreeBelow(b: FieldBoard, p: Piece, rows: int) { PlacementValid(b, Shifted(p, 0, -rows)) }

  lemma FreeFromBelow(b: FieldBoard, p: Piece, d: int)
    ensures FreeBelow(b, Below(p), d) <==> FreeBelow(b, p, d + 1)
    ensures FreeBelow(b, p, 1) <==> PlacementValid(b, Below(p))
  {
    assert Shifted(Below(p), 0, -d) == Shifted(p, 0, -(d + 1));
    assert Shifted(p, 0, -1) == Below(p);
  }

  lemma ShiftedTwice(p: Piece, dx: int, dy: int, ex: int, ey: int)
    ensures Shifted(Shifted(p, dx, dy), ex, ey) == Shifted(p, dx + ex, dy + ey)
  {
  }

  /** Falling goes straight down, row by legal row, as far as asked or until the next row is taken. */
  lemma {:induction false} FallsStraight(s: Sim, cells: nat) returns (rows: nat)
    requires s.active.Some?
    ensures rows <= cells && Fall(s, cells) == s.(active := Some(Shifted(s.active.value, 0, -(rows as int))))
    ensures forall d | 1 <= d <= rows :: FreeBelow(s.board, s.active.value, d)
    ensures rows < cells ==> !FreeBelow(s.board, s.active.value, rows + 1)
    decreases cells
  {
    hide PlacementValid;
    rows := 0;
    var p := s.active.value;
    assert Shifted(p, 0, 0) == p;
    FreeFromBelow(s.board, p, 0);
    if cells > 0 && CanFall(s) {
      var t := s.(active := Some(Below(p)));
      var more := FallsStraight(t, cells - 1);
      rows := more + 1;
      assert Shifted(Below(p), 0, -(more as int)) == Shifted(p, 0, -(rows as int));
      FreeFromBelow(s.board, p, more + 1);
      forall d | 1 <= d <= rows ensures FreeBelow(s.board, p, d) {
        if d > 1 {
          FreeFromBelow(s.board, p, d - 1);
          assert FreeBelow(t.board, t.active.value, d - 1);
        }
      }
    }
  }

  // ---------------------------------------------------------------- arithmetic of the clock

  /** The steps of a direction that has been held for `ticks` frames: the first when the delay is over, then at the repeat rate. */
  function StepsAfter(rules: Rules, ticks: int): int
    requires rules.arrFrames > 0
  {
    if ticks < rules.dasFrames then 0 else 1 + (ticks - rules.dasFrames) / rules.arrFrames
  }

  lemma StepsCount(rules: Rules, ticks: int)
    requires rules.arrFrames > 0
    ensures StepsAfter(rules, ticks + 1) - StepsAfter(rules, ticks)
         == if ticks + 1 >= rules.dasFrames && (ticks + 1 - rules.dasFrames) % rules.arrFrames == 0 then 1 else 0
  {
    var u, arr := ticks - rules.dasFrames, rules.arrFrames;
    if u == -1 {
      QuotientIsUnique(0, arr, 0, 0);
    } else if u >= 0 {
      QuotientStep(u, 1, arr);
      var r := u % arr;
      if r + 1 < arr {
        QuotientIsUnique(r + 1, arr, 0, r + 1);
      } else {
        QuotientIsUnique(r + 1, arr, 1, 0);
      }
    }
  }

  lemma {:induction false} StepsGrow(rules: Rules, ticks: int, n: nat)
    requires rules.arrFrames > 0
    ensures StepsAfter(rules, ticks) <= StepsAfter(rules, ticks + n)
    decreases n
  {
    if n > 0 {
      StepsGrow(rules, ticks, n - 1);
      StepsCount(rules, ticks + n - 1);
    }
  }

  // ---------------------------------------------------------------- one frame

  /** The rate at which a piece falls, in millionths of a row per second. */
  function FallRate(rules: Rules, held: Held): int {
    if held.softDrop && rules.softDropMicrosPerSecond > rules.gravityMicrosPerSecond
    then rules.softDropMicrosPerSecond else rules.gravityMicrosPerSecond
  }

  /** A row takes as many millionths as there are frames in a second, times a million. */
  function PerRow(rules: Rules): int { rules.tickRateHz * 1_000_000 }

  function Towards(side: Option<Side>, steps: int): int {
    if side.None? then 0 else if side.value.Left? then -steps else steps
  }

  /** Is the place `steps` columns over and `rows` rows down free for a piece? */
  predicate FreeAt(b: FieldBoard, p: Piece, side: Option<Side>, steps: int, rows: int) {
    PlacementValid(b, Shifted(p, Towards(side, steps), -rows))
  }

  /** Every place from here to `steps` columns over and `rows` rows down is free for the piece. */
  predicate Open(b: FieldBoard, p: Piece, side: Option<Side>, steps: int, rows: int) {
    forall i, j | 0 <= i <= steps && 0 <= j <= rows :: FreeAt(b, p, side, i, j)
  }

  /** `t` is `s` with its piece moved and its counters run on; it has been off the ground all along. */
  predicate Drifted(s: Sim, t: Sim, steps: int, rows: int, frames: int, remainder: int)
    requires s.active.Some?
  {
    && Live(t) && t.board == s.board
    && t.active == Some(Shifted(s.active.value, Towards(s.horizontal, steps), -rows))
    && t.held == s.held && t.horizontal == s.horizontal
    && t.horizontalFrames == s.horizontalFrames + (if s.horizontal.Some? then frames else 0)
    && t.gravityRemainder == remainder && t.lockFrames == (if frames == 0 then s.lockFrames else 0)
  }

  lemma StepInTheOpen(env: Env, s: Sim, steps: int)
    requires RulesOk(env.rules) && env.rules.arrFrames > 0 && s.active.Some?
    requires s.horizontal.Some? ==> steps == StepsAfter(env.rules, s.horizontalFrames + 1) - StepsAfter(env.rules, s.horizontalFrames)
    requires s.horizontal.None? ==> steps == 0
    requires Open(s.board, s.active.value, s.horizontal, steps, 1)
    ensures 0 <= steps <= 1
    ensures var t := RepeatHorizontal(env, s);
            && t == s.(active := t.active, horizontalFrames := t.horizontalFrames, lastRotation := t.lastRotation)
            && t.active == Some(Shifted(s.active.value, Towards(s.horizontal, steps), 0))
            && t.horizontalFrames == s.horizontalFrames + (if s.horizontal.Some? then 1 else 0)
  {
    StepsCount(env.rules, s.horizontalFrames);
    var p := s.active.value;
    assert Shifted(p, Towards(s.horizontal, 0), 0) == p;
    assert FreeAt(s.board, p, s.horizontal, 0, 1);
    assert Shifted(p, Towards(s.horizontal, 0), -1) == Below(p);
    if s.horizontal.Some? && steps == 1 {
      var side := s.horizontal.value;
      assert FreeAt(s.board, p, s.horizontal, 1, 0);
      assert Shifted(p, Towards(s.horizontal, 1), 0) == Step(p, side);
    }
  }

  lemma RowsAreFew(rules: Rules, remainder: int, rate: int)
    requires RulesOk(rules) && 0 <= remainder < PerRow(rules) && 0 <= rate <= 40 * PerRow(rules)
    ensures 0 <= (remainder + rate) / PerRow(rules) <= 40
  {
    var total, per := remainder + rate, PerRow(rules);
    QuotientsGrow(0, total, per);
    QuotientsGrow(total, 40 * per + (per - 1), per);
    QuotientIsUnique(40 * per + (per - 1), per, 40, per - 1);
    QuotientIsUnique(0, per, 0, 0);
  }

  lemma FallInTheOpen(env: Env, s: Sim, rows: int)
    requires RulesOk(env.rules) && s.active.Some? && 0 <= s.gravityRemainder < PerRow(env.rules)
    requires 0 <= FallRate(env.rules, s.held) <= 40 * PerRow(env.rules)
    requires rows == (s.gravityRemainder + FallRate(env.rules, s.held)) / PerRow(env.rules)
    requires forall d | 1 <= d <= rows :: FreeBelow(s.board, s.active.value, d)
    ensures rows >= 0
    ensures ApplyGravity(env, s) ==
            s.(active := Some(Shifted(s.active.value, 0, -rows)),
               gravityRemainder := (s.gravityRemainder + FallRate(env.rules, s.held)) % PerRow(env.rules))
  {
    hide PlacementValid, FreeBelow;
    RowsAreFew(env.rules, s.gravityRemainder, FallRate(env.rules, s.held));
    var t := s.(gravityRemainder := (s.gravityRemainder + FallRate(env.rules, s.held)) % PerRow(env.rules));
    var fallen := FallsStraight(t, rows);
    GravityIsFall(env, s, rows);
  }

  lemma GravityIsFall(env: Env, s: Sim, rows: nat)
    requires RulesOk(env.rules) && rows <= 40
    requires rows == (s.gravityRemainder + FallRate(env.rules, s.held)) / PerRow(env.rules)
    ensures ApplyGravity(env, s) ==
            Fall(s.(gravityRemainder := (s.gravityRemainder + FallRate(env.rules, s.held)) % PerRow(env.rules)), rows)
  {
    hide Fall;
  }

  /** One idle frame in the open. */
  lemma OneFrameDrifts(env: Env, s: Sim, frame: int, steps: int, rows: int)
    requires RollsOk(env) && CapFits(env) && RulesOk(env.rules) && env.rules.arrFrames > 0 && frame >= 1
    requires Live(s) && 0 <= s.gravityRemainder < PerRow(env.rules)
    requires 0 <= FallRate(env.rules, s.held) <= 40 * PerRow(env.rules)
    requires s.horizontal.Some? ==> steps == StepsAfter(env.rules, s.horizontalFrames + 1) - StepsAfter(env.rules, s.horizontalFrames)
    requires s.horizontal.None? ==> steps == 0
    requires rows == (s.gravityRemainder + FallRate(env.rules, s.held)) / PerRow(env.rules)
    requires rows >= 0 && Open(s.board, s.active.value, s.horizontal, steps, rows + 1)
    ensures var r := AdvanceFrame(env, s, frame, []);
            && r.Ok? && r.value.sim.frameLocks == []
            && Drifted(s, r.value.sim, steps, rows, 1,
                       (s.gravityRemainder + FallRate(env.rules, s.held)) % PerRow(env.rules))
  {
    hide ClockPhase, AdvanceFrame, ApplyGravity, RepeatHorizontal, RollsOk, StepsAfter, NoFullRow;
    var begun := FreshFrame(s);
    IdleFramesAreTheClock(env, s, frame);
    assert Open(begun.board, begun.active.value, begun.horizontal, steps, 1);
    StepInTheOpen(env, begun, steps);
    var stepped := RepeatHorizontal(env, begun);
    var p := s.active.value;
    forall d | 1 <= d <= rows + 1 ensures FreeBelow(s.board, stepped.active.value, d) {
      assert FreeAt(s.board, p, s.horizontal, steps, d);
      ShiftedTwice(p, Towards(s.horizontal, steps), 0, 0, -d);
    }
    FallInTheOpen(env, stepped, rows);
    ShiftedTwice(stepped.active.value, 0, -rows, 0, -1);
    ShiftedTwice(p, Towards(s.horizontal, steps), 0, 0, -rows);
    assert FreeBelow(s.board, stepped.active.value, rows + 1);
    ClockLocksOnTime(env, begun, frame);
    FramesAreSafe(env, s, frame, []);
  }

  // ---------------------------------------------------------------- any number of frames

  predicate IdleFrame(op: Op) { op.Frame? && op.frame >= 1 && op.actions == [] }

  function RowsAfter(rules: Rules, s: Sim, frames: nat): int
    requires RulesOk(rules)
  {
    (s.gravityRemainder + frames * FallRate(rules, s.held)) / PerRow(rules)
  }

  function StepsDuring(rules: Rules, s: Sim, frames: nat): int
    requires rules.arrFrames > 0
  {
    if s.horizontal.None? then 0
    else StepsAfter(rules, s.horizontalFrames + frames) - StepsAfter(rules, s.horizontalFrames)
  }

  function RemainderAfter(rules: Rules, s: Sim, frames: nat): int
    requires RulesOk(rules)
  {
    (s.gravityRemainder + frames * FallRate(rules, s.held)) % PerRow(rules)
  }

  /** What one more frame adds to the totals. */
  lemma TotalsGrow(rules: Rules, s: Sim, t: Sim, n: nat)
    requires RulesOk(rules) && rules.arrFrames > 0 && s.active.Some? && FallRate(rules, s.held) >= 0
    requires Drifted(s, t, StepsDuring(rules, s, n), RowsAfter(rules, s, n), n, RemainderAfter(rules, s, n))
    ensures RowsAfter(rules, s, n + 1) == RowsAfter(rules, s, n) + RowsAfter(rules, t, 1)
    ensures RemainderAfter(rules, s, n + 1) == RemainderAfter(rules, t, 1)
    ensures StepsDuring(rules, s, n + 1) == StepsDuring(rules, s, n) + StepsDuring(rules, t, 1)
    ensures RowsAfter(rules, s, n) <= RowsAfter(rules, s, n + 1) && StepsDuring(rules, s, n) <= StepsDuring(rules, s, n + 1)
    ensures 0 <= t.gravityRemainder < PerRow(rules)
  {
    hide StepsAfter, Valid;
    var rate, per := FallRate(rules, s.held), PerRow(rules);
    var total := s.gravityRemainder + n * rate;
    assert s.gravityRemainder + (n + 1) * rate == total + rate;
    QuotientStep(total, rate, per);
    QuotientsGrow(total, total + rate, per);
    if s.horizontal.Some? {
      StepsGrow(rules, s.horizontalFrames + n, 1);
    }
  }

  /** Open space ahead is open space from wherever the piece has got to. */
  lemma OpenFromHere(b: FieldBoard, p: Piece, side: Option<Side>, steps: int, rows: int, moreSteps: int, moreRows: int)
    requires 0 <= steps && 0 <= rows && Open(b, p, side, steps + moreSteps, rows + moreRows)
    ensures Open(b, Shifted(p, Towards(side, steps), -rows), side, moreSteps, moreRows)
  {
    var here := Shifted(p, Towards(side, steps), -rows);
    forall i, j | 0 <= i <= moreSteps && 0 <= j <= moreRows ensures FreeAt(b, here, side, i, j) {
      ShiftedTwice(p, Towards(side, steps), -rows, Towards(side, i), -j);
      assert Towards(side, steps) + Towards(side, i) == Towards(side, steps + i);
      assert FreeAt(b, p, side, steps + i, rows + j);
    }
  }

  lemma SmallerIsOpen(b: FieldBoard, p: Piece, side: Option<Side>, steps: int, rows: int, fewer: int, less: int)
    requires Open(b, p, side, steps, rows) && fewer <= steps && less <= rows
    ensures Open(b, p, side, fewer, less)
  {
  }

  /** A player adrift: live, within its rules, with room for `n` frames ahead. */
  predicate Adrift(env: Env, s: Sim, n: nat) {
    && RulesOk(env.rules) && env.rules.arrFrames > 0 && Live(s)
    && 0 <= s.gravityRemainder < PerRow(env.rules)
    && 0 <= FallRate(env.rules, s.held) <= 40 * PerRow(env.rules)
    && Open(s.board, s.active.value, s.horizontal, StepsDuring(env.rules, s, n), RowsAfter(env.rules, s, n) + 1)
  }

  lemma AdriftBefore(env: Env, s: Sim, n: nat)
    requires Adrift(env, s, n + 1)
    ensures Adrift(env, s, n) && RowsAfter(env.rules, s, n) >= 0 && StepsDuring(env.rules, s, n) >= 0
  {
    hide StepsAfter, NoFullRow;
    var rate, per := FallRate(env.rules, s.held), PerRow(env.rules);
    assert n * rate >= 0 && (n + 1) * rate == n * rate + rate;
    QuotientsGrow(s.gravityRemainder + n * rate, s.gravityRemainder + (n + 1) * rate, per);
    QuotientsGrow(0, s.gravityRemainder + n * rate, per);
    QuotientIsUnique(0, per, 0, 0);
    if s.horizontal.Some? {
      StepsGrow(env.rules, s.horizontalFrames + n, 1);
      StepsGrow(env.rules, s.horizontalFrames, n);
    }
    SmallerIsOpen(s.board, s.active.value, s.horizontal, StepsDuring(env.rules, s, n + 1), RowsAfter(env.rules, s, n + 1) + 1,
                  StepsDuring(env.rules, s, n), RowsAfter(env.rules, s, n) + 1);
  }

  lemma NothingDrifts(rules: Rules, s: Sim)
    requires RulesOk(rules) && rules.arrFrames > 0 && Live(s) && 0 <= s.gravityRemainder < PerRow(rules)
    ensures Drifted(s, s, StepsDuring(rules, s, 0), RowsAfter(rules, s, 0), 0, RemainderAfter(rules, s, 0))
  {
    QuotientIsUnique(s.gravityRemainder, PerRow(rules), 0, s.gravityRemainder);
    assert Shifted(s.active.value, 0, 0) == s.active.value;
  }

  lemma DriftsJoin(rules: Rules, s: Sim, t: Sim, u: Sim, n: nat)
    requires RulesOk(rules) && rules.arrFrames > 0 && s.active.Some? && FallRate(rules, s.held) >= 0
    requires Drifted(s, t, StepsDuring(rules, s, n), RowsAfter(rules, s, n), n, RemainderAfter(rules, s, n))
    requires Drifted(t, u, StepsDuring(rules, t, 1), RowsAfter(rules, t, 1), 1, RemainderAfter(rules, t, 1))
    ensures Drifted(s, u, StepsDuring(rules, s, n + 1), RowsAfter(rules, s, n + 1), n + 1, RemainderAfter(rules, s, n + 1))
  {
    TotalsGrow(rules, s, t, n);
    hide StepsDuring, RowsAfter, RemainderAfter, Live;
    ShiftedTwice(s.active.value, Towards(s.horizontal, StepsDuring(rules, s, n)), -RowsAfter(rules, s, n),
                 Towards(s.horizontal, StepsDuring(rules, t, 1)), -RowsAfter(rules, t, 1));
  }

  lemma OneMoreFrameDrifts(env: Env, s: Sim, t: Sim, frame: int, n: nat)
    requires RollsOk(env) && CapFits(env) && frame >= 1 && Adrift(env, s, n + 1)
    requires var r := env.rules; Drifted(s, t, StepsDuring(r, s, n), RowsAfter(r, s, n), n, RemainderAfter(r, s, n))
    ensures var a := AdvanceFrame(env, t, frame, []);
            && a.Ok? && a.value.sim.frameLocks == []
            && var r := env.rules;
               Drifted(s, a.value.sim, StepsDuring(r, s, n + 1), RowsAfter(r, s, n + 1), n + 1, RemainderAfter(r, s, n + 1))
  {
    hide AdvanceFrame, RollsOk, StepsAfter, NoFullRow;
    var r := env.rules;
    AdriftBefore(env, s, n);
    TotalsGrow(r, s, t, n);
    OpenFromHere(s.board, s.active.value, s.horizontal, StepsDuring(r, s, n), RowsAfter(r, s, n),
                 StepsDuring(r, t, 1), RowsAfter(r, t, 1) + 1);
    OneFrameDrifts(env, t, frame, StepsDuring(r, t, 1), RowsAfter(r, t, 1));
    DriftsJoin(r, s, t, AdvanceFrame(env, t, frame, []).value.sim, n);
  }

  /**
   An untouched piece moves like clockwork: in open space, after `n` idle frames it has fallen as many rows as the rate
   fills in `n` frames, starting from its remainder, has stepped in the held direction once for the delay and once per
   repeat period since, and nothing has been locked.
   */
  lemma {:induction false} PiecesDriftLikeClockwork(env: Env, board: FieldBoard, ops: seq<Op>, more: seq<Op>)
    requires RulesOk(env.rules) && RollsOk(env) && CapFits(env)
    requires Adrift(env, Run(env, board, ops).sim, |more|)
    requires forall i | 0 <= i < |more| :: IdleFrame(more[i])
    ensures var b, c := Run(env, board, ops), Run(env, board, ops + more);
            var n, s := |more|, Run(env, board, ops).sim;
            && c.locks == b.locks
            && Drifted(s, c.sim, StepsDuring(env.rules, s, n), RowsAfter(env.rules, s, n), n, RemainderAfter(env.rules, s, n))
    decreases |more|
  {
    hide Run, AdvanceFrame, RollsOk, Drifted, StepsDuring, RowsAfter, RemainderAfter;
    var s := Run(env, board, ops).sim;
    if more == [] {
      assert ops + more == ops;
      NothingDrifts(env.rules, s);
    } else {
      var m := |more| - 1;
      AdriftBefore(env, s, m);
      PiecesDriftLikeClockwork(env, board, ops, more[..m]);
      var b := Run(env, board, ops + more[..m]);
      OneMoreFrameDrifts(env, s, b.sim, more[m].frame, m);
      RunOneMore(env, board, ops + more[..m], more[m]);
      assert ops + more == ops + more[..m] + [more[m]];
      assert b.locks + [] == b.locks;
    }
  }

  /** Without a repeat period a held direction waits for its delay and is then always at the wall. */
  lemma InstantRepeatReachesTheWall(env: Env, s: Sim)
    requires RulesOk(env.rules) && env.rules.arrFrames == 0 && s.active.Some? && s.horizontal.Some?
    ensures var t := RepeatHorizontal(env, s);
            && t.horizontalFrames == s.horizontalFrames + 1
            && (if t.horizontalFrames < env.rules.dasFrames then t.active == s.active
                else t.active.Some? && t.active.value.y == s.active.value.y && !CanStep(t, s.horizontal.value))
  {
    WallIsReached(env, s.(horizontalFrames := s.horizontalFrames + 1), s.horizontal.value);
  }

  lemma {:induction false} WallIsReached(env: Env, s: Sim, side: Side)
    requires s.active.Some?
    ensures var t := MoveToTheWall(env, s, side);
            && t.active.Some? && t.active.value.y == s.active.value.y && !CanStep(t, side)
            && t.horizontalFrames == s.horizontalFrames
    decreases if CanStep(s, side) then Room(Step(s.active.value, side), side) + 1 else 0
  {
    if CanStep(s, side) {
      FittingPieceHasRoom(s.board, Step(s.active.value, side), side);
      var moved := MoveHorizontal(env, s, side);
      WallIsReached(env, moved, side);
    }
  }
}

/**
 When the handling engine emits: the merged timers behave as two independent clocks, what the
 emission limit leaves behind, and where the outcome depends on how often the engine is polled.
 */
module HandlingTiming {
  import opened Wrappers
  import opened Handling
  import opened HandlingLaws

  function CellCount(actions: seq<Expanded>): nat
    decreases |actions|
  {
    if actions == [] then 0
    else (if actions[0].SoftDropCells? then actions[0].cells else 0) + CellCount(actions[1..])
  }

  function ShiftCount(actions: seq<Expanded>): nat
    decreases |actions|
  {
    if actions == [] then 0 else (if actions[0].Shift? then 1 else 0) + ShiftCount(actions[1..])
  }

  lemma {:induction false} CountsConcatenate(a: seq<Expanded>, b: seq<Expanded>)
    ensures CellCount(a + b) == CellCount(a) + CellCount(b)
    ensures ShiftCount(a + b) == ShiftCount(a) + ShiftCount(b)
    decreases |a|
  {
    if a == [] {
      assert a + b == b;
    } else {
      CountsConcatenate(a[1..], b);
      assert (a + b)[1..] == a[1..] + b;
    }
  }

  lemma TickCounts(c: Config, e: Engine)
    requires Earliest(e.nextH, e.nextS).Some?
    ensures CellCount(TickActions(c, e)) == if SoftDropDue(e) then 1 else 0
    ensures ShiftCount(TickActions(c, e)) == if HorizontalDue(e) && e.active.Some? then 1 else 0
  {
    var shift := if HorizontalDue(e) then ShiftOf(c, e) else [];
    CountsConcatenate(shift, [SoftDropCells(1)]);
    CountsConcatenate([SoftDropCells(1)], shift);
    assert CellCount([SoftDropCells(1)]) == 1 && ShiftCount([SoftDropCells(1)]) == 0;
    if shift != [] {
      assert CellCount(shift) == 0 && ShiftCount(shift) == 1;
    }
  }

  predicate Timed(c: Config, e: Engine) {
    (e.active.None? ==> e.nextH.None?) && (e.nextS.Some? ==> c.factor.EveryMs?)
  }

  function Elapsed(n: nat, period: real): real { n as real * period }

  /** A clock that started at `t` and ticked every `period` has ticked `n` times by `to` and shows `after` next. */
  predicate Ticked(t: Timer, after: Timer, period: real, n: nat, to: real) {
    if t.None? then n == 0 && after.None?
    else
      && after == Some(t.value + Elapsed(n, period))
      && after.value > to
      && (n > 0 ==> after.value - period <= to)
  }

  /** An auto shift without a repeat rate goes to the wall once. */
  predicate ShiftedOnce(t: Timer, after: Timer, n: nat, to: real) {
    if Due(t, to) then n == 1 && after.None? else n == 0 && after == t
  }

  lemma ElapsedGrows(n: nat, period: real)
    ensures Elapsed(0, period) == 0.0
    ensures Elapsed(n + 1, period) == Elapsed(n, period) + period
  {
    assert (n + 1) as real == n as real + 1.0;
    Distributes(n as real, period);
  }

  lemma TickedOnceMore(t: real, after: Timer, period: real, n: nat, to: real)
    requires Ticked(Some(t + period), after, period, n, to) && t <= to
    ensures Ticked(Some(t), after, period, n + 1, to)
  {
    hide Elapsed;
    ElapsedGrows(n, period);
  }

  lemma Distributes(x: real, period: real)
    ensures (x + 1.0) * period == x * period + period
  {
  }

  /** What the horizontal timer did while draining. */
  predicate ShiftsOk(c: Config, e: Engine, d: Engine, n: nat, to: real) {
    if c.arr > 0.0 then Ticked(e.nextH, d.nextH, c.arr, n, to) else ShiftedOnce(e.nextH, d.nextH, n, to)
  }

  predicate CellsOk(c: Config, e: Engine, d: Engine, n: nat, to: real) {
    Ticked(e.nextS, d.nextS, if c.factor.EveryMs? then c.factor.interval else 1.0, n, to)
  }

  lemma CellsStep(c: Config, e: Engine, d: Engine, n: nat, to: real)
    requires ConfigOk(c) && Timed(c, e) && Due(Earliest(e.nextH, e.nextS), to) && CellsOk(c, Tick(c, e), d, n, to)
    ensures CellsOk(c, e, d, n + (if SoftDropDue(e) then 1 else 0), to)
  {
    if SoftDropDue(e) {
      TickedOnceMore(e.nextS.value, d.nextS, c.factor.interval, n, to);
    }
  }

  lemma ShiftsStep(c: Config, e: Engine, d: Engine, n: nat, to: real)
    requires ConfigOk(c) && Timed(c, e) && Due(Earliest(e.nextH, e.nextS), to) && ShiftsOk(c, Tick(c, e), d, n, to)
    ensures ShiftsOk(c, e, d, n + (if HorizontalDue(e) && e.active.Some? then 1 else 0), to)
  {
    if HorizontalDue(e) && c.arr > 0.0 {
      TickedOnceMore(e.nextH.value, d.nextH, c.arr, n, to);
    }
  }

  lemma TicksStayTimed(c: Config, e: Engine)
    requires Timed(c, e) && Earliest(e.nextH, e.nextS).Some?
    ensures Timed(c, Tick(c, e))
  {
  }

  lemma RestingRates(c: Config, e: Engine, to: real)
    requires ConfigOk(c) && !Due(Earliest(e.nextH, e.nextS), to)
    ensures CellsOk(c, e, e, CellCount([]), to) && ShiftsOk(c, e, e, ShiftCount([]), to)
  {
  }

  lemma {:induction false} DrainKeepsTheRates(c: Config, e: Engine, to: real, emitted: nat)
    requires ConfigOk(c) && Timed(c, e) && Drain(c, e, to, emitted).emitted < MAX_EMISSIONS
    ensures var d := Drain(c, e, to, emitted);
            && CellsOk(c, e, d.engine, CellCount(d.actions), to)
            && ShiftsOk(c, e, d.engine, ShiftCount(d.actions), to)
    decreases MAX_EMISSIONS - emitted
  {
    hide Tick, TickActions, TickCount, CellsOk, ShiftsOk, CellCount, ShiftCount;
    if emitted < MAX_EMISSIONS && Due(Earliest(e.nextH, e.nextS), to) {
      var rest := Drain(c, Tick(c, e), to, emitted + TickCount(e));
      TicksCount(c, e);
      TicksStayTimed(c, e);
      DrainKeepsTheRates(c, Tick(c, e), to, emitted + TickCount(e));
      CellsStep(c, e, rest.engine, CellCount(rest.actions), to);
      ShiftsStep(c, e, rest.engine, ShiftCount(rest.actions), to);
      TickCounts(c, e);
      CountsConcatenate(TickActions(c, e), rest.actions);
    } else {
      RestingRates(c, e, to);
    }
  }

  predicate ShiftsAre(actions: seq<Expanded>, direction: Option<Direction>, toWall: bool) {
    forall i | 0 <= i < |actions| ::
      actions[i].SoftDropCells? || (direction.Some? && actions[i] == Shift(direction.value, toWall))
  }

  lemma {:induction false} DrainShiftsTheActiveWay(c: Config, e: Engine, to: real, emitted: nat)
    ensures ShiftsAre(Drain(c, e, to, emitted).actions, e.active, c.arr == 0.0)
    decreases MAX_EMISSIONS - emitted
  {
    if emitted < MAX_EMISSIONS && Due(Earliest(e.nextH, e.nextS), to) {
      TicksCount(c, e);
      DrainShiftsTheActiveWay(c, Tick(c, e), to, emitted + TickCount(e));
      assert ShiftsAre(TickActions(c, e), e.active, c.arr == 0.0);
    }
  }

  /**
   Although one loop drives both, auto repeat and soft drop are two independent clocks: by time `to`
   each has emitted exactly as often as its own start and period say, every shift goes in the active
   direction (to the wall, and once, without a repeat rate), and nothing else is emitted.
   */
  lemma TimersAreIndependentClocks(c: Config, e: Engine, to: real)
    requires ConfigOk(c) && TimersOk(c, e) && WithinLimit(c, e, to)
    ensures var o := AdvanceTo(c, e, to);
            && CellsOk(c, e, o.engine, CellCount(o.actions), to)
            && ShiftsOk(c, e, o.engine, ShiftCount(o.actions), to)
            && ShiftsAre(o.actions, e.active, c.arr == 0.0)
  {
    DrainKeepsTheRates(c, e, to, 0);
    DrainShiftsTheActiveWay(c, e, to, 0);
  }

  // ---------------------------------------------------------------- the emission limit

  predicate NothingDue(e: Engine, to: real) { !Due(e.nextH, to) && !Due(e.nextS, to) }

  lemma {:induction false} DrainEndsAtTheLimit(c: Config, e: Engine, to: real, emitted: nat)
    requires emitted <= MAX_EMISSIONS
    ensures var d := Drain(c, e, to, emitted);
            emitted <= d.emitted <= MAX_EMISSIONS + 1 && (d.emitted < MAX_EMISSIONS ==> NothingDue(d.engine, to))
    decreases MAX_EMISSIONS - emitted
  {
    if emitted < MAX_EMISSIONS && Due(Earliest(e.nextH, e.nextS), to) {
      TicksCount(c, e);
      if emitted + TickCount(e) <= MAX_EMISSIONS {
        DrainEndsAtTheLimit(c, Tick(c, e), to, emitted + TickCount(e));
      }
    }
  }

  function CellTime(c: Config, e: Engine, j: nat): real
    requires e.nextS.Some? && c.factor.EveryMs?
  {
    e.nextS.value + Elapsed(j, c.factor.interval)
  }

  function ShiftTime(c: Config, e: Engine, k: nat): real
    requires e.nextH.Some?
  {
    e.nextH.value + Elapsed(k, c.arr)
  }

  /** After `j` cells and `k` shifts both timers fire at one instant by `to`, and that is the last emission allowed. */
  predicate Meet(c: Config, e: Engine, to: real, emitted: nat, j: nat, k: nat) {
    && e.nextS.Some? && e.nextH.Some? && c.factor.EveryMs?
    && j + k + emitted == MAX_EMISSIONS - 1 && (c.arr == 0.0 ==> k == 0)
    && CellTime(c, e, j) == ShiftTime(c, e, k) <= to
  }

  lemma {:induction false} ElapsedIsPositive(n: nat, period: real)
    requires period >= 0.0
    ensures Elapsed(n, period) >= 0.0 && (n > 0 && period > 0.0 ==> Elapsed(n, period) > 0.0)
    decreases n
  {
    ElapsedGrows(if n > 0 then n - 1 else 0, period);
    if n > 0 {
      ElapsedIsPositive(n - 1, period);
    }
  }

  /** The timers a meeting leaves behind. */
  predicate LeftBy(c: Config, e: Engine, d: Drained, j: nat, k: nat)
    requires e.nextS.Some? && e.nextH.Some? && c.factor.EveryMs?
  {
    && d.emitted == MAX_EMISSIONS + 1
    && d.engine.nextS == Some(CellTime(c, e, j + 1))
    && d.engine.nextH == if c.arr > 0.0 then Some(ShiftTime(c, e, k + 1)) else None
  }

  lemma LastMeeting(c: Config, e: Engine, to: real, emitted: nat)
    requires ConfigOk(c) && Timed(c, e) && Meet(c, e, to, emitted, 0, 0)
    ensures LeftBy(c, e, Drain(c, e, to, emitted), 0, 0)
  {
    ElapsedGrows(0, c.arr);
    ElapsedGrows(0, c.factor.interval);
    assert Drain(c, Tick(c, e), to, emitted + 2) == Drained(Tick(c, e), [], emitted + 2);
  }

  /** The first firings on the way to a meeting. */
  lemma MeetingSteps(c: Config, e: Engine, to: real, emitted: nat, j: nat, k: nat)
    requires ConfigOk(c) && Timed(c, e) && Meet(c, e, to, emitted, j, k) && j + k > 0
    ensures emitted < MAX_EMISSIONS && Due(Earliest(e.nextH, e.nextS), to)
    ensures var cells, shifts := if SoftDropDue(e) then 1 else 0, if HorizontalDue(e) then 1 else 0;
            && cells <= j && shifts <= k && TickCount(e) == cells + shifts && (shifts > 0 ==> c.arr > 0.0)
            && Meet(c, Tick(c, e), to, emitted + TickCount(e), j - cells, k - shifts)
            && CellTime(c, Tick(c, e), j - cells + 1) == CellTime(c, e, j + 1)
            && ShiftTime(c, Tick(c, e), k - shifts + 1) == ShiftTime(c, e, k + 1)
  {
    hide Elapsed;
    ElapsedGrows(0, c.arr);
    ElapsedIsPositive(j, c.factor.interval);
    ElapsedIsPositive(k, c.arr);
    ElapsedGrows(j, c.factor.interval);
    ElapsedGrows(k, c.arr);
    if j > 0 {
      ElapsedGrows(j - 1, c.factor.interval);
      ElapsedIsPositive(j - 1, c.factor.interval);
    }
    if k > 0 {
      ElapsedGrows(k - 1, c.arr);
      ElapsedIsPositive(k - 1, c.arr);
    }
  }

  lemma {:induction false} MeetingsOvershoot(c: Config, e: Engine, to: real, emitted: nat, j: nat, k: nat)
    requires ConfigOk(c) && Timed(c, e) && Meet(c, e, to, emitted, j, k)
    ensures LeftBy(c, e, Drain(c, e, to, emitted), j, k)
    decreases j + k
  {
    if j + k == 0 {
      LastMeeting(c, e, to, emitted);
    } else {
      MeetingSteps(c, e, to, emitted, j, k);
      var cells, shifts := if SoftDropDue(e) then 1 else 0, if HorizontalDue(e) then 1 else 0;
      assert Timed(c, Tick(c, e));
      hide Meet, CellTime, ShiftTime;
      MeetingsOvershoot(c, Tick(c, e), to, emitted + TickCount(e), j - cells, k - shifts);
    }
  }

  lemma {:induction false} OneTimerNeverOvershoots(c: Config, e: Engine, to: real, emitted: nat)
    requires (e.nextH.None? || e.nextS.None?) && emitted <= MAX_EMISSIONS
    ensures Drain(c, e, to, emitted).emitted <= MAX_EMISSIONS
    decreases MAX_EMISSIONS - emitted
  {
    if emitted < MAX_EMISSIONS && Due(Earliest(e.nextH, e.nextS), to) {
      OneTimerNeverOvershoots(c, Tick(c, e), to, emitted + TickCount(e));
    }
  }

  lemma LastTickMeets(c: Config, e: Engine, to: real, emitted: nat)
    requires ConfigOk(c) && Timed(c, e) && Due(Earliest(e.nextH, e.nextS), to)
    requires emitted < MAX_EMISSIONS < emitted + TickCount(e)
    ensures Meet(c, e, to, emitted, 0, 0)
  {
    ElapsedGrows(0, c.arr);
    ElapsedGrows(0, if c.factor.EveryMs? then c.factor.interval else 1.0);
  }

  lemma EarlierMeeting(c: Config, e: Engine, to: real, emitted: nat, j: nat, k: nat)
    requires ConfigOk(c) && Timed(c, e) && Earliest(e.nextH, e.nextS).Some? && e.nextH.Some? && e.nextS.Some?
    requires Meet(c, Tick(c, e), to, emitted + TickCount(e), j, k) && (HorizontalDue(e) ==> c.arr > 0.0)
    ensures Meet(c, e, to, emitted, j + (if SoftDropDue(e) then 1 else 0), k + (if HorizontalDue(e) then 1 else 0))
  {
    hide Elapsed;
    ElapsedGrows(j, c.factor.interval);
    ElapsedGrows(k, c.arr);
  }

  lemma {:induction false} OvershootsAreMeetings(c: Config, e: Engine, to: real, emitted: nat) returns (j: nat, k: nat)
    requires ConfigOk(c) && Timed(c, e) && emitted <= MAX_EMISSIONS
    requires Drain(c, e, to, emitted).emitted > MAX_EMISSIONS
    ensures Meet(c, e, to, emitted, j, k)
    decreases MAX_EMISSIONS - emitted
  {
    j, k := 0, 0;
    if e.nextH.None? || e.nextS.None? {
      OneTimerNeverOvershoots(c, e, to, emitted);
    } else {
      var ticked, count := Tick(c, e), emitted + TickCount(e);
      if count > MAX_EMISSIONS {
        LastTickMeets(c, e, to, emitted);
      } else {
        if ticked.nextH.None? {
          OneTimerNeverOvershoots(c, ticked, to, count);
        }
        j, k := OvershootsAreMeetings(c, ticked, to, count);
        EarlierMeeting(c, e, to, emitted, j, k);
        j, k := j + (if SoftDropDue(e) then 1 else 0), k + (if HorizontalDue(e) then 1 else 0);
      }
    }
  }

  /** One of the two timers fires again by `to` after their meeting. */
  predicate FiresAgain(c: Config, e: Engine, to: real, j: nat)
    requires e.nextS.Some? && c.factor.EveryMs?
  {
    CellTime(c, e, j) + c.factor.interval <= to || (c.arr > 0.0 && CellTime(c, e, j) + c.arr <= to)
  }

  /** The advance overshoots its limit, and something is due again after that. */
  predicate Overshot(c: Config, e: Engine, to: real, j: nat, k: nat) { Meet(c, e, to, 0, j, k) && FiresAgain(c, e, to, j) }

  lemma MeetingsLeave(c: Config, e: Engine, to: real, j: nat, k: nat)
    requires ConfigOk(c) && TimersOk(c, e) && Meet(c, e, to, 0, j, k)
    ensures !NothingDue(AdvanceTo(c, e, to).engine, to) <==> FiresAgain(c, e, to, j)
  {
    hide Elapsed;
    MeetingsOvershoot(c, e, to, 0, j, k);
    ElapsedGrows(j, c.factor.interval);
    ElapsedGrows(k, c.arr);
  }

  /**
   One advance emits at most 513 actions. It leaves something due by its own time exactly when after 511 emissions both
   timers fire at one instant, so that the limit of 512 is passed and nothing skipped, and one of them fires again
   in time.
   */
  lemma BacklogRemainsExactlyAfterAMeeting(c: Config, e: Engine, to: real)
    requires ConfigOk(c) && TimersOk(c, e)
    ensures Drain(c, e, to, 0).emitted <= MAX_EMISSIONS + 1
    ensures !NothingDue(AdvanceTo(c, e, to).engine, to) <==> exists j, k :: Overshot(c, e, to, j, k)
  {
    DrainEndsAtTheLimit(c, e, to, 0);
    forall j, k | Overshot(c, e, to, j, k) ensures !NothingDue(AdvanceTo(c, e, to).engine, to) {
      MeetingsLeave(c, e, to, j, k);
    }
    if !NothingDue(AdvanceTo(c, e, to).engine, to) {
      var j, k := OvershootsAreMeetings(c, e, to, 0);
      MeetingsLeave(c, e, to, j, k);
      assert Overshot(c, e, to, j, k);
    }
  }

  // ---------------------------------------------------------------- two engines reached by key presses

  /** Soft drop and a direction pressed at time zero. */
  function BothPressed(): seq<Call> { [Down(1, false, 0.0), Down(2, false, 0.0)] }

  function TwoKeys(das: nat, arr: nat, sdf: nat): Config
    requires sdf >= 1
  {
    Config(FrameTenthsToMs(das), FrameTenthsToMs(arr), 0.0, FactorOf(sdf, 60.0), false, true, false,
           map[1 := [SoftDrop], 2 := [MoveRight]])
  }

  lemma NothingHappensAtZero(c: Config, e: Engine)
    requires e.now == 0.0 && NothingDue(e, 0.0)
    ensures AdvanceTo(c, e, 0.0) == Outcome(e, [])
  {
    assert e.(now := 0.0) == e;
  }

  lemma PressingBoth(das: nat, arr: nat, sdf: nat)
    requires das >= 10 && sdf >= 1
    ensures var c, e := TwoKeys(das, arr, sdf), Ran(TwoKeys(das, arr, sdf), 0.0, BothPressed());
            && ConfigOk(c) && e.now == 0.0 && e.active == Some(Right) && !e.charged
            && e.nextS == Some(c.factor.interval) && e.nextH == Some(c.das)
  {
    var c := TwoKeys(das, arr, sdf);
    var start := Start(0.0);
    assert sdf as real * 60.0 > 0.0;
    assert BothPressed()[..1] == [Down(1, false, 0.0)] && [Down(1, false, 0.0)][..0] == [];
    NothingHappensAtZero(c, start);
    var first := Perform(c, start, Down(1, false, 0.0));
    assert Bound(c, 1) == [SoftDrop] && [SoftDrop][1..] == [];
    assert first == start.(pressed := {1}, held := map[SoftDrop := 1], nextS := Some(c.factor.interval));
    NothingHappensAtZero(c, first);
    assert Bound(c, 2) == [MoveRight] && [MoveRight][1..] == [];
    assert Ran(c, 0.0, [Down(1, false, 0.0)]) == first;
  }

  /**
   The overshoot is real: with the shortest delay and repeat rate of the settings and soft drop factor 10 at the usual
   base rate, two keys held for a second leave events due in the past.
   */
  lemma HeldKeysCanOvershoot()
    ensures var c := TwoKeys(10, 1, 10);
            var t := Ran(c, 0.0, BothPressed() + [AdvanceCall(1000.0)]);
            t.now == 1000.0 && !NothingDue(t, 1000.0)
  {
    var c := TwoKeys(10, 1, 10);
    var calls := BothPressed() + [AdvanceCall(1000.0)];
    assert calls[..2] == BothPressed();
    PressingBoth(10, 1, 10);
    var e := Ran(c, 0.0, BothPressed());
    RunsStayConsistent(c, 0.0, BothPressed());
    var p := 1000.0 / 600.0;
    assert c.factor.interval == p && c.arr == p && c.das == 10.0 * p;
    assert Elapsed(260, p) == 260.0 * p && Elapsed(251, p) == 251.0 * p;
    assert Overshot(c, e, 1000.0, 260, 251);
    BacklogRemainsExactlyAfterAMeeting(c, e, 1000.0);
  }

  // ---------------------------------------------------------------- the auto shift

  /** A held direction keeps repeating, or has reached the wall. */
  predicate AutoShiftAlive(c: Config, e: Engine) {
    e.active.Some? && e.nextH.None? ==> e.charged && c.arr == 0.0
  }

  /** The cell that exhausts the limit is due by `to` and before the shift has charged. */
  predicate Starved(c: Config, e: Engine, to: real, emitted: nat) {
    && e.nextS.Some? && e.nextH.Some? && c.factor.EveryMs?
    && var last := e.nextS.value + (MAX_EMISSIONS - 1 - emitted) as real * c.factor.interval;
       last <= to && last < e.nextH.value
  }

  lemma StarvingSteps(c: Config, e: Engine, to: real, emitted: nat)
    requires ConfigOk(c) && c.factor.EveryMs? && e.nextH.Some? && e.nextS.Some? && emitted + 1 < MAX_EMISSIONS
    requires e.nextS.value < e.nextH.value
    ensures Starved(c, e, to, emitted) <==> Starved(c, Tick(c, e), to, emitted + 1)
  {
    var k := MAX_EMISSIONS - 1 - emitted;
    Distributes((k - 1) as real, c.factor.interval);
  }

  lemma {:induction false} ChargedOrStarved(c: Config, e: Engine, to: real, emitted: nat)
    requires ConfigOk(c) && Timed(c, e) && c.arr == 0.0
    requires e.active.Some? && !e.charged && e.nextH.Some? && emitted < MAX_EMISSIONS
    ensures var d := Drain(c, e, to, emitted);
            && (d.emitted == MAX_EMISSIONS && !d.engine.charged <==> Starved(c, e, to, emitted))
            && (d.engine.nextH.Some? || d.engine.charged) && d.engine.active == e.active
    decreases MAX_EMISSIONS - emitted
  {
    if Starved(c, e, to, emitted) {
      StarvationNeedsTime(c, e, to, emitted);
    }
    if !Due(Earliest(e.nextH, e.nextS), to) {
    } else if HorizontalDue(e) {
      ChargeStays(c, Tick(c, e), to, emitted + TickCount(e));
    } else if emitted + 1 < MAX_EMISSIONS {
      StarvingSteps(c, e, to, emitted);
      ChargedOrStarved(c, Tick(c, e), to, emitted + 1);
    } else {
      assert Drain(c, Tick(c, e), to, emitted + 1) == Drained(Tick(c, e), [], emitted + 1);
      assert (MAX_EMISSIONS - 1 - emitted) as real * c.factor.interval == 0.0;
    }
  }

  lemma StarvationNeedsTime(c: Config, e: Engine, to: real, emitted: nat)
    requires ConfigOk(c) && emitted < MAX_EMISSIONS && Starved(c, e, to, emitted)
    ensures e.nextS.value <= to && e.nextS.value < e.nextH.value
  {
    assert (MAX_EMISSIONS - 1 - emitted) as real * c.factor.interval >= 0.0;
  }

  lemma {:induction false} ChargeStays(c: Config, e: Engine, to: real, emitted: nat)
    requires e.charged
    ensures Drain(c, e, to, emitted).engine.charged && Drain(c, e, to, emitted).engine.active == e.active
    decreases MAX_EMISSIONS - emitted
  {
    if emitted < MAX_EMISSIONS && Due(Earliest(e.nextH, e.nextS), to) {
      TicksCount(c, e);
      ChargeStays(c, Tick(c, e), to, emitted + TickCount(e));
    }
  }

  lemma {:induction false} ShiftsKeepRunning(c: Config, e: Engine, to: real, emitted: nat)
    requires ConfigOk(c) && Timed(c, e) && AutoShiftAlive(c, e) && (c.arr > 0.0 || e.charged)
    ensures AutoShiftAlive(c, Drain(c, e, to, emitted).engine)
    ensures c.arr > 0.0 ==> AutoShiftAlive(c, SkipBacklog(c, Drain(c, e, to, emitted).engine, to))
    decreases MAX_EMISSIONS - emitted
  {
    if emitted < MAX_EMISSIONS && Due(Earliest(e.nextH, e.nextS), to) {
      TicksCount(c, e);
      ShiftsKeepRunning(c, Tick(c, e), to, emitted + TickCount(e));
    }
  }

  /** A shift to the wall is still charging and 512 soft drop cells are due before it. */
  predicate LosesTheShift(c: Config, e: Engine, to: real) {
    c.arr == 0.0 && e.active.Some? && !e.charged && Starved(c, e, to, 0)
  }

  /**
   A held direction is never forgotten by advancing, with exactly one exception: with an instant
   repeat rate, a backlog of 512 soft drop cells due before the shift has charged drops the pending
   charge, and the key stays down without ever shifting again.
   */
  lemma AutoShiftDiesExactlyWhenStarved(c: Config, e: Engine, to: real)
    requires ConfigOk(c) && TimersOk(c, e) && AutoShiftAlive(c, e)
    ensures AutoShiftAlive(c, AdvanceTo(c, e, to).engine) <==> !LosesTheShift(c, e, to)
  {
    DrainKeepsKeys(c, e, to, 0);
    if c.arr > 0.0 || e.charged {
      ShiftsKeepRunning(c, e, to, 0);
      if e.charged {
        ChargeStays(c, e, to, 0);
      }
    } else if e.active.Some? {
      ChargedOrStarved(c, e, to, 0);
    }
  }

  lemma StarvedShiftsStop(c: Config, e: Engine, to: real)
    requires ConfigOk(c) && TimersOk(c, e) && AutoShiftAlive(c, e) && LosesTheShift(c, e, to)
    ensures var t := AdvanceTo(c, e, to).engine; t.active == e.active && t.nextH.None? && !t.charged
  {
    AutoShiftDiesExactlyWhenStarved(c, e, to);
    DrainKeepsKeys(c, e, to, 0);
  }

  lemma LongDelaysStarve(c: Config, e: Engine)
    requires c == TwoKeys(200, 0, 40) && e.nextS == Some(c.factor.interval) && e.nextH == Some(c.das)
    requires e.active.Some? && !e.charged
    ensures LosesTheShift(c, e, 300.0)
  {
    var interval := 1000.0 / 2400.0;
    assert c.factor.interval == interval && c.das == 200.0 * (1000.0 / 600.0) && c.arr == 0.0;
    assert (MAX_EMISSIONS - 1 - 0) as real * interval == 511.0 * interval;
  }

  lemma RunOn(c: Config, calls: seq<Call>, call: Call)
    ensures Ran(c, 0.0, calls + [call]) == Perform(c, Ran(c, 0.0, calls), call)
  {
    assert (calls + [call])[..|calls|] == calls;
  }

  /**
   The loss is real: with an instant repeat rate, the longest delay and the highest finite soft drop factor of the
   settings, two keys held for 300 milliseconds leave the direction active with nothing scheduled and nothing charged.
   */
  lemma HeldKeysCanStarve()
    ensures var c := TwoKeys(200, 0, 40);
            var t := Ran(c, 0.0, BothPressed() + [AdvanceCall(300.0)]);
            t.active == Some(Right) && t.nextH.None? && !t.charged
  {
    hide AdvanceTo, Consistent, LosesTheShift, TwoKeys, BothPressed, Ran;
    var c := TwoKeys(200, 0, 40);
    PressingBoth(200, 0, 40);
    var e := Ran(c, 0.0, BothPressed());
    RunOn(c, BothPressed(), AdvanceCall(300.0));
    assert TimersOk(c, e) by {
      RunsStayConsistent(c, 0.0, BothPressed());
      ConsistentTimers(c, e);
    }
    LongDelaysStarve(c, e);
    StarvedShiftsStop(c, e, 300.0);
  }

  // ---------------------------------------------------------------- polling before a spawn

  lemma {:induction false} DistantShiftsWait(c: Config, e: Engine, h: Timer, to: real, emitted: nat)
    requires !Due(e.nextH, to) && !Due(h, to)
    ensures var d, f := Drain(c, e, to, emitted), Drain(c, e.(nextH := h), to, emitted);
            f == d.(engine := d.engine.(nextH := h)) && d.engine.nextH == e.nextH && d.engine.charged == e.charged
    decreases MAX_EMISSIONS - emitted
  {
    if emitted < MAX_EMISSIONS && Due(e.nextS, to) {
      TicksCount(c, e);
      assert Tick(c, e.(nextH := h)) == Tick(c, e).(nextH := h) && Tick(c, e).nextH == e.nextH;
      DistantShiftsWait(c, Tick(c, e), h, to, emitted + TickCount(e));
    } else {
      assert e.(nextH := e.nextH) == e;
    }
  }

  lemma {:induction false} NothingMoreToDrain(c: Config, e: Engine, to: real)
    requires NothingDue(e, to) && e.now == to
    ensures AdvanceTo(c, e, to) == Outcome(e, [])
  {
    assert e.(now := to) == e;
  }

  /** Advancing to the moment of the spawn first, and then reporting the spawn. */
  function PolledSpawn(c: Config, e: Engine, at: real, automatic: bool): Outcome
    requires Forward(e, at)
  {
    var polled := AdvanceTo(c, e, at);
    After(polled.actions, Spawned(c, polled.engine, at, automatic).value)
  }

  lemma CutThenAdvance(c: Config, e: Engine, at: real)
    requires ConfigOk(c) && TimersOk(c, e) && WithinLimit(c, e, at) && !Due(e.nextH, at) && c.dcd > 0.0
    ensures var polled, direct := AdvanceTo(c, e, at), AdvanceTo(c, CutDas(c, e, at), at);
            && direct == Outcome(CutDas(c, polled.engine, at), polled.actions)
            && AdvanceTo(c, CutDas(c, polled.engine, at), at) == Outcome(CutDas(c, polled.engine, at), [])
  {
    var cut := CutDas(c, e, at);
    assert cut == e.(nextH := cut.nextH);
    DistantShiftsWait(c, e, cut.nextH, at, 0);
    DrainKeepsKeys(c, e, at, 0);
    DrainEndsAtTheLimit(c, e, at, 0);
    NothingMoreToDrain(c, CutDas(c, AdvanceTo(c, e, at).engine, at), at);
  }

  lemma {:induction false} ElapsedAtLeastOnce(n: nat, period: real)
    requires n > 0 && period > 0.0
    ensures Elapsed(n, period) >= period
    decreases n
  {
    ElapsedGrows(n - 1, period);
    if n > 1 {
      ElapsedAtLeastOnce(n - 1, period);
    }
  }

  lemma ShiftsOnlyWhenDue(c: Config, e: Engine, d: Engine, n: nat, to: real)
    requires ConfigOk(c) && ShiftsOk(c, e, d, n, to)
    ensures n > 0 <==> Due(e.nextH, to)
  {
    hide Elapsed;
    if c.arr > 0.0 && e.nextH.Some? {
      ElapsedGrows(n, c.arr);
      if n > 0 {
        ElapsedAtLeastOnce(n, c.arr);
      }
    }
  }

  lemma DueShiftIsCut(c: Config, e: Engine, at: real)
    requires ConfigOk(c) && TimersOk(c, e) && WithinLimit(c, e, at) && WithinLimit(c, CutDas(c, e, at), at)
    requires Due(e.nextH, at) && c.dcd > 0.0
    ensures ShiftCount(AdvanceTo(c, e, at).actions) > 0
    ensures ShiftCount(AdvanceTo(c, CutDas(c, e, at), at).actions) == 0
  {
    hide AdvanceTo, WithinLimit, ShiftsOk, CellsOk, ShiftsAre, ShiftCount, CellCount;
    var cut := CutDas(c, e, at);
    assert cut.nextH == Some(at + c.dcd) && TimersOk(c, cut);
    TimersAreIndependentClocks(c, e, at);
    ShiftsOnlyWhenDue(c, e, AdvanceTo(c, e, at).engine, ShiftCount(AdvanceTo(c, e, at).actions), at);
    TimersAreIndependentClocks(c, cut, at);
    ShiftsOnlyWhenDue(c, cut, AdvanceTo(c, cut, at).engine, ShiftCount(AdvanceTo(c, cut, at).actions), at);
  }

  lemma RestartingAppends(c: Config, pre: seq<Expanded>, o: Outcome)
    ensures RestartSoftDrop(c, After(pre, o)) == After(pre, RestartSoftDrop(c, o))
  {
  }

  // ---------------------------------------------------------------- without a cut delay

  /** A soft drop cell falls due at exactly this time. */
  ghost predicate Lands(c: Config, e: Engine, at: real) {
    e.nextS.Some? && c.factor.EveryMs? && exists k: nat :: CellTime(c, e, k) == at
  }

  lemma LandingNow(c: Config, e: Engine, at: real)
    requires ConfigOk(c) && e.nextS.Some? && c.factor.EveryMs? && e.nextS.value >= at
    ensures Lands(c, e, at) <==> e.nextS.value == at
  {
    hide Elapsed;
    ElapsedGrows(0, c.factor.interval);
    assert CellTime(c, e, 0) == e.nextS.value;
    forall k: nat ensures CellTime(c, e, k) >= e.nextS.value && (CellTime(c, e, k) == at ==> e.nextS.value == at) {
      ElapsedIsPositive(k, c.factor.interval);
    }
  }

  lemma LandingLater(c: Config, e: Engine, f: Engine, at: real)
    requires e.nextS.Some? && c.factor.EveryMs? && e.nextS.value < at && f.nextS == Later(e.nextS, c.factor.interval)
    ensures Lands(c, e, at) <==> Lands(c, f, at)
  {
    hide Elapsed;
    ElapsedGrows(0, c.factor.interval);
    if Lands(c, e, at) {
      var k: nat :| CellTime(c, e, k) == at;
      assert k > 0;
      ElapsedGrows(k - 1, c.factor.interval);
      assert CellTime(c, f, k - 1) == at;
    }
    if Lands(c, f, at) {
      var k: nat :| CellTime(c, f, k) == at;
      ElapsedGrows(k, c.factor.interval);
      assert CellTime(c, e, k + 1) == at;
    }
  }

  /** A wall shift due at the very end of an advance comes last, or just before a cell of the same instant. */
  ghost predicate WallComesLast(c: Config, e: Engine, at: real, cells: seq<Expanded>, all: seq<Expanded>)
    requires e.active.Some?
  {
    var wall := Shift(e.active.value, true);
    if c.preferSoftDrop || !Lands(c, e, at) then all == cells + [wall]
    else cells != [] && all == cells[..|cells| - 1] + [wall, SoftDropCells(1)] && cells[|cells| - 1] == SoftDropCells(1)
  }

  lemma WallNow(c: Config, e: Engine, at: real, emitted: nat)
    requires ConfigOk(c) && Timed(c, e) && c.arr == 0.0 && e.active.Some? && !Due(e.nextH, at)
    requires e.nextS.Some? ==> e.nextS.value >= at
    requires Drain(c, e.(nextH := Some(at)), at, emitted).emitted < MAX_EMISSIONS
    ensures var d, f := Drain(c, e, at, emitted), Drain(c, e.(nextH := Some(at)), at, emitted);
            && f.engine.(now := at) == d.engine.(nextH := None, charged := true, now := at)
            && WallComesLast(c, e, at, d.actions, f.actions)
  {
    var x := e.(nextH := Some(at));
    assert HorizontalDue(x) && emitted < MAX_EMISSIONS;
    DrainStops(c, Tick(c, x), at, emitted + TickCount(x));
    if e.nextS.Some? {
      LandingNow(c, e, at);
      if e.nextS.value == at {
        DrainStops(c, Tick(c, e), at, emitted + TickCount(e));
        var cells, all := Drain(c, e, at, emitted).actions, Drain(c, x, at, emitted).actions;
        assert cells == [SoftDropCells(1)] && cells[..0] == [];
      }
    }
  }

  lemma CellFirst(c: Config, e: Engine, at: real)
    requires Timed(c, e) && e.nextS.Some? && e.nextS.value < at && !Due(e.nextH, at)
    ensures var x, t := e.(nextH := Some(at)), Tick(c, e);
            && Tick(c, x) == t.(nextH := Some(at)) && TickActions(c, x) == TickActions(c, e) == [SoftDropCells(1)]
            && TickCount(x) == TickCount(e) == 1 && Timed(c, t) && !Due(t.nextH, at) && t.active == e.active
            && t.nextS == Later(e.nextS, c.factor.interval)
            && Due(Earliest(e.nextH, e.nextS), at) && Due(Earliest(x.nextH, x.nextS), at)
  {
  }

  lemma {:induction false} WallAtTheEnd(c: Config, e: Engine, at: real, emitted: nat)
    requires ConfigOk(c) && Timed(c, e) && c.arr == 0.0 && e.active.Some? && !Due(e.nextH, at)
    requires Drain(c, e.(nextH := Some(at)), at, emitted).emitted < MAX_EMISSIONS
    ensures var d, f := Drain(c, e, at, emitted), Drain(c, e.(nextH := Some(at)), at, emitted);
            && f.engine.(now := at) == d.engine.(nextH := None, charged := true, now := at)
            && WallComesLast(c, e, at, d.actions, f.actions)
    decreases MAX_EMISSIONS - emitted
  {
    if e.nextS.None? || e.nextS.value >= at {
      WallNow(c, e, at, emitted);
    } else {
      hide Lands, WallComesLast, Drain;
      var x, t := e.(nextH := Some(at)), Tick(c, e);
      DrainIsSingle(c, x, at, emitted);
      CellFirst(c, e, at);
      DrainUnfolds(c, e, at, emitted);
      DrainUnfolds(c, x, at, emitted);
      WallAtTheEnd(c, t, at, emitted + 1);
      LandingLater(c, e, t, at);
      WallAfterACell(c, e, t, at, Drain(c, t, at, emitted + 1).actions, Drain(c, Tick(c, x), at, emitted + 1).actions);
    }
  }

  lemma WallAfterACell(c: Config, e: Engine, t: Engine, at: real, cells: seq<Expanded>, all: seq<Expanded>)
    requires e.active.Some? && t.active == e.active && (Lands(c, e, at) <==> Lands(c, t, at))
    requires WallComesLast(c, t, at, cells, all)
    ensures WallComesLast(c, e, at, [SoftDropCells(1)] + cells, [SoftDropCells(1)] + all)
  {
    if cells != [] {
      assert ([SoftDropCells(1)] + cells)[..|cells|] == [SoftDropCells(1)] + cells[..|cells| - 1];
    }
  }

  lemma WallAlone(c: Config, e: Engine, at: real)
    requires c.arr == 0.0 && e.active.Some? && e.nextH == Some(at) && !Due(e.nextS, at)
    ensures AdvanceTo(c, e, at)
            == Outcome(e.(nextH := None, charged := true, now := at), [Shift(e.active.value, true)])
  {
    DrainStops(c, Tick(c, e), at, 1);
    DrainUnfolds(c, e, at, 0);
  }

  lemma {:induction false} DueShiftsCharge(c: Config, e: Engine, to: real, emitted: nat)
    requires e.active.Some? && Due(e.nextH, to) && Drain(c, e, to, emitted).emitted < MAX_EMISSIONS
    ensures Drain(c, e, to, emitted).engine.charged
    decreases MAX_EMISSIONS - emitted
  {
    DrainIsSingle(c, e, to, emitted);
    if HorizontalDue(e) {
      ChargeStays(c, Tick(c, e), to, emitted + TickCount(e));
    } else {
      DueShiftsCharge(c, Tick(c, e), to, emitted + TickCount(e));
    }
  }

  /** The engine after the advance of a polled spawn, and what its own advance then does. */
  function Late(c: Config, e: Engine, at: real): Outcome {
    AdvanceTo(c, CutDas(c, AdvanceTo(c, e, at).engine, at), at)
  }

  function Early(c: Config, e: Engine, at: real): Outcome { AdvanceTo(c, CutDas(c, e, at), at) }

  predicate Agree(c: Config, e: Engine, at: real) { Early(c, e, at) == After(AdvanceTo(c, e, at).actions, Late(c, e, at)) }

  /** A difference that nothing afterwards can hide. */
  predicate Disagree(c: Config, e: Engine, at: real) {
    || Early(c, e, at).actions != AdvanceTo(c, e, at).actions + Late(c, e, at).actions
    || Early(c, e, at).engine.nextH != Late(c, e, at).engine.nextH
  }

  /** The shift goes to the wall on every cut. */
  predicate Rewalls(c: Config, e: Engine) { e.charged && c.arr == 0.0 }

  /** Polling just before a spawn changes nothing. */
  ghost predicate PollingIsHarmless(c: Config, e: Engine, at: real) {
    if e.active.None? then true
    else if c.dcd > 0.0 then !Due(e.nextH, at)
    else if Rewalls(c, e) then !Due(e.nextH, at) && (c.preferSoftDrop || !Lands(c, e, at))
    else !Due(e.nextH, at) || (c.arr > 0.0 && e.nextH == Some(at))
  }

  lemma QuietCutsAgree(c: Config, e: Engine, at: real)
    requires CutDas(c, e, at) == e && CutDas(c, AdvanceTo(c, e, at).engine, at) == AdvanceTo(c, e, at).engine
    requires NothingDue(AdvanceTo(c, e, at).engine, at)
    ensures Agree(c, e, at)
  {
    NothingMoreToDrain(c, AdvanceTo(c, e, at).engine, at);
  }

  lemma NothingDueAfter(c: Config, e: Engine, at: real)
    requires WithinLimit(c, e, at)
    ensures NothingDue(AdvanceTo(c, e, at).engine, at)
  {
    DrainEndsAtTheLimit(c, e, at, 0);
  }

  /** With nothing to repeat, or a shift still ahead, a zero cut is no cut. */
  lemma DistantShiftsAgree(c: Config, e: Engine, at: real)
    requires ConfigOk(c) && TimersOk(c, e) && c.dcd == 0.0 && WithinLimit(c, e, at)
    requires e.active.None? || (!Rewalls(c, e) && !Due(e.nextH, at))
    ensures Agree(c, e, at)
  {
    NothingDueAfter(c, e, at);
    DrainKeepsKeys(c, e, at, 0);
    DistantShiftsWait(c, e, e.nextH, at, 0);
    QuietCutsAgree(c, e, at);
  }

  lemma RepeatsAtTheMomentAgree(c: Config, e: Engine, at: real)
    requires ConfigOk(c) && TimersOk(c, e) && c.dcd == 0.0 && WithinLimit(c, e, at)
    requires c.arr > 0.0 && e.nextH == Some(at)
    ensures Agree(c, e, at)
  {
    NothingDueAfter(c, e, at);
    DrainKeepsTheRates(c, e, at, 0);
    QuietCutsAgree(c, e, at);
  }

  /** A wall shift that is not due is repeated by the cut, once in either order. */
  lemma RewallingDecides(c: Config, e: Engine, at: real)
    requires ConfigOk(c) && TimersOk(c, e) && c.dcd == 0.0 && WithinLimit(c, e, at) && WithinLimit(c, CutDas(c, e, at), at)
    requires e.active.Some? && Rewalls(c, e) && !Due(e.nextH, at)
    ensures if c.preferSoftDrop || !Lands(c, e, at) then Agree(c, e, at) else Disagree(c, e, at)
  {
    var polled := AdvanceTo(c, e, at);
    NothingDueAfter(c, e, at);
    DrainKeepsKeys(c, e, at, 0);
    DistantShiftsWait(c, e, e.nextH, at, 0);
    WallAlone(c, CutDas(c, polled.engine, at), at);
    assert CutDas(c, e, at) == e.(nextH := Some(at));
    WallAtTheEnd(c, e, at, 0);
    hide Lands;
    var cells, all, wall := polled.actions, Early(c, e, at).actions, Shift(e.active.value, true);
    assert all == Drain(c, CutDas(c, e, at), at, 0).actions;
    if !c.preferSoftDrop && Lands(c, e, at) {
      assert all[|all| - 1] == SoftDropCells(1) && (cells + [wall])[|cells|] == wall;
    }
  }

  /** How a due shift fares under a zero cut: it fires once, at the spawn. */
  lemma CutFiresOnce(c: Config, e: Engine, at: real)
    requires ConfigOk(c) && TimersOk(c, e) && c.dcd == 0.0 && WithinLimit(c, CutDas(c, e, at), at)
    requires e.active.Some? && Due(e.nextH, at)
    ensures ShiftCount(Early(c, e, at).actions) == 1
    ensures Early(c, e, at).engine.nextH == if c.arr > 0.0 then Some(at + c.arr) else None
  {
    hide Drain, ShiftCount, CellsOk, Elapsed;
    var cut := CutDas(c, e, at);
    assert cut.nextH == Some(at) && Timed(c, cut);
    DrainKeepsTheRates(c, cut, at, 0);
    FiresOnceNow(c, cut, Early(c, e, at).engine, ShiftCount(Early(c, e, at).actions), at);
  }

  lemma FiresOnceNow(c: Config, e: Engine, d: Engine, n: nat, at: real)
    requires ConfigOk(c) && ShiftsOk(c, e, d, n, at) && e.nextH == Some(at)
    ensures n == 1 && d.nextH == if c.arr > 0.0 then Some(at + c.arr) else None
  {
    hide Elapsed;
    if c.arr > 0.0 {
      ElapsedGrows(0, c.arr);
      ShiftsOnlyWhenDue(c, e, d, n, at);
      ElapsedGrows(n - 1, c.arr);
      ElapsedIsPositive(n - 1, c.arr);
    }
  }

  /** After the repeats that were due, a zero cut finds nothing to do. */
  lemma NothingIsLate(c: Config, e: Engine, at: real)
    requires ConfigOk(c) && TimersOk(c, e) && c.dcd == 0.0 && WithinLimit(c, e, at) && c.arr > 0.0
    ensures Late(c, e, at) == Outcome(AdvanceTo(c, e, at).engine, [])
  {
    hide Drain, Consistent;
    var polled := AdvanceTo(c, e, at).engine;
    NothingDueAfter(c, e, at);
    assert polled.now == at;
    assert CutDas(c, polled, at) == polled;
    NothingMoreToDrain(c, polled, at);
  }

  /** A repeating shift that was due before the spawn has fired at its own time. */
  lemma EarlierRepeatsDisagree(c: Config, e: Engine, at: real)
    requires ConfigOk(c) && TimersOk(c, e) && c.dcd == 0.0 && WithinLimit(c, e, at) && WithinLimit(c, CutDas(c, e, at), at)
    requires e.active.Some? && Due(e.nextH, at) && e.nextH.value < at && c.arr > 0.0
    ensures Disagree(c, e, at)
  {
    hide Elapsed, ShiftCount, Late, Drain, WithinLimit, CutDas;
    var polled := AdvanceTo(c, e, at);
    var n := ShiftCount(polled.actions);
    CutFiresOnce(c, e, at);
    NothingIsLate(c, e, at);
    PolledRepeats(c, e, at);
    ElapsedGrows(0, c.arr);
    assert polled.actions + [] == polled.actions;
    if n == 1 {
      assert polled.engine.nextH == Some(e.nextH.value + c.arr);
    }
  }

  lemma PolledRepeats(c: Config, e: Engine, at: real)
    requires ConfigOk(c) && TimersOk(c, e) && WithinLimit(c, e, at) && e.active.Some? && e.nextH.Some?
    ensures var polled := AdvanceTo(c, e, at); ShiftsOk(c, e, polled.engine, ShiftCount(polled.actions), at)
  {
    hide Elapsed, ShiftCount, ShiftsOk, CellsOk;
    TimersAreIndependentClocks(c, e, at);
  }

  /** A wall shift that was due fires once before the cut and once after it. */
  lemma EarlierWallsDisagree(c: Config, e: Engine, at: real)
    requires ConfigOk(c) && TimersOk(c, e) && c.dcd == 0.0 && WithinLimit(c, e, at) && WithinLimit(c, CutDas(c, e, at), at)
    requires e.active.Some? && Due(e.nextH, at) && c.arr == 0.0
    ensures Disagree(c, e, at)
  {
    var polled := AdvanceTo(c, e, at);
    CutFiresOnce(c, e, at);
    DrainKeepsTheRates(c, e, at, 0);
    DueShiftsCharge(c, e, at, 0);
    NothingDueAfter(c, e, at);
    DrainKeepsKeys(c, e, at, 0);
    WallAlone(c, CutDas(c, polled.engine, at), at);
    CountsConcatenate(polled.actions, Late(c, e, at).actions);
    assert ShiftCount(Late(c, e, at).actions) == 1;
  }

  lemma PositiveCutsDecide(c: Config, e: Engine, at: real)
    requires ConfigOk(c) && TimersOk(c, e) && c.dcd > 0.0 && WithinLimit(c, e, at) && WithinLimit(c, CutDas(c, e, at), at)
    ensures if Due(e.nextH, at) then Disagree(c, e, at) else Agree(c, e, at)
  {
    hide CutDas, AdvanceTo, WithinLimit;
    if Due(e.nextH, at) {
      DueShiftIsCut(c, e, at);
      CountsConcatenate(AdvanceTo(c, e, at).actions, Late(c, e, at).actions);
    } else {
      CutThenAdvance(c, e, at);
    }
  }

  lemma CutsDecide(c: Config, e: Engine, at: real)
    requires ConfigOk(c) && TimersOk(c, e) && WithinLimit(c, e, at) && WithinLimit(c, CutDas(c, e, at), at)
    ensures if PollingIsHarmless(c, e, at) then Agree(c, e, at) else Disagree(c, e, at)
  {
    hide CutDas, WithinLimit, Agree, Disagree, Lands;
    if c.dcd > 0.0 {
      PositiveCutsDecide(c, e, at);
    } else if e.active.None? || (!Rewalls(c, e) && !Due(e.nextH, at)) {
      DistantShiftsAgree(c, e, at);
    } else if !Due(e.nextH, at) {
      RewallingDecides(c, e, at);
    } else if c.arr == 0.0 {
      EarlierWallsDisagree(c, e, at);
    } else if e.nextH == Some(at) {
      RepeatsAtTheMomentAgree(c, e, at);
    } else {
      EarlierRepeatsDisagree(c, e, at);
    }
  }

  lemma RestartingHidesNothing(c: Config, o: Outcome, p: Outcome)
    requires o.engine.held == p.engine.held
    requires o.actions != p.actions || o.engine.nextH != p.engine.nextH
    ensures RestartSoftDrop(c, o) != RestartSoftDrop(c, p)
  {
    var a, b := o.actions + [SoftDropToFloor], p.actions + [SoftDropToFloor];
    if a == b {
      assert a[..|a| - 1] == o.actions && b[..|b| - 1] == p.actions;
    }
  }

  /** The outcome of a spawn notice, once its advance is done. */
  function Notified(c: Config, o: Outcome, at: real, automatic: bool): Outcome {
    RestartSoftDrop(c, o.(engine := o.engine.(
      blockedUntil := if automatic && c.safeLock then Some(at + SAFE_LOCK_MS) else None)))
  }

  lemma NotifiedAppends(c: Config, pre: seq<Expanded>, o: Outcome, at: real, automatic: bool)
    ensures Notified(c, After(pre, o), at, automatic) == After(pre, Notified(c, o, at, automatic))
  {
    hide RestartSoftDrop;
    var blocked := if automatic && c.safeLock then Some(at + SAFE_LOCK_MS) else None;
    RestartingAppends(c, pre, o.(engine := o.engine.(blockedUntil := blocked)));
  }

  lemma NoticesFollow(c: Config, e: Engine, at: real, automatic: bool)
    requires Forward(e, at)
    ensures Spawned(c, e, at, automatic).value == Notified(c, Early(c, e, at), at, automatic)
    ensures PolledSpawn(c, e, at, automatic) == Notified(c, After(AdvanceTo(c, e, at).actions, Late(c, e, at)), at, automatic)
  {
    hide Drain, RestartSoftDrop, CutDas;
    NotifiedAppends(c, AdvanceTo(c, e, at).actions, Late(c, e, at), at, automatic);
  }

  lemma CutsStayTimed(c: Config, e: Engine, at: real)
    requires TimersOk(c, e)
    ensures TimersOk(c, CutDas(c, e, at)) && CutDas(c, e, at).held == e.held
  {
  }

  lemma AdvancesStayTimed(c: Config, e: Engine, at: real)
    requires TimersOk(c, e)
    ensures TimersOk(c, AdvanceTo(c, e, at).engine) && AdvanceTo(c, e, at).engine.held == e.held
  {
    DrainKeepsKeys(c, e, at, 0);
  }

  lemma HeldStays(c: Config, e: Engine, at: real)
    requires TimersOk(c, e)
    ensures Early(c, e, at).engine.held == Late(c, e, at).engine.held == e.held
  {
    hide AdvanceTo, CutDas, TimersOk;
    var polled := AdvanceTo(c, e, at).engine;
    AdvancesStayTimed(c, e, at);
    CutsStayTimed(c, e, at);
    CutsStayTimed(c, polled, at);
    AdvancesStayTimed(c, CutDas(c, e, at), at);
    AdvancesStayTimed(c, CutDas(c, polled, at), at);
  }

  /**
   Reporting a spawn cuts the auto shift before the clock advances, so the outcome depends on whether the engine was
   polled just before. With a cut delay it is the same exactly when no shift was due by then. Without one it is the same
   exactly when no shift was due or a repeating shift is due at that very moment, except that a shift to the wall is
   then repeated, and trades places with a soft drop cell of the same instant unless cells go first.
   */
  lemma SpawnsDependOnPollingExactlyWhenAShiftIsDue(c: Config, e: Engine, at: real, automatic: bool)
    requires ConfigOk(c) && Consistent(c, e) && Forward(e, at)
    requires WithinLimit(c, e, at) && WithinLimit(c, CutDas(c, e, at), at)
    ensures PolledSpawn(c, e, at, automatic) == Spawned(c, e, at, automatic).value <==> PollingIsHarmless(c, e, at)
  {
    hide Consistent, RestartSoftDrop, CutDas, AdvanceTo, WithinLimit, PollingIsHarmless, Early, Late, PolledSpawn, Spawned;
    ConsistentTimers(c, e);
    CutsDecide(c, e, at);
    NoticesFollow(c, e, at, automatic);
    HeldStays(c, e, at);
    if Disagree(c, e, at) {
      var blocked := if automatic && c.safeLock then Some(at + SAFE_LOCK_MS) else None;
      var o, p := Early(c, e, at), After(AdvanceTo(c, e, at).actions, Late(c, e, at));
      RestartingHidesNothing(c, o.(engine := o.engine.(blockedUntil := blocked)), p.(engine := p.engine.(blockedUntil := blocked)));
    }
  }

  lemma ConsistentTimers(c: Config, e: Engine)
    requires Consistent(c, e)
    ensures TimersOk(c, e)
  {
  }

  // ---------------------------------------------------------------- a spawn that depends on polling

  /** One direction key, with the shortest delay and repeat rate of the settings and any cut delay. */
  function OneKey(dcd: nat): Config { TwoKeys(10, 1, 10).(dcd := FrameTenthsToMs(dcd)) }

  function KeyPressed(): seq<Call> { [Down(2, false, 0.0)] }

  lemma PressingOne(dcd: nat)
    ensures var c, e := OneKey(dcd), Ran(OneKey(dcd), 0.0, KeyPressed());
            && ConfigOk(c) && e.now == 0.0 && e.active == Some(Right) && !e.charged
            && e.nextS == None && e.nextH == Some(c.das) && c.das == 10.0 * c.arr && c.arr > 0.0
  {
    var c := OneKey(dcd);
    assert KeyPressed()[..0] == [];
    NothingHappensAtZero(c, Start(0.0));
    assert Bound(c, 2) == [MoveRight] && [MoveRight][1..] == [];
  }

  /** A shift that is due once stays within the limit, cut or not. */
  lemma OneShiftIsWithinLimit(c: Config, e: Engine, at: real)
    requires e.active.Some? && e.nextS.None? && c.arr > 0.0 && e.nextH.Some? && at < e.nextH.value + c.arr
    ensures WithinLimit(c, e, at)
  {
    if e.nextH.value <= at {
      assert Tick(c, e).nextH == Some(e.nextH.value + c.arr) && Tick(c, e).nextS.None?;
    }
  }

  /**
   The dependence is real: whatever the cut delay, a direction key held past the shortest delay of the settings makes a
   spawn notice just after it turn out differently when the engine was polled before.
   */
  lemma HeldKeysMakePollingMatter(dcd: nat, automatic: bool)
    ensures var c, e := OneKey(dcd), Ran(OneKey(dcd), 0.0, KeyPressed());
            var at := c.das + c.arr / 2.0;
            && Forward(e, at)
            && PolledSpawn(c, e, at, automatic) != Spawned(c, e, at, automatic).value
  {
    var c, e := OneKey(dcd), Ran(OneKey(dcd), 0.0, KeyPressed());
    hide OneKey, Ran, WithinLimit, PolledSpawn, Spawned, Consistent;
    PressingOne(dcd);
    var at := c.das + c.arr / 2.0;
    RunsStayConsistent(c, 0.0, KeyPressed());
    OneShiftIsWithinLimit(c, e, at);
    OneShiftIsWithinLimit(c, CutDas(c, e, at), at);
    SpawnsDependOnPollingExactlyWhenAShiftIsDue(c, e, at, automatic);
    assert !PollingIsHarmless(c, e, at);
  }
}

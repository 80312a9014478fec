/**
 The fixed-step loop: frames are paced by integer arithmetic on a monotone clock, pauses shift the epoch, and a
 generation number lets at most one wake-up take effect. Clock readings, step outcomes and what a step does to
 the loop from inside are inputs.
 */
module FixedSteps {
  import opened Wrappers

  const SECOND: int := 1_000_000_000
  const MILLISECOND: int := 1_000_000
  const MAX_SAFE: int := 9_007_199_254_740_991

  datatype LoopState = Idle | Running | Paused | Stopped | Closed

  /** A completed frame, with the clock reading and the epoch its batch was sized by. */
  datatype Completed = Completed(frame: nat, now: int, epoch: int)

  /** `wakes` are the scheduled callbacks that have not fired, by generation, with the time each was set for. */
  datatype Loop = Loop(
    rate: int,
    maxCatchUp: int,
    state: LoopState,
    frame: nat,
    epoch: int,
    lastNow: int,
    pausedAt: int,
    generation: nat,
    wakes: map<nat, int>,
    overloaded: bool,
    completed: seq<Completed>)

  predicate RateOk(l: Loop) { l.rate >= 1 && l.maxCatchUp >= 1 }

  function NewLoop(rate: int, maxCatchUp: int): Loop { Loop(rate, maxCatchUp, Idle, 0, 0, 0, 0, 0, map[], false, []) }

  // ---------------------------------------------------------------- pacing

  /** Integer division as the code has it: towards zero. */
  function Quotient(a: int, b: int): int
    requires b >= 1
  {
    if a >= 0 then a / b else -((-a) / b)
  }

  function CeilDivide(a: int, b: int): int
    requires b >= 1
  {
    Quotient(a + b - 1, b)
  }

  /** The frame the clock has reached; beyond the safe range there is none. */
  function TargetFrame(l: Loop, now: int): Option<int>
    requires RateOk(l)
  {
    var frame := Quotient((now - l.epoch) * l.rate, SECOND);
    if frame > MAX_SAFE then None else Some(frame)
  }

  /** When a frame falls due. */
  function Deadline(l: Loop, frame: int): int
    requires RateOk(l)
  {
    l.epoch + CeilDivide(frame * SECOND, l.rate)
  }

  lemma DivideReaches(a: int, b: int, k: int)
    requires a >= 0 && b >= 1
    ensures a / b >= k <==> a >= k * b
  {
    var q, r := a / b, a % b;
    assert a == q * b + r && 0 <= r < b;
    if q >= k {
      assert (q - k) * b >= 0;
    } else {
      assert (k - q - 1) * b >= 0;
      assert k * b == (k - q - 1) * b + q * b + b;
    }
  }

  lemma CeilReaches(a: int, b: int, t: int)
    requires a >= 0 && b >= 1
    ensures t >= CeilDivide(a, b) <==> t * b >= a
  {
    var top := a + b - 1;
    DivideReaches(top, b, t + 1);
    assert (t + 1) * b == t * b + b;
  }

  /**
   Pacing: the floor-based target reaches a frame exactly from its ceiling-based deadline on, so the deadline is the
   first instant at which the frame is due.
   */
  lemma TargetReachesAtTheDeadline(l: Loop, now: int, k: nat)
    requires RateOk(l) && now >= l.epoch && TargetFrame(l, now).Some?
    ensures TargetFrame(l, now).value >= k <==> now >= Deadline(l, k)
  {
    hide TargetFrame, CeilDivide, Quotient;
    TargetIsQuotient(l, now);
    DivideReaches((now - l.epoch) * l.rate, SECOND, k);
    CeilReaches(k * SECOND, l.rate, now - l.epoch);
  }

  lemma TargetIsQuotient(l: Loop, now: int)
    requires RateOk(l) && now >= l.epoch && TargetFrame(l, now).Some?
    ensures (now - l.epoch) * l.rate >= 0
    ensures TargetFrame(l, now).value == ((now - l.epoch) * l.rate) / SECOND
  {
    assert (now - l.epoch) * l.rate >= 0;
  }

  // ---------------------------------------------------------------- scheduling

  /** `Err` holds the loop at the moment an error is raised. */
  function Schedule(l: Loop, now: int, delayMs: int, accepted: bool): Result<Loop, Loop> {
    if !l.state.Running? then Ok(l)
    else
      var next := l.(generation := l.generation + 1);
      if !accepted then Err(next) else Ok(next.(wakes := next.wakes[next.generation := now + delayMs * MILLISECOND]))
  }

  function DelayMs(l: Loop, now: int): int
    requires RateOk(l)
  {
    var deadline := Deadline(l, l.frame + 1);
    CeilDivide(if deadline > now then deadline - now else 0, MILLISECOND)
  }

  function ScheduleNext(l: Loop, now: int, target: int, accepted: bool): Result<Loop, Loop>
    requires RateOk(l)
  {
    Schedule(l, now, if target > l.frame then 0 else DelayMs(l, now), accepted)
  }

  /** A wake-up for the next frame lands on its deadline or less than a millisecond after it. */
  lemma WakesLandOnTheDeadline(l: Loop, now: int)
    requires RateOk(l)
    ensures var wake, deadline := now + DelayMs(l, now) * MILLISECOND, Deadline(l, l.frame + 1);
            if deadline > now then deadline <= wake < deadline + MILLISECOND else wake == now
  {
    var deadline := Deadline(l, l.frame + 1);
    if deadline > now {
      var remaining := deadline - now;
      CeilReaches(remaining, MILLISECOND, DelayMs(l, now));
      CeilReaches(remaining, MILLISECOND, DelayMs(l, now) - 1);
    }
  }

  function CancelWake(l: Loop): Loop { l.(generation := l.generation + 1) }

  function Halt(l: Loop): Loop {
    if l.state.Closed? || l.state.Stopped? then l else CancelWake(l.(state := Stopped))
  }

  function ReadNow(l: Loop, now: int): Result<Loop, Loop> {
    if now < 0 || now < l.lastNow then Err(l) else Ok(l.(lastNow := now))
  }

  function OrHalt(r: Result<Loop, Loop>): Loop {
    match r
    case Ok(l) => l
    case Err(l) => Halt(l)
  }

  // ---------------------------------------------------------------- controls

  function Start(l: Loop, now: int, accepted: bool): Loop
    requires RateOk(l)
  {
    if !l.state.Idle? then l
    else match ReadNow(l, now)
      case Err(t) => Halt(t)
      case Ok(t) => OrHalt(ScheduleNext(t.(epoch := now, state := Running), now, 0, accepted))
  }

  function Pause(l: Loop, now: int): Loop {
    if !l.state.Running? then l
    else match ReadNow(l, now)
      case Err(t) => Halt(t)
      case Ok(t) => CancelWake(t.(pausedAt := now, state := Paused))
  }

  function Resume(l: Loop, now: int, accepted: bool): Loop
    requires RateOk(l)
  {
    if !l.state.Paused? then l
    else match ReadNow(l, now)
      case Err(t) => Halt(t)
      case Ok(t) =>
        OrHalt(ScheduleNext(t.(epoch := t.epoch + (now - t.pausedAt), state := Running), now, t.frame, accepted))
  }

  function Close(l: Loop): Loop { if l.state.Closed? then l else CancelWake(l.(state := Closed)) }

  datatype Control = DoStart(now: int, accepted: bool) | DoPause(now: int) | DoResume(now: int, accepted: bool) | DoClose

  function Apply(l: Loop, c: Control): Loop
    requires RateOk(l)
  {
    match c
    case DoStart(now, accepted) => Start(l, now, accepted)
    case DoPause(now) => Pause(l, now)
    case DoResume(now, accepted) => Resume(l, now, accepted)
    case DoClose => Close(l)
  }

  lemma ApplyKeepsRate(l: Loop, c: Control)
    requires RateOk(l)
    ensures Apply(l, c).rate == l.rate && Apply(l, c).maxCatchUp == l.maxCatchUp
    ensures Apply(l, c).frame == l.frame && Apply(l, c).completed == l.completed
  {
  }

  function ApplyAll(l: Loop, cs: seq<Control>): (t: Loop)
    requires RateOk(l)
    ensures RateOk(t) && t.frame == l.frame && t.completed == l.completed && t.rate == l.rate
    decreases |cs|
  {
    if cs == [] then l
    else
      ApplyKeepsRate(l, cs[0]);
      ApplyAll(Apply(l, cs[0]), cs[1..])
  }

  // ---------------------------------------------------------------- the pump

  /** What one step did: the controls it called on the loop, and whether it raised an error, retryable or not. */
  datatype StepOutcome = StepOutcome(controls: seq<Control>, failure: Option<Failure>)

  datatype Failure = Retry | Stop

  function UpdateOverload(l: Loop, behind: int): Loop {
    if !l.overloaded && behind <= l.maxCatchUp then l
    else if l.overloaded && behind != 0 then l
    else l.(overloaded := !l.overloaded)
  }

  function OutcomeAt(outcomes: seq<StepOutcome>, k: nat): StepOutcome {
    if k < |outcomes| then outcomes[k] else StepOutcome([], None)
  }

  /** `Ran` goes on after the batch, `Left` returned from within it, and `Raised` raised an error. */
  datatype BatchEnd = Ran(loop: Loop) | Left(loop: Loop) | Raised(loop: Loop)

  /** Steps `k` up to `n` of a batch sized at the reading `now` under the epoch `epoch`. */
  function Batch(l: Loop, now: int, epoch: int, outcomes: seq<StepOutcome>, k: nat, n: int, accepted: bool): BatchEnd
    requires RateOk(l)
    decreases n - k
  {
    if k >= n then Ran(l)
    else if !l.state.Running? then Left(l)
    else
      var attempted := l.frame + 1;
      var outcome := OutcomeAt(outcomes, k);
      var stepped := ApplyAll(l, outcome.controls);
      match outcome.failure
      case None =>
        Batch(stepped.(frame := attempted, completed := stepped.completed + [Completed(attempted, now, epoch)]),
              now, epoch, outcomes, k + 1, n, accepted)
      case Some(Stop) => Left(Halt(stepped))
      case Some(Retry) =>
        match Schedule(stepped, now, 0, accepted)
        case Ok(t) => Left(t)
        case Err(t) => Raised(t)
  }

  function Lesser(a: int, b: int): int { if a <= b then a else b }

  /** The end of a pump: the overload flag once more, and the next wake-up. */
  function Wind(l: Loop, after: int, accepted: bool): Loop
    requires RateOk(l)
  {
    match ReadNow(l, after)
    case Err(t) => Halt(t)
    case Ok(t) =>
      match TargetFrame(t, after)
      case None => Halt(t)
      case Some(target) => OrHalt(ScheduleNext(UpdateOverload(t, target - t.frame), after, target, accepted))
  }

  lemma BatchKeepsRate(l: Loop, now: int, epoch: int, outcomes: seq<StepOutcome>, k: nat, n: int, accepted: bool)
    requires RateOk(l)
    ensures RateOk(Batch(l, now, epoch, outcomes, k, n, accepted).loop)
    decreases n - k
  {
    if k < n && l.state.Running? && OutcomeAt(outcomes, k).failure.None? {
      var stepped := ApplyAll(l, OutcomeAt(outcomes, k).controls);
      BatchKeepsRate(stepped.(frame := l.frame + 1, completed := stepped.completed + [Completed(l.frame + 1, now, epoch)]),
                     now, epoch, outcomes, k + 1, n, accepted);
    }
  }

  function RunBatch(l: Loop, now: int, target: int, outcomes: seq<StepOutcome>, after: int, accepted: bool): Loop
    requires RateOk(l)
  {
    var sized := UpdateOverload(l, target - l.frame);
    BatchKeepsRate(sized, now, l.epoch, outcomes, 0, Lesser(target - l.frame, l.maxCatchUp), accepted);
    match Batch(sized, now, l.epoch, outcomes, 0, Lesser(target - l.frame, l.maxCatchUp), accepted)
    case Left(t) => t
    case Raised(t) => Halt(t)
    case Ran(t) => Wind(t, after, accepted)
  }

  /** A wake-up fires: only the one of the current generation, in a running loop, takes effect. */
  function Fire(l: Loop, generation: nat, now: int, outcomes: seq<StepOutcome>, after: int, accepted: bool): Loop
    requires RateOk(l)
  {
    var fired := l.(wakes := l.wakes - {generation});
    if generation !in l.wakes || !l.state.Running? || generation != l.generation then fired
    else match ReadNow(fired, now)
      case Err(t) => Halt(t)
      case Ok(t) =>
        match TargetFrame(t, now)
        case None => Halt(t)
        case Some(target) => RunBatch(t, now, target, outcomes, after, accepted)
  }

  // ---------------------------------------------------------------- what every event keeps

  /** The `i`-th completed frame is frame `i + 1`, and it was due at its batch's reading. */
  predicate CompletedOk(l: Loop)
    requires RateOk(l)
  {
    && |l.completed| == l.frame
    && forall i | 0 <= i < |l.completed| :: FrameOk(l.completed[i], i, l.rate)
  }

  predicate FrameOk(c: Completed, i: nat, rate: int)
    requires rate >= 1
  {
    c.frame == i + 1 && c.now >= c.epoch + CeilDivide(c.frame * SECOND, rate)
  }

  /** The clock and the epoch keep their order. */
  predicate ClockOk(l: Loop) {
    && l.lastNow >= 0
    && (l.state.Running? ==> l.epoch <= l.lastNow)
    && (l.state.Paused? ==> l.epoch <= l.pausedAt <= l.lastNow)
    && (forall g | g in l.wakes :: g <= l.generation)
  }

  /** A running loop has exactly one wake-up that can take effect; any other has none. */
  predicate WakeOk(l: Loop) { l.state.Running? ==> l.generation in l.wakes }

  predicate LoopOk(l: Loop) { RateOk(l) && CompletedOk(l) && ClockOk(l) && WakeOk(l) }

  lemma ApplyKeepsClock(l: Loop, c: Control)
    requires RateOk(l) && ClockOk(l)
    ensures ClockOk(Apply(l, c)) && (WakeOk(l) ==> WakeOk(Apply(l, c)))
  {
  }

  /** Controls called while a wake is being handled leave the loop either awake again or not running, or untouched. */
  lemma {:induction false} ControlsKeepClock(l: Loop, cs: seq<Control>)
    requires RateOk(l) && ClockOk(l)
    ensures ClockOk(ApplyAll(l, cs))
    ensures WakeOk(l) ==> WakeOk(ApplyAll(l, cs))
    decreases |cs|
  {
    if cs != [] {
      ApplyKeepsRate(l, cs[0]);
      ApplyKeepsClock(l, cs[0]);
      ControlsKeepClock(Apply(l, cs[0]), cs[1..]);
    }
  }

  lemma DueFramesAreDue(l: Loop, now: int, target: int, frame: nat)
    requires RateOk(l) && now >= l.epoch && TargetFrame(l, now) == Some(target) && frame <= target
    ensures now >= l.epoch + CeilDivide(frame * SECOND, l.rate)
  {
    TargetReachesAtTheDeadline(l, now, frame);
  }

  /** Every frame up to `target` was due at a reading under an epoch. */
  ghost predicate DueBy(now: int, epoch: int, rate: int, target: int)
    requires rate >= 1
  {
    forall f: nat {:trigger CeilDivide(f * SECOND, rate)} | f <= target :: now >= epoch + CeilDivide(f * SECOND, rate)
  }

  lemma {:induction false} BatchKeepsFrames(
    l: Loop, now: int, epoch: int, outcomes: seq<StepOutcome>, k: nat, n: int, accepted: bool, target: int)
    requires RateOk(l) && CompletedOk(l) && ClockOk(l) && DueBy(now, epoch, l.rate, target)
    requires k <= n ==> l.frame + (n - k) <= target
    ensures var t := Batch(l, now, epoch, outcomes, k, n, accepted).loop;
            RateOk(t) && CompletedOk(t) && ClockOk(t)
    ensures Batch(l, now, epoch, outcomes, k, n, accepted).Left? ==>
              WakeOk(Batch(l, now, epoch, outcomes, k, n, accepted).loop)
    decreases n - k
  {
    if k < n && l.state.Running? {
      var outcome := OutcomeAt(outcomes, k);
      var stepped := ApplyAll(l, outcome.controls);
      ControlsKeepClock(l, outcome.controls);
      if outcome.failure.None? {
        CompletingKeepsFrames(l, stepped, now, epoch, target);
        BatchKeepsFrames(stepped.(frame := l.frame + 1, completed := stepped.completed + [Completed(l.frame + 1, now, epoch)]),
                         now, epoch, outcomes, k + 1, n, accepted, target);
      }
    }
  }

  lemma CompletingKeepsFrames(l: Loop, stepped: Loop, now: int, epoch: int, target: int)
    requires RateOk(l) && CompletedOk(l) && RateOk(stepped) && ClockOk(stepped) && DueBy(now, epoch, l.rate, target)
    requires stepped.frame == l.frame && stepped.completed == l.completed && stepped.rate == l.rate && l.frame + 1 <= target
    ensures var t := stepped.(frame := l.frame + 1, completed := stepped.completed + [Completed(l.frame + 1, now, epoch)]);
            RateOk(t) && CompletedOk(t) && ClockOk(t)
  {
    assert now >= epoch + CeilDivide((l.frame + 1) * SECOND, l.rate);
  }

  lemma WindKeepsOk(l: Loop, after: int, accepted: bool)
    requires RateOk(l) && CompletedOk(l) && ClockOk(l)
    ensures LoopOk(Wind(l, after, accepted))
  {
    hide DelayMs, CeilDivide, Quotient, TargetFrame;
    hide FrameOk;
  }

  lemma TargetsAreDue(l: Loop, now: int, target: int)
    requires RateOk(l) && now >= l.epoch && TargetFrame(l, now) == Some(target)
    ensures DueBy(now, l.epoch, l.rate, target)
  {
    forall f: nat | f <= target ensures now >= l.epoch + CeilDivide(f * SECOND, l.rate) {
      DueFramesAreDue(l, now, target, f);
    }
  }

  lemma SizingKeepsFrames(l: Loop, behind: int)
    requires RateOk(l) && CompletedOk(l) && ClockOk(l)
    ensures var t := UpdateOverload(l, behind);
            && RateOk(t) && CompletedOk(t) && ClockOk(t) && t.frame == l.frame && t.rate == l.rate && t.maxCatchUp == l.maxCatchUp
  {
  }

  lemma RunBatchKeepsOk(l: Loop, now: int, target: int, outcomes: seq<StepOutcome>, after: int, accepted: bool)
    requires RateOk(l) && CompletedOk(l) && ClockOk(l) && now >= l.epoch && TargetFrame(l, now) == Some(target)
    ensures LoopOk(RunBatch(l, now, target, outcomes, after, accepted))
  {
    hide CompletedOk, ClockOk, Batch, Wind, DueBy, TargetFrame;
    var sized := UpdateOverload(l, target - l.frame);
    var n := Lesser(target - l.frame, l.maxCatchUp);
    SizingKeepsFrames(l, target - l.frame);
    TargetsAreDue(l, now, target);
    BatchKeepsFrames(sized, now, l.epoch, outcomes, 0, n, accepted, target);
    var end := Batch(sized, now, l.epoch, outcomes, 0, n, accepted);
    WindKeepsOk(end.loop, after, accepted);
    HaltIsOk(end.loop);
  }

  lemma HaltIsOk(l: Loop)
    requires RateOk(l) && CompletedOk(l) && ClockOk(l)
    ensures LoopOk(Halt(l))
  {
  }

  lemma FiredKeepsClock(l: Loop, generation: nat, now: int)
    requires LoopOk(l)
    ensures var fired := l.(wakes := l.wakes - {generation});
            && RateOk(fired) && CompletedOk(fired) && ClockOk(fired)
            && (generation !in l.wakes || !l.state.Running? || generation != l.generation ==> WakeOk(fired))
            && (ReadNow(fired, now).Ok? ==>
                  var t := ReadNow(fired, now).value;
                  RateOk(t) && CompletedOk(t) && ClockOk(t) && (l.state.Running? ==> now >= t.epoch))
  {
  }

  lemma FireKeepsOk(l: Loop, generation: nat, now: int, outcomes: seq<StepOutcome>, after: int, accepted: bool)
    requires LoopOk(l)
    ensures LoopOk(Fire(l, generation, now, outcomes, after, accepted))
  {
    hide CompletedOk, ClockOk, RunBatch, TargetFrame, WakeOk;
    var fired := l.(wakes := l.wakes - {generation});
    FiredKeepsClock(l, generation, now);
    HaltIsOk(fired);
    if ReadNow(fired, now).Ok? {
      var t := ReadNow(fired, now).value;
      HaltIsOk(t);
      if l.state.Running? && TargetFrame(t, now).Some? {
        RunBatchKeepsOk(t, now, TargetFrame(t, now).value, outcomes, after, accepted);
      }
    }
  }

  // ---------------------------------------------------------------- runs

  datatype Event =
    | Ask(control: Control)
    | Wake(generation: nat, now: int, outcomes: seq<StepOutcome>, after: int, accepted: bool)

  function Take(l: Loop, e: Event): Loop
    requires RateOk(l)
  {
    match e
    case Ask(c) => Apply(l, c)
    case Wake(generation, now, outcomes, after, accepted) => Fire(l, generation, now, outcomes, after, accepted)
  }

  lemma EventKeepsOk(l: Loop, e: Event)
    requires LoopOk(l)
    ensures LoopOk(Take(l, e))
  {
    match e
    case Ask(c) =>
      ApplyKeepsRate(l, c);
      ApplyKeepsClock(l, c);
    case Wake(generation, now, outcomes, after, accepted) => FireKeepsOk(l, generation, now, outcomes, after, accepted);
  }

  function Run(rate: int, maxCatchUp: int, events: seq<Event>): (l: Loop)
    requires rate >= 1 && maxCatchUp >= 1
    ensures LoopOk(l)
    decreases |events|
  {
    if events == [] then NewLoop(rate, maxCatchUp)
    else
      var before := Run(rate, maxCatchUp, events[..|events| - 1]);
      EventKeepsOk(before, events[|events| - 1]);
      Take(before, events[|events| - 1])
  }

  /**
   The pace of a run: whatever the clock, the scheduler, the steps and the callers do, the completed frames are
   1, 2, 3, … without a gap, none before its deadline under the epoch its batch was sized by; and a running loop always
   has a wake-up on its way that will take effect, so it never sleeps, while any other loop has none.
   */
  lemma FramesAreConsecutiveAndNeverEarly(rate: int, maxCatchUp: int, events: seq<Event>)
    requires rate >= 1 && maxCatchUp >= 1
    ensures var l := Run(rate, maxCatchUp, events);
            && |l.completed| == l.frame
            && (forall i | 0 <= i < |l.completed| ::
                  l.completed[i].frame == i + 1
                  && l.completed[i].now >= l.completed[i].epoch + CeilDivide((i + 1) * SECOND, l.rate))
            && (l.state.Running? <==> exists g :: g in l.wakes && Effective(l, g))
  {
    hide CeilDivide, Take;
    var l := Run(rate, maxCatchUp, events);
    assert forall i | 0 <= i < |l.completed| :: FrameOk(l.completed[i], i, l.rate);
    if l.state.Running? {
      assert l.generation in l.wakes && Effective(l, l.generation);
    }
  }

  /** Would this wake-up do anything if it fired now? */
  predicate Effective(l: Loop, generation: nat) { l.state.Running? && generation == l.generation }

  // ---------------------------------------------------------------- wake-ups take effect at most once

  /** No generation is given out again, a loop that has stopped running has cancelled its last one, and the rate stays. */
  predicate Moves(l: Loop, t: Loop) {
    && t.generation >= l.generation && t.rate == l.rate
    && (l.state.Running? && !t.state.Running? ==> t.generation > l.generation)
  }

  lemma ControlMoves(l: Loop, c: Control)
    requires RateOk(l)
    ensures Moves(l, Apply(l, c))
  {
  }

  lemma {:induction false} ControlsMove(l: Loop, cs: seq<Control>)
    requires RateOk(l)
    ensures Moves(l, ApplyAll(l, cs))
    decreases |cs|
  {
    if cs != [] {
      ApplyKeepsRate(l, cs[0]);
      ControlMoves(l, cs[0]);
      ControlsMove(Apply(l, cs[0]), cs[1..]);
    }
  }

  lemma {:induction false} BatchMoves(l: Loop, now: int, epoch: int, outcomes: seq<StepOutcome>, k: nat, n: int, accepted: bool)
    requires RateOk(l)
    ensures var end := Batch(l, now, epoch, outcomes, k, n, accepted);
            && Moves(l, end.loop)
            && (!end.Ran? && l.state.Running? ==> end.loop.generation > l.generation)
    decreases n - k
  {
    if k < n && l.state.Running? {
      var stepped := ApplyAll(l, OutcomeAt(outcomes, k).controls);
      ControlsMove(l, OutcomeAt(outcomes, k).controls);
      if OutcomeAt(outcomes, k).failure.None? {
        BatchMoves(stepped.(frame := l.frame + 1, completed := stepped.completed + [Completed(l.frame + 1, now, epoch)]),
                   now, epoch, outcomes, k + 1, n, accepted);
      }
    }
  }

  lemma WindMoves(l: Loop, after: int, accepted: bool)
    requires RateOk(l)
    ensures Moves(l, Wind(l, after, accepted))
    ensures l.state.Running? ==> Wind(l, after, accepted).generation > l.generation
  {
    hide TargetFrame, DelayMs;
  }

  /** A wake-up that takes effect leaves its own generation behind. */
  lemma FireMoves(l: Loop, generation: nat, now: int, outcomes: seq<StepOutcome>, after: int, accepted: bool)
    requires RateOk(l)
    ensures var t := Fire(l, generation, now, outcomes, after, accepted);
            && Moves(l, t)
            && (generation in l.wakes && Effective(l, generation) ==> t.generation > l.generation)
  {
    hide TargetFrame, Batch, Wind;
    var fired := l.(wakes := l.wakes - {generation});
    if generation in l.wakes && Effective(l, generation) && ReadNow(fired, now).Ok? {
      var t := ReadNow(fired, now).value;
      if TargetFrame(t, now).Some? {
        var target := TargetFrame(t, now).value;
        var sized := UpdateOverload(t, target - t.frame);
        var n := Lesser(target - t.frame, t.maxCatchUp);
        BatchKeepsRate(sized, now, t.epoch, outcomes, 0, n, accepted);
        BatchMoves(sized, now, t.epoch, outcomes, 0, n, accepted);
        WindMoves(Batch(sized, now, t.epoch, outcomes, 0, n, accepted).loop, after, accepted);
      }
    }
  }

  lemma EventMoves(l: Loop, e: Event)
    requires RateOk(l)
    ensures Moves(l, Take(l, e))
  {
    match e
    case Ask(c) => ControlMoves(l, c);
    case Wake(generation, now, outcomes, after, accepted) => FireMoves(l, generation, now, outcomes, after, accepted);
  }

  lemma {:induction false} GenerationsRise(rate: int, maxCatchUp: int, events: seq<Event>, m: nat)
    requires rate >= 1 && maxCatchUp >= 1 && m <= |events|
    ensures Run(rate, maxCatchUp, events[..m]).generation <= Run(rate, maxCatchUp, events).generation
    decreases |events|
  {
    if m == |events| {
      assert events[..m] == events;
    } else {
      var before := events[..|events| - 1];
      assert before[..m] == events[..m];
      GenerationsRise(rate, maxCatchUp, before, m);
      EventMoves(Run(rate, maxCatchUp, before), events[|events| - 1]);
    }
  }

  /** The event is a wake-up that takes effect. */
  predicate TakesEffect(l: Loop, e: Event) { e.Wake? && e.generation in l.wakes && Effective(l, e.generation) }

  lemma OneMoreEvent(rate: int, maxCatchUp: int, events: seq<Event>, i: nat)
    requires rate >= 1 && maxCatchUp >= 1 && i < |events|
    ensures Run(rate, maxCatchUp, events[..i + 1]) == Take(Run(rate, maxCatchUp, events[..i]), events[i])
  {
    hide Take, CompletedOk, ClockOk, WakeOk;
    assert events[..i + 1][..i] == events[..i];
  }

  lemma EffectsMove(rate: int, maxCatchUp: int, events: seq<Event>, i: nat)
    requires rate >= 1 && maxCatchUp >= 1 && i < |events|
    requires TakesEffect(Run(rate, maxCatchUp, events[..i]), events[i])
    ensures Run(rate, maxCatchUp, events[..i + 1]).generation > events[i].generation
  {
    hide Fire, Moves, CompletedOk, ClockOk;
    var l := Run(rate, maxCatchUp, events[..i]);
    OneMoreEvent(rate, maxCatchUp, events, i);
    FireMoves(l, events[i].generation, events[i].now, events[i].outcomes, events[i].after, events[i].accepted);
  }

  lemma StaleWakesDoNothing(l: Loop, e: Event)
    requires RateOk(l) && e.Wake? && !Effective(l, e.generation)
    ensures Take(l, e) == l.(wakes := l.wakes - {e.generation})
  {
  }

  /**
   Once only: along any run the wake-ups that take effect have strictly rising generations, so none does so twice; and
   from then on a wake-up of that generation or an older one changes nothing but its own record, however often and
   whenever it fires.
   */
  lemma WakesTakeEffectOnce(rate: int, maxCatchUp: int, events: seq<Event>, i: nat, j: nat)
    requires rate >= 1 && maxCatchUp >= 1 && i < j < |events| && events[j].Wake?
    requires TakesEffect(Run(rate, maxCatchUp, events[..i]), events[i])
    ensures TakesEffect(Run(rate, maxCatchUp, events[..j]), events[j]) ==> events[i].generation < events[j].generation
    ensures events[j].generation <= events[i].generation ==>
              var l := Run(rate, maxCatchUp, events[..j]);
              Run(rate, maxCatchUp, events[..j + 1]) == l.(wakes := l.wakes - {events[j].generation})
  {
    hide Fire, CompletedOk, ClockOk, WakeOk;
    EffectsMove(rate, maxCatchUp, events, i);
    GenerationsRise(rate, maxCatchUp, events[..j], i + 1);
    assert events[..j][..i + 1] == events[..i + 1];
    var l := Run(rate, maxCatchUp, events[..j]);
    if events[j].generation <= events[i].generation {
      StaleWakesDoNothing(l, events[j]);
      OneMoreEvent(rate, maxCatchUp, events, j);
    }
  }

  // ---------------------------------------------------------------- pauses over a run

  /** The time a control takes out of the count: a resume, since the pause it ends. */
  function PauseEnded(l: Loop, c: Control): int {
    match c
    case DoResume(now, _) => if l.state.Paused? && ReadNow(l, now).Ok? then now - l.pausedAt else 0
    case _ => 0
  }

  function PausesEnded(l: Loop, cs: seq<Control>): int
    requires RateOk(l)
    decreases |cs|
  {
    if cs == [] then 0
    else
      ApplyKeepsRate(l, cs[0]);
      PauseEnded(l, cs[0]) + PausesEnded(Apply(l, cs[0]), cs[1..])
  }

  function PausedInBatch(l: Loop, now: int, epoch: int, outcomes: seq<StepOutcome>, k: nat, n: int): int
    requires RateOk(l)
    decreases n - k
  {
    if k >= n || !l.state.Running? then 0
    else
      var outcome := OutcomeAt(outcomes, k);
      var stepped := ApplyAll(l, outcome.controls);
      PausesEnded(l, outcome.controls)
      + (if outcome.failure.Some? then 0
         else PausedInBatch(stepped.(frame := l.frame + 1, completed := stepped.completed + [Completed(l.frame + 1, now, epoch)]),
                            now, epoch, outcomes, k + 1, n))
  }

  function PausedInEvent(l: Loop, e: Event): int
    requires RateOk(l)
  {
    match e
    case Ask(c) => PauseEnded(l, c)
    case Wake(generation, now, outcomes, _, _) =>
      var t := l.(wakes := l.wakes - {generation}, lastNow := now);
      if !TakesEffect(l, e) || ReadNow(l, now).Err? || TargetFrame(t, now).None? then 0
      else
        var target := TargetFrame(t, now).value;
        PausedInBatch(UpdateOverload(t, target - t.frame), now, t.epoch, outcomes, 0, Lesser(target - t.frame, t.maxCatchUp))
  }

  /** The time the pauses of a run have taken altogether, those called from inside a step included. */
  function PausedFor(rate: int, maxCatchUp: int, events: seq<Event>): int
    requires rate >= 1 && maxCatchUp >= 1
  {
    if events == [] then 0
    else
      PausedFor(rate, maxCatchUp, events[..|events| - 1])
      + PausedInEvent(Run(rate, maxCatchUp, events[..|events| - 1]), events[|events| - 1])
  }

  predicate Starts(l: Loop, e: Event) { e.Ask? && e.control.DoStart? && l.state.Idle? && ReadNow(l, e.control.now).Ok? }

  /** When the loop was started. */
  function StartedAt(rate: int, maxCatchUp: int, events: seq<Event>): int
    requires rate >= 1 && maxCatchUp >= 1
  {
    if events == [] then 0
    else
      var l, e := Run(rate, maxCatchUp, events[..|events| - 1]), events[|events| - 1];
      if Starts(l, e) then e.control.now
      else StartedAt(rate, maxCatchUp, events[..|events| - 1])
  }

  lemma ControlShifts(l: Loop, c: Control)
    requires RateOk(l) && !l.state.Idle?
    ensures Apply(l, c).epoch == l.epoch + PauseEnded(l, c) && !Apply(l, c).state.Idle?
  {
    hide TargetFrame, DelayMs;
  }

  lemma {:induction false} ControlsShift(l: Loop, cs: seq<Control>)
    requires RateOk(l) && !l.state.Idle?
    ensures ApplyAll(l, cs).epoch == l.epoch + PausesEnded(l, cs) && !ApplyAll(l, cs).state.Idle?
    decreases |cs|
  {
    if cs != [] {
      ApplyKeepsRate(l, cs[0]);
      ControlShifts(l, cs[0]);
      ControlsShift(Apply(l, cs[0]), cs[1..]);
    }
  }

  lemma {:induction false} BatchShifts(l: Loop, now: int, epoch: int, outcomes: seq<StepOutcome>, k: nat, n: int, accepted: bool)
    requires RateOk(l) && !l.state.Idle?
    ensures var t := Batch(l, now, epoch, outcomes, k, n, accepted).loop;
            t.epoch == l.epoch + PausedInBatch(l, now, epoch, outcomes, k, n) && !t.state.Idle?
    decreases n - k
  {
    if k < n && l.state.Running? {
      var stepped := ApplyAll(l, OutcomeAt(outcomes, k).controls);
      ControlsShift(l, OutcomeAt(outcomes, k).controls);
      if OutcomeAt(outcomes, k).failure.None? {
        BatchShifts(stepped.(frame := l.frame + 1, completed := stepped.completed + [Completed(l.frame + 1, now, epoch)]),
                    now, epoch, outcomes, k + 1, n, accepted);
      }
    }
  }

  lemma WindShiftsNothing(l: Loop, after: int, accepted: bool)
    requires RateOk(l) && !l.state.Idle?
    ensures Wind(l, after, accepted).epoch == l.epoch && !Wind(l, after, accepted).state.Idle?
  {
    hide TargetFrame, DelayMs;
  }

  lemma WakeShifts(l: Loop, e: Event)
    requires RateOk(l) && e.Wake?
    ensures Take(l, e).epoch == l.epoch + PausedInEvent(l, e) && (l.state.Idle? ==> Take(l, e).state.Idle? && PausedInEvent(l, e) == 0)
    ensures !l.state.Idle? ==> !Take(l, e).state.Idle?
  {
    hide TargetFrame, Batch, Wind, PausedInBatch;
    if TakesEffect(l, e) && ReadNow(l, e.now).Ok? {
      var t := l.(wakes := l.wakes - {e.generation}, lastNow := e.now);
      if TargetFrame(t, e.now).Some? {
        var target := TargetFrame(t, e.now).value;
        var sized := UpdateOverload(t, target - t.frame);
        var n := Lesser(target - t.frame, t.maxCatchUp);
        BatchKeepsRate(sized, e.now, t.epoch, e.outcomes, 0, n, e.accepted);
        BatchShifts(sized, e.now, t.epoch, e.outcomes, 0, n, e.accepted);
        WindShiftsNothing(Batch(sized, e.now, t.epoch, e.outcomes, 0, n, e.accepted).loop, e.after, e.accepted);
      }
    }
  }

  lemma AskShifts(l: Loop, c: Control)
    requires RateOk(l)
    ensures PausedInEvent(l, Ask(c)) == PauseEnded(l, c)
    ensures Apply(l, c).epoch == (if Starts(l, Ask(c)) then c.now else l.epoch) + PauseEnded(l, c)
    ensures Apply(l, c).state.Idle? ==> l.state.Idle? && !Starts(l, Ask(c)) && PauseEnded(l, c) == 0
    ensures l.state.Idle? ==> PauseEnded(l, c) == 0
  {
    hide TargetFrame, DelayMs;
  }

  /** The epoch is the start plus the pauses, and nothing has been counted before the start. */
  predicate Shifted(l: Loop, start: int, paused: int) {
    l.epoch == start + paused && (l.state.Idle? ==> start == paused == 0)
  }

  lemma NewLoopsAreUnshifted(rate: int, maxCatchUp: int)
    ensures Shifted(NewLoop(rate, maxCatchUp), 0, 0)
  {
  }

  lemma EventShifts(l: Loop, e: Event, start: int, paused: int)
    requires RateOk(l) && Shifted(l, start, paused)
    ensures Shifted(Take(l, e), if Starts(l, e) then e.control.now else start, paused + PausedInEvent(l, e))
  {
    hide Fire, Apply, PausedInEvent;
    match e
    case Ask(c) => AskShifts(l, c);
    case Wake(_, _, _, _, _) => WakeShifts(l, e);
  }

  lemma {:induction false} EpochsMoveByThePauses(rate: int, maxCatchUp: int, events: seq<Event>)
    requires rate >= 1 && maxCatchUp >= 1
    ensures Run(rate, maxCatchUp, events).rate == rate
    ensures Shifted(Run(rate, maxCatchUp, events), StartedAt(rate, maxCatchUp, events), PausedFor(rate, maxCatchUp, events))
    decreases |events|
  {
    hide Take, CompletedOk, ClockOk, WakeOk, Shifted, PausedInEvent;
    if events != [] {
      var before, e := events[..|events| - 1], events[|events| - 1];
      EpochsMoveByThePauses(rate, maxCatchUp, before);
      var l := Run(rate, maxCatchUp, before);
      EventMoves(l, e);
      EventShifts(l, e, StartedAt(rate, maxCatchUp, before), PausedFor(rate, maxCatchUp, before));
    } else {
      NewLoopsAreUnshifted(rate, maxCatchUp);
    }
  }

  /**
   Pauses owe nothing: on every run each frame's deadline is the start, plus the time all pauses have taken, plus the
   frame's share of the clock, whoever paused and resumed and however often, even from inside a step.
   */
  lemma DeadlinesMoveByThePauses(rate: int, maxCatchUp: int, events: seq<Event>, k: nat)
    requires rate >= 1 && maxCatchUp >= 1
    ensures Deadline(Run(rate, maxCatchUp, events), k)
            == StartedAt(rate, maxCatchUp, events) + PausedFor(rate, maxCatchUp, events) + CeilDivide(k * SECOND, rate)
  {
    hide CeilDivide;
    EpochsMoveByThePauses(rate, maxCatchUp, events);
  }

  /** Paused time owes no frames: after a resume the clock has reached exactly the frame it had at the pause. */
  lemma PausesOweNothing(l: Loop, pausedAt: int, resumedAt: int, accepted: bool)
    requires LoopOk(l) && l.state.Running? && l.lastNow <= pausedAt <= resumedAt && accepted
    ensures var r := Resume(Pause(l, pausedAt), resumedAt, accepted);
            && r.state.Running? && TargetFrame(r, resumedAt) == TargetFrame(l, pausedAt)
            && (forall k: nat {:trigger Deadline(r, k)} :: Deadline(r, k) == Deadline(l, k) + (resumedAt - pausedAt))
  {
  }
}

/** The loop as the object it is; the record of completed frames is a ghost. */
module FixedStepLoops {
  import opened Wrappers
  import opened FixedSteps

  class FixedStepLoop {
    const rate: int
    const maxCatchUp: int
    var state: LoopState
    var frame: nat
    var epoch: int
    var lastNow: int
    var pausedAt: int
    var generation: nat
    var wakes: map<nat, int>
    var overloaded: bool
    ghost var completed: seq<Completed>

    ghost function View(): Loop
      reads this
    {
      Loop(rate, maxCatchUp, state, frame, epoch, lastNow, pausedAt, generation, wakes, overloaded, completed)
    }

    constructor (rate: int, maxCatchUp: int)
      requires rate >= 1 && maxCatchUp >= 1
      ensures View() == NewLoop(rate, maxCatchUp)
    {
      this.rate, this.maxCatchUp := rate, maxCatchUp;
      state, frame, epoch, lastNow, pausedAt := Idle, 0, 0, 0, 0;
      generation, wakes, overloaded, completed := 0, map[], false, [];
    }

    method CancelPending()
      modifies this`generation
      ensures View() == CancelWake(old(View()))
    {
      generation := generation + 1;
    }

    method HaltNow()
      modifies this`state, this`generation
      ensures View() == Halt(old(View()))
    {
      if state.Closed? || state.Stopped? {
        return;
      }
      state := Stopped;
      CancelPending();
    }

    method Read(now: int) returns (ok: bool)
      modifies this`lastNow
      ensures ok <==> ReadNow(old(View()), now).Ok?
      ensures View() == if ok then ReadNow(old(View()), now).value else old(View())
    {
      ok := now >= 0 && now >= lastNow;
      if ok {
        lastNow := now;
      }
    }

    method ScheduleWake(now: int, delayMs: int, accepted: bool) returns (raised: bool)
      modifies this`generation, this`wakes
      ensures raised <==> Schedule(old(View()), now, delayMs, accepted).Err?
      ensures View() == if raised then Schedule(old(View()), now, delayMs, accepted).error
                        else Schedule(old(View()), now, delayMs, accepted).value
    {
      if !state.Running? {
        return false;
      }
      generation := generation + 1;
      if !accepted {
        return true;
      }
      wakes := wakes[generation := now + delayMs * MILLISECOND];
      return false;
    }

    method ScheduleNextWake(now: int, target: int, accepted: bool) returns (raised: bool)
      requires rate >= 1 && maxCatchUp >= 1
      modifies this`generation, this`wakes
      ensures raised <==> ScheduleNext(old(View()), now, target, accepted).Err?
      ensures View() == if raised then ScheduleNext(old(View()), now, target, accepted).error
                        else ScheduleNext(old(View()), now, target, accepted).value
    {
      if target > frame {
        raised := ScheduleWake(now, 0, accepted);
        return;
      }
      var deadline := epoch + CeilDivide((frame + 1) * SECOND, rate);
      var remaining := if deadline > now then deadline - now else 0;
      raised := ScheduleWake(now, CeilDivide(remaining, MILLISECOND), accepted);
    }

    method StartLoop(now: int, accepted: bool) returns (started: bool)
      requires rate >= 1 && maxCatchUp >= 1
      modifies this
      ensures View() == Start(old(View()), now, accepted)
      ensures started ==> old(state).Idle? && state.Running?
    {
      if !state.Idle? {
        return false;
      }
      var ok := Read(now);
      if !ok {
        HaltNow();
        return false;
      }
      epoch := now;
      state := Running;
      var raised := ScheduleNextWake(now, 0, accepted);
      if raised {
        HaltNow();
      }
      return !raised;
    }

    method PauseLoop(now: int) returns (paused: bool)
      modifies this
      ensures View() == Pause(old(View()), now)
      ensures paused ==> old(state).Running? && state.Paused?
    {
      if !state.Running? {
        return false;
      }
      var ok := Read(now);
      if !ok {
        HaltNow();
        return false;
      }
      pausedAt := now;
      state := Paused;
      CancelPending();
      return true;
    }

    method ResumeLoop(now: int, accepted: bool) returns (resumed: bool)
      requires rate >= 1 && maxCatchUp >= 1
      modifies this
      ensures View() == Resume(old(View()), now, accepted)
      ensures resumed ==> old(state).Paused? && state.Running?
    {
      if !state.Paused? {
        return false;
      }
      var ok := Read(now);
      if !ok {
        HaltNow();
        return false;
      }
      epoch := epoch + (now - pausedAt);
      state := Running;
      var raised := ScheduleNextWake(now, frame, accepted);
      if raised {
        HaltNow();
      }
      return !raised;
    }

    method CloseLoop()
      modifies this
      ensures View() == Close(old(View()))
    {
      if state.Closed? {
        return;
      }
      state := Closed;
      CancelPending();
    }

    method UpdateOverloadFlag(behind: int)
      modifies this`overloaded
      ensures View() == UpdateOverload(old(View()), behind)
    {
      if !overloaded && behind <= maxCatchUp {
        return;
      }
      if overloaded && behind != 0 {
        return;
      }
      overloaded := !overloaded;
    }

    method PerformControl(c: Control)
      requires rate >= 1 && maxCatchUp >= 1
      modifies this
      ensures View() == Apply(old(View()), c)
    {
      match c
      case DoStart(now, accepted) => var _ := StartLoop(now, accepted);
      case DoPause(now) => var _ := PauseLoop(now);
      case DoResume(now, accepted) => var _ := ResumeLoop(now, accepted);
      case DoClose => CloseLoop();
    }

    /** The user's step runs; all it can do to the loop is call its controls. */
    method RunStep(controls: seq<Control>)
      requires rate >= 1 && maxCatchUp >= 1
      modifies this
      ensures View() == ApplyAll(old(View()), controls)
    {
      for i := 0 to |controls|
        invariant ApplyAll(View(), controls[i..]) == ApplyAll(old(View()), controls)
      {
        ApplyKeepsRate(View(), controls[i]);
        assert controls[i..][0] == controls[i] && controls[i..][1..] == controls[i + 1..];
        PerformControl(controls[i]);
      }
    }

    method CompleteFrame(attempted: nat, ghost now: int, ghost started: int)
      modifies this`frame, this`completed
      ensures View() == old(View()).(frame := attempted, completed := old(completed) + [Completed(attempted, now, started)])
    {
      frame := attempted;
      completed := completed + [Completed(attempted, now, started)];
    }

    /** The catch-up loop; `left` tells that the pump returned from within it. */
    method CatchUp(now: int, ghost started: int, batchSize: int, outcomes: seq<StepOutcome>, accepted: bool)
      returns (left: bool, raised: bool)
      requires rate >= 1 && maxCatchUp >= 1
      modifies this
      ensures var end := Batch(old(View()), now, started, outcomes, 0, batchSize, accepted);
              View() == end.loop && (left <==> end.Left?) && (raised <==> end.Raised?)
    {
      var index: nat := 0;
      while index < batchSize
        invariant Batch(View(), now, started, outcomes, index, batchSize, accepted)
               == Batch(old(View()), now, started, outcomes, 0, batchSize, accepted)
        decreases batchSize - index
      {
        if !state.Running? {
          return true, false;
        }
        var attempted := frame + 1;
        var outcome := OutcomeAt(outcomes, index);
        RunStep(outcome.controls);
        if outcome.failure.Some? {
          if outcome.failure.value.Stop? {
            HaltNow();
            return true, false;
          }
          raised := ScheduleWake(now, 0, accepted);
          return !raised, raised;
        }
        CompleteFrame(attempted, now, started);
        index := index + 1;
      }
      return false, false;
    }

    method ScheduleAfter(after: int, accepted: bool)
      requires rate >= 1 && maxCatchUp >= 1
      modifies this
      ensures View() == Wind(old(View()), after, accepted)
    {
      var ok := Read(after);
      if !ok {
        HaltNow();
        return;
      }
      var target := Quotient((after - epoch) * rate, SECOND);
      if target > MAX_SAFE {
        HaltNow();
        return;
      }
      UpdateOverloadFlag(target - frame);
      var raised := ScheduleNextWake(after, target, accepted);
      if raised {
        HaltNow();
      }
    }

    method RunTo(now: int, target: int, outcomes: seq<StepOutcome>, after: int, accepted: bool)
      requires rate >= 1 && maxCatchUp >= 1
      modifies this
      ensures View() == RunBatch(old(View()), now, target, outcomes, after, accepted)
    {
      var behind := target - frame;
      UpdateOverloadFlag(behind);
      var left, raised := CatchUp(now, epoch, Lesser(behind, maxCatchUp), outcomes, accepted);
      if left {
        return;
      }
      if raised {
        HaltNow();
        return;
      }
      ScheduleAfter(after, accepted);
    }

    /** A scheduled callback fires. */
    method Pump(fired: nat, now: int, outcomes: seq<StepOutcome>, after: int, accepted: bool)
      requires rate >= 1 && maxCatchUp >= 1
      modifies this
      ensures View() == Fire(old(View()), fired, now, outcomes, after, accepted)
    {
      var known := fired in wakes;
      wakes := wakes - {fired};
      if !known || !state.Running? || fired != generation {
        return;
      }
      var ok := Read(now);
      if !ok {
        HaltNow();
        return;
      }
      var target := Quotient((now - epoch) * rate, SECOND);
      if target > MAX_SAFE {
        HaltNow();
        return;
      }
      RunTo(now, target, outcomes, after, accepted);
    }
  }
}

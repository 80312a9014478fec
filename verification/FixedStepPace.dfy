/** How a wake-up catches up: how many frames it runs, when the next one comes, when the loop counts as overloaded, and what errors do. */
module FixedStepPace {
  import opened Wrappers
  import opened FixedSteps

  /** Has the clock reached frame `k`? */
  predicate IsDue(l: Loop, now: int, k: int) { (now - l.epoch) * l.rate >= k * SECOND }

  /** Is `n` the number of frames that are due and not completed? */
  predicate Behind(l: Loop, now: int, n: nat) { (n == 0 || IsDue(l, now, l.frame + n)) && !IsDue(l, now, l.frame + n + 1) }

  /** The clock stays within the range of safe integers. */
  predicate InRange(l: Loop, now: int) { now >= l.epoch && !IsDue(l, now, MAX_SAFE + 1) }

  lemma TargetIsTheLastDue(l: Loop, now: int)
    requires RateOk(l) && InRange(l, now)
    ensures TargetFrame(l, now).Some?
    ensures forall k: nat :: k <= TargetFrame(l, now).value <==> IsDue(l, now, k)
  {
    var ticks := (now - l.epoch) * l.rate;
    assert ticks >= 0;
    DivideReaches(ticks, SECOND, MAX_SAFE + 1);
    forall k: nat ensures k <= ticks / SECOND <==> IsDue(l, now, k) {
      DivideReaches(ticks, SECOND, k);
    }
  }

  lemma BehindIsTheDistance(l: Loop, now: int, n: nat)
    requires RateOk(l) && InRange(l, now) && Behind(l, now, n)
    ensures TargetFrame(l, now).Some?
    ensures n > 0 ==> TargetFrame(l, now).value == l.frame + n
    ensures n == 0 ==> TargetFrame(l, now).value <= l.frame
  {
    TargetIsTheLastDue(l, now);
    var target := TargetFrame(l, now).value;
    assert l.frame + n + 1 > target;
    if n > 0 {
      assert l.frame + n <= target;
    }
  }

  /** A loop that has not been ahead of its clock: it has completed no frame that was not due. */
  predicate NotAhead(l: Loop, now: int) { l.frame == 0 || IsDue(l, now, l.frame) }

  lemma NotAheadIsTheDistance(l: Loop, now: int, n: nat)
    requires RateOk(l) && InRange(l, now) && Behind(l, now, n) && NotAhead(l, now)
    ensures TargetFrame(l, now) == Some(l.frame + n)
  {
    BehindIsTheDistance(l, now, n);
    TargetIsTheLastDue(l, now);
    var target := TargetFrame(l, now).value;
    assert (now - l.epoch) * l.rate >= 0;
    assert IsDue(l, now, 0);
    assert 0 <= target;
    assert l.frame <= target;
  }

  // ---------------------------------------------------------------- the batch

  /** Every step of the batch succeeds and leaves the loop alone. */
  predicate Plain(outcomes: seq<StepOutcome>) { forall i | 0 <= i < |outcomes| :: outcomes[i] == StepOutcome([], None) }

  /** The records of `n` frames completed in a batch read at `now`, after frame `last`. */
  function NewFrames(last: nat, now: int, epoch: int, n: nat): seq<Completed> {
    seq(n, i requires 0 <= i < n => Completed(last + 1 + i, now, epoch))
  }

  /** `t` is `l` with `n` more frames completed in a batch read at `now`. */
  predicate Stepped(l: Loop, t: Loop, now: int, n: nat) {
    t == l.(frame := l.frame + n, completed := l.completed + NewFrames(l.frame, now, l.epoch, n))
  }

  lemma OneMoreStep(l: Loop, t: Loop, u: Loop, now: int, n: nat)
    requires t == l.(frame := l.frame + 1, completed := l.completed + [Completed(l.frame + 1, now, l.epoch)])
    requires Stepped(t, u, now, n)
    ensures Stepped(l, u, now, n + 1)
  {
    assert NewFrames(l.frame, now, l.epoch, n + 1)
        == [Completed(l.frame + 1, now, l.epoch)] + NewFrames(l.frame + 1, now, l.epoch, n);
  }

  lemma NoStep(l: Loop, now: int)
    ensures Stepped(l, l, now, 0)
  {
    assert l.completed + NewFrames(l.frame, now, l.epoch, 0) == l.completed;
  }

  lemma {:induction false} PlainBatchesRun(
    l: Loop, now: int, outcomes: seq<StepOutcome>, k: nat, n: int, accepted: bool) returns (t: Loop)
    requires RateOk(l) && l.state.Running? && k <= n && forall i | k <= i < n :: OutcomeAt(outcomes, i) == StepOutcome([], None)
    ensures Batch(l, now, l.epoch, outcomes, k, n, accepted) == Ran(t) && Stepped(l, t, now, n - k)
    decreases n - k
  {
    t := l;
    NoStep(l, now);
    if k < n {
      var u := l.(frame := l.frame + 1, completed := l.completed + [Completed(l.frame + 1, now, l.epoch)]);
      t := PlainBatchesRun(u, now, outcomes, k + 1, n, accepted);
      OneMoreStep(l, u, t, now, n - k - 1);
    }
  }

  /** The first steps succeed; the one after them raises an error. */
  predicate FailsAt(outcomes: seq<StepOutcome>, k: nat, failure: Failure) {
    && k < |outcomes| && outcomes[k] == StepOutcome([], Some(failure))
    && forall i | 0 <= i < k :: outcomes[i] == StepOutcome([], None)
  }

  lemma {:induction false} FailingBatchesEnd(
    l: Loop, now: int, outcomes: seq<StepOutcome>, k: nat, n: int, at: nat, failure: Failure, accepted: bool)
    returns (t: Loop)
    requires RateOk(l) && l.state.Running? && k <= at < n && FailsAt(outcomes, at, failure)
    ensures Stepped(l, t, now, at - k)
    ensures Batch(l, now, l.epoch, outcomes, k, n, accepted) ==
            match failure
            case Stop => Left(Halt(t))
            case Retry => (match Schedule(t, now, 0, accepted)
                           case Ok(u) => Left(u)
                           case Err(u) => Raised(u))
    decreases n - k
  {
    t := l;
    NoStep(l, now);
    if k < at {
      var u := l.(frame := l.frame + 1, completed := l.completed + [Completed(l.frame + 1, now, l.epoch)]);
      t := FailingBatchesEnd(u, now, outcomes, k + 1, n, at, failure, accepted);
      OneMoreStep(l, u, t, now, at - k - 1);
    }
  }

  // ---------------------------------------------------------------- whole wake-ups

  /** A wake-up that will take effect, on a clock that has not gone back, with `n` frames to catch up with. */
  predicate Wakes(l: Loop, now: int, n: nat) {
    && RateOk(l) && l.state.Running? && l.generation in l.wakes
    && 0 <= l.lastNow <= now && InRange(l, now) && Behind(l, now, n) && NotAhead(l, now)
  }

  /** The overload flag goes up when more frames are behind than one batch may run, and down when none is. */
  function Flag(flag: bool, behind: nat, maxCatchUp: int): bool { behind > 0 && (flag || behind > maxCatchUp) }

  lemma OverloadHasHysteresis(l: Loop, behind: nat)
    requires RateOk(l)
    ensures UpdateOverload(l, behind) == l.(overloaded := Flag(l.overloaded, behind, l.maxCatchUp))
  {
  }

  function Few(n: nat, limit: int): int { if n <= limit then n else limit }

  lemma WakesSizeTheBatch(l: Loop, now: int, n: nat, outcomes: seq<StepOutcome>, after: int, accepted: bool)
    requires Wakes(l, now, n)
    ensures var sized := l.(wakes := l.wakes - {l.generation}, lastNow := now,
                            overloaded := Flag(l.overloaded, n, l.maxCatchUp));
            && RateOk(sized)
            && Fire(l, l.generation, now, outcomes, after, accepted) ==
               match Batch(sized, now, l.epoch, outcomes, 0, Few(n, l.maxCatchUp), accepted)
               case Left(t) => t
               case Raised(t) => Halt(t)
               case Ran(t) => if RateOk(t) then Wind(t, after, accepted) else t
  {
    var fired := l.(wakes := l.wakes - {l.generation}, lastNow := now);
    NotAheadIsTheDistance(l, now, n);
    assert TargetFrame(fired, now) == TargetFrame(l, now);
    OverloadHasHysteresis(fired, n);
    var sized := UpdateOverload(fired, n);
    BatchKeepsRate(sized, now, l.epoch, outcomes, 0, Few(n, l.maxCatchUp), accepted);
  }

  /**
   Catching up: a wake-up whose steps all succeed runs exactly the frames that are due, but no more than a batch holds;
   then, if frames are still due at the second reading, the next wake-up is set for at once, and otherwise for the
   deadline of the next frame, at most a millisecond late. The overload flag goes up as soon as more than a batch is due
   at a reading and stays up until nothing is.
   */
  lemma WakesCatchUp(l: Loop, now: int, n: nat, outcomes: seq<StepOutcome>, after: int, m: nat)
    requires Wakes(l, now, n) && Plain(outcomes)
    requires after >= now && InRange(l, after) && Behind(l.(frame := l.frame + Few(n, l.maxCatchUp)), after, m)
    ensures var t := Fire(l, l.generation, now, outcomes, after, true);
            var deadline := l.epoch + CeilDivide((t.frame + 1) * SECOND, l.rate);
            && t.state.Running? && t.frame == l.frame + Few(n, l.maxCatchUp)
            && |t.completed| == |l.completed| + Few(n, l.maxCatchUp)
            && t.generation == l.generation + 1 && t.generation in t.wakes
            && (m > 0 ==> t.wakes[t.generation] == after)
            && (m == 0 ==> deadline <= t.wakes[t.generation] < deadline + MILLISECOND)
            && t.overloaded == Flag(Flag(l.overloaded, n, l.maxCatchUp), m, l.maxCatchUp)
  {
    hide Fire, Batch, Wind, CeilDivide, IsDue, Behind, NotAhead, InRange, Flag, Wakes;
    WakesAreRunning(l, now, n);
    var sized := l.(wakes := l.wakes - {l.generation}, lastNow := now, overloaded := Flag(l.overloaded, n, l.maxCatchUp));
    WakesSizeTheBatch(l, now, n, outcomes, after, true);
    var t := PlainBatchesRun(sized, now, outcomes, 0, Few(n, l.maxCatchUp), true);
    StillNotAhead(l, t, now, after, n);
    SameClock(l.(frame := l.frame + Few(n, l.maxCatchUp)), t, after, m);
    SameClock(l, t, after, m);
    WindingWakesInTime(t, after, m);
  }

  lemma WakesAreRunning(l: Loop, now: int, n: nat)
    requires Wakes(l, now, n)
    ensures RateOk(l) && l.state.Running? && l.generation in l.wakes && 0 <= l.lastNow <= now && now >= l.epoch
    ensures Behind(l, now, n) && NotAhead(l, now)
  {
  }

  lemma SameClock(l: Loop, t: Loop, now: int, m: nat)
    requires l.epoch == t.epoch && l.rate == t.rate
    ensures l.frame == t.frame ==> Behind(l, now, m) == Behind(t, now, m)
    ensures InRange(l, now) == InRange(t, now)
  {
  }

  /** Frames that were due at one reading are due at a later one. */
  lemma StillNotAhead(l: Loop, t: Loop, now: int, after: int, n: nat)
    requires RateOk(l) && Behind(l, now, n) && NotAhead(l, now) && after >= now >= l.epoch && t.epoch == l.epoch && t.rate == l.rate
    requires t.frame == l.frame + Few(n, l.maxCatchUp)
    ensures NotAhead(t, after)
  {
    assert (after - l.epoch) * l.rate >= (now - l.epoch) * l.rate;
    assert n > 0 ==> t.frame * SECOND <= (l.frame + n) * SECOND;
  }

  lemma WindingWakesInTime(t: Loop, after: int, m: nat)
    requires RateOk(t) && t.state.Running? && 0 <= t.lastNow <= after && InRange(t, after) && Behind(t, after, m) && NotAhead(t, after)
    ensures var u := Wind(t, after, true);
            var deadline := t.epoch + CeilDivide((t.frame + 1) * SECOND, t.rate);
            && u.generation == t.generation + 1 && u.generation in u.wakes
            && (m > 0 ==> u.wakes[u.generation] == after)
            && (m == 0 ==> deadline <= u.wakes[u.generation] < deadline + MILLISECOND)
            && u == t.(lastNow := after, overloaded := Flag(t.overloaded, m, t.maxCatchUp),
                       generation := u.generation, wakes := u.wakes)
  {
    NotAheadIsTheDistance(t, after, m);
    var read := t.(lastNow := after);
    assert TargetFrame(read, after) == TargetFrame(t, after);
    OverloadHasHysteresis(read, m);
    var flagged := UpdateOverload(read, m);
    if m == 0 {
      WakesLandOnTheDeadline(flagged, after);
      TargetReachesAtTheDeadline(t, after, t.frame + 1);
      assert Deadline(flagged, t.frame + 1) == Deadline(t, t.frame + 1);
    }
    hide DelayMs, CeilDivide, Quotient, TargetFrame;
  }

  /**
   A step that fails and may be retried ends the batch: the frames before it are completed, its own is not, and the next
   wake-up is set for this very instant, so that the same frame is tried again.
   */
  lemma RetriesKeepTheFrame(l: Loop, now: int, n: nat, outcomes: seq<StepOutcome>, k: nat, after: int)
    requires Wakes(l, now, n) && FailsAt(outcomes, k, Retry) && k < Few(n, l.maxCatchUp)
    ensures var t := Fire(l, l.generation, now, outcomes, after, true);
            && t.state.Running? && t.frame == l.frame + k && |t.completed| == |l.completed| + k
            && t.generation == l.generation + 1 && t.generation in t.wakes && t.wakes[t.generation] == now
  {
    WakesSizeTheBatch(l, now, n, outcomes, after, true);
    var sized := l.(wakes := l.wakes - {l.generation}, lastNow := now, overloaded := Flag(l.overloaded, n, l.maxCatchUp));
    var t := FailingBatchesEnd(sized, now, outcomes, 0, Few(n, l.maxCatchUp), k, Retry, true);
  }

  /** A step that fails for good, and a wake-up the scheduler refuses, stop the loop after the frames completed so far. */
  lemma FailuresStopTheLoop(l: Loop, now: int, n: nat, outcomes: seq<StepOutcome>, k: nat, failure: Failure, after: int, accepted: bool)
    requires Wakes(l, now, n) && FailsAt(outcomes, k, failure) && k < Few(n, l.maxCatchUp)
    requires failure.Stop? || !accepted
    ensures var t := Fire(l, l.generation, now, outcomes, after, accepted);
            t.state.Stopped? && t.frame == l.frame + k && |t.completed| == |l.completed| + k
  {
    WakesSizeTheBatch(l, now, n, outcomes, after, accepted);
    var sized := l.(wakes := l.wakes - {l.generation}, lastNow := now, overloaded := Flag(l.overloaded, n, l.maxCatchUp));
    var t := FailingBatchesEnd(sized, now, outcomes, 0, Few(n, l.maxCatchUp), k, failure, accepted);
  }
}

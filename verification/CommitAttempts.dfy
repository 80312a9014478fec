/**
 How often an effect is tried, counted off the steps: it is settled as delivered by the first call that succeeds, and
 given up by the call that uses up the last attempt, never before and never otherwise. And what an offer is answered, by
 what the outbox holds under the offered revision.
 */
module CommitAttempts {
  import opened Wrappers
  import opened CommitOutbox

  // ---------------------------------------------------------------- attempts

  /** Only the first commit of a lane has been tried, and its current effect has failed `n` times. */
  predicate Tidy(lane: seq<Pending>, n: nat) {
    && (forall i | 1 <= i < |lane| :: lane[i].attempt == 1 && lane[i].next == 0)
    && (lane == [] ==> n == 0)
    && (lane != [] ==> lane[0].attempt == n + 1 && (n > 0 ==> lane[0].next < |lane[0].commit.effects|))
  }

  predicate Counted(o: Outbox, r: RoomId, n: nat) { Tidy(Commits(o, r), n) }

  lemma AdmitStaysTidy(o: Outbox, c: Commit, r: RoomId, n: nat)
    requires Counted(o, r, n)
    ensures Counted(Admit(o, c), r, n) && Admit(o, c).settled == o.settled
  {
    var lane := Commits(o, r);
    if c.room == r {
      assert Commits(Admit(o, c), r) == lane + [Pending(c, 0, 1)];
    }
  }

  lemma KnowingKeepsLanes(o: Outbox, c: Commit)
    ensures Known(o, c).0.lanes == o.lanes && Known(o, c).0.settled == o.settled && Known(o, c).0.limits == o.limits
    ensures Known(o, c).0.disposed == o.disposed
  {
  }

  lemma {:induction false} AdmittingStaysTidy(o: Outbox, r: RoomId, n: nat)
    requires Counted(o, r, n)
    ensures Counted(AdmitWaiting(o), r, n) && AdmitWaiting(o).settled == o.settled && AdmitWaiting(o).limits == o.limits
    decreases |o.waiting|
  {
    hide Known, Admit, Counted;
    if !o.disposed && |o.pending| < o.limits.capacity && o.waiting != [] {
      var rest := o.(waiting := o.waiting[1..]);
      var known := Known(rest, o.waiting[0]);
      SameLaneSameCount(o, rest, r, n);
      KnowingKeepsLanes(rest, o.waiting[0]);
      SameLaneSameCount(rest, known.0, r, n);
      AdmitStaysTidy(rest, o.waiting[0], r, n);
      AdmitKeepsLimits(rest, o.waiting[0]);
      KnownKeepsWaiting(rest, o.waiting[0]);
      AdmittingStaysTidy(if known.1.Unknown? then Admit(rest, o.waiting[0]) else known.0, r, n);
    }
  }

  lemma AdmitKeepsLimits(o: Outbox, c: Commit)
    ensures Admit(o, c).limits == o.limits && Admit(o, c).waiting == o.waiting
  {
  }

  lemma KnownKeepsWaiting(o: Outbox, c: Commit)
    ensures Known(o, c).0.waiting == o.waiting
  {
  }

  lemma SameLaneSameCount(o: Outbox, t: Outbox, r: RoomId, n: nat)
    requires Counted(o, r, n) && Commits(t, r) == Commits(o, r)
    ensures Counted(t, r, n)
  {
  }

  lemma CompletingStaysTidy(o: Outbox, q: RoomId, r: RoomId, n: nat)
    requires Counted(o, r, n) && q in o.lanes && o.lanes[q].commits != []
    requires o.lanes[q].commits[0].next >= |o.lanes[q].commits[0].commit.effects|
    ensures Counted(Complete(o, q), r, n) && Complete(o, q).settled == o.settled && Complete(o, q).limits == o.limits
  {
    hide AdmitWaiting, Newest, Forget;
    var lane := o.lanes[q];
    var c := lane.commits[0].commit;
    var mid := o.(
      lanes := o.lanes[q := lane.(commits := lane.commits[1..])],
      pending := o.pending - {KeyOf(c)},
      completed := Newest(Forget(o.completed, KeyOf(c)) + [Completed(KeyOf(c), c.effects)], o.limits.retention));
    if q == r {
      assert Commits(mid, r) == lane.commits[1..];
    }
    AdmittingStaysTidy(mid, r, n);
  }

  lemma {:induction false} PumpStaysTidy(o: Outbox, q: RoomId, r: RoomId, n: nat)
    requires Counted(o, r, n)
    ensures Counted(Pump(o, q), r, n) && Pump(o, q).settled == o.settled && Pump(o, q).limits == o.limits
    decreases |o.waiting|, |Commits(o, q)|
  {
    hide Complete, Counted, Newest, Forget;
    if !o.disposed && q in o.lanes {
      var lane := o.lanes[q];
      if lane.commits == [] {
        SameLaneSameCount(o, o.(lanes := o.lanes - {q}), r, n);
      } else if lane.commits[0].next >= |lane.commits[0].commit.effects| {
        CompletingStaysTidy(o, q, r, n);
        CompletingShrinks(o, q);
        PumpStaysTidy(Complete(o, q), q, r, n);
      } else {
        SameLaneSameCount(o, o.(lanes := o.lanes[q := lane.(running := true)]), r, n);
      }
    }
  }

  lemma CompletingShrinks(o: Outbox, q: RoomId)
    requires q in o.lanes && o.lanes[q].commits != []
    ensures var t := Complete(o, q);
            |t.waiting| < |o.waiting| || (|t.waiting| == |o.waiting| && |Commits(t, q)| < |Commits(o, q)|)
  {
    var lane := o.lanes[q];
    var c := lane.commits[0].commit;
    AdmittingShrinksTheQueue(o.(
      lanes := o.lanes[q := lane.(commits := lane.commits[1..])],
      pending := o.pending - {KeyOf(c)},
      completed := Newest(Forget(o.completed, KeyOf(c)) + [Completed(KeyOf(c), c.effects)], o.limits.retention)));
  }

  lemma SchedulingKeepsLanes(o: Outbox, q: RoomId, clockOk: bool, primary: Scheduling, recovery: Scheduling, r: RoomId)
    requires q in o.lanes
    ensures var t := Schedule(o, q, clockOk, primary, recovery);
            Commits(t, r) == Commits(o, r) && t.settled == o.settled && t.limits == o.limits
  {
  }

  /** Is this the step that settles the current effect of room `r`, after `n` failures of it? */
  predicate Settles(o: Outbox, step: Step, r: RoomId, n: nat) {
    && Calling(o, r)
    && (step == Succeed(r)
        || (step.Fail? && step.room == r && o.limits.maxAttempts.Some? && n + 1 >= o.limits.maxAttempts.value))
  }

  /** Is this a failure of the current effect of room `r` that will be tried again? */
  predicate FailsAgain(o: Outbox, step: Step, r: RoomId, n: nat) {
    step.Fail? && step.room == r && Calling(o, r) && !Settles(o, step, r, n)
  }

  function After(o: Outbox, step: Step, r: RoomId, n: nat): nat {
    if Settles(o, step, r, n) then 0 else if FailsAgain(o, step, r, n) then n + 1 else n
  }

  /** The record of the current effect of a room. */
  function Current(o: Outbox, r: RoomId, delivered: bool): Settled
    requires Calling(o, r)
  {
    var head := o.lanes[r].commits[0];
    Settled(head.commit.revision, head.next, head.commit.effects[head.next], delivered)
  }

  predicate SettlesExactly(o: Outbox, t: Outbox, step: Step, r: RoomId, n: nat) {
    Log(t.settled, r) ==
    if Settles(o, step, r, n) then Log(o.settled, r) + [Current(o, r, step.Succeed?)] else Log(o.settled, r)
  }

  lemma SettlingStartsOver(o: Outbox, q: RoomId, r: RoomId, n: nat, delivered: bool)
    requires Calling(o, q) && Counted(o, r, n)
    ensures var t := Settle(o, q, delivered);
            && Counted(t, r, if q == r then 0 else n) && t.limits == o.limits
            && Log(t.settled, r) == if q == r then Log(o.settled, r) + [Current(o, r, delivered)] else Log(o.settled, r)
  {
    var lane := o.lanes[q].commits;
    if q == r {
      assert Commits(Settle(o, q, delivered), r) == [lane[0].(next := lane[0].next + 1, attempt := 1)] + lane[1..];
    }
  }

  lemma SucceedingIsCounted(o: Outbox, q: RoomId, r: RoomId, n: nat)
    requires Counted(o, r, n)
    ensures var t := HandlerSucceeds(o, q);
            t.limits == o.limits && Counted(t, r, After(o, Succeed(q), r, n)) && SettlesExactly(o, t, Succeed(q), r, n)
  {
    hide Pump, Settle, Counted;
    if Calling(o, q) {
      SettlingStartsOver(o, q, r, n, true);
      PumpStaysTidy(Settle(o, q, true), q, r, if q == r then 0 else n);
    }
  }

  lemma AttemptIsTheCount(o: Outbox, r: RoomId, n: nat)
    requires Counted(o, r, n) && Calling(o, r)
    ensures o.lanes[r].commits[0].attempt == n + 1
  {
  }

  lemma GivingUpIsCounted(o: Outbox, q: RoomId, r: RoomId, n: nat)
    requires Counted(o, r, n) && Calling(o, q)
    ensures var t := Pump(Settle(o, q, false), q);
            && t.limits == o.limits && Counted(t, r, if q == r then 0 else n)
            && Log(t.settled, r) == if q == r then Log(o.settled, r) + [Current(o, r, false)] else Log(o.settled, r)
  {
    hide Pump, Settle, Counted;
    SettlingStartsOver(o, q, r, n, false);
    PumpStaysTidy(Settle(o, q, false), q, r, if q == r then 0 else n);
  }

  /** The lane with one more failed attempt, before the retry is scheduled. */
  function TriedOnce(o: Outbox, q: RoomId): Outbox
    requires Calling(o, q)
  {
    var lane := o.lanes[q];
    var head := lane.commits[0];
    o.(lanes := o.lanes[q := lane.(commits := [head.(attempt := head.attempt + 1)] + lane.commits[1..], running := false)])
  }

  lemma TryingAgainIsCounted(
    o: Outbox, q: RoomId, clockOk: bool, primary: Scheduling, recovery: Scheduling, r: RoomId, n: nat)
    requires Counted(o, r, n) && Calling(o, q)
    ensures var t := Schedule(TriedOnce(o, q), q, clockOk, primary, recovery);
            t.limits == o.limits && Counted(t, r, if q == r then n + 1 else n) && Log(t.settled, r) == Log(o.settled, r)
  {
    hide Schedule;
    var lane := o.lanes[q];
    if q == r {
      assert Commits(TriedOnce(o, q), r) == [lane.commits[0].(attempt := lane.commits[0].attempt + 1)] + lane.commits[1..];
    }
    SchedulingKeepsLanes(TriedOnce(o, q), q, clockOk, primary, recovery, r);
  }

  lemma FailingIsCounted(
    o: Outbox, q: RoomId, clockOk: bool, primary: Scheduling, recovery: Scheduling, r: RoomId, n: nat)
    requires Counted(o, r, n)
    ensures var step := Fail(q, clockOk, primary, recovery);
            var t := HandlerFails(o, q, clockOk, primary, recovery);
            t.limits == o.limits && Counted(t, r, After(o, step, r, n)) && SettlesExactly(o, t, step, r, n)
  {
    hide Pump, Settle, Schedule, Counted;
    if Calling(o, q) {
      GivingUpIsCounted(o, q, r, n);
      TryingAgainIsCounted(o, q, clockOk, primary, recovery, r, n);
      if q == r {
        AttemptIsTheCount(o, r, n);
      }
    }
  }

  lemma OfferingIsCounted(o: Outbox, c: Commit, r: RoomId, n: nat)
    requires Counted(o, r, n)
    ensures var t := Enqueue(o, c).0; Counted(t, r, n) && t.settled == o.settled && t.limits == o.limits
    ensures var t := EnqueueDurably(o, c).0; Counted(t, r, n) && t.settled == o.settled && t.limits == o.limits
  {
    hide Known, Admit, Queued, QueuedDifferently;
    KnowingKeepsLanes(o, c);
    AdmitStaysTidy(Arrive(o, c), c, r, n);
    AdmitKeepsLimits(Arrive(o, c), c);
  }

  lemma OtherStepsSettleNothing(o: Outbox, t: Outbox, step: Step, r: RoomId, n: nat)
    requires !step.Succeed? && !step.Fail? && Log(t.settled, r) == Log(o.settled, r)
    ensures After(o, step, r, n) == n && SettlesExactly(o, t, step, r, n)
  {
  }

  lemma QuietStepsAreCounted(o: Outbox, step: Step, r: RoomId, n: nat)
    requires !o.disposed && Counted(o, r, n) && !step.Succeed? && !step.Fail? && !step.Close?
    ensures var t := Take(o, step); t.limits == o.limits && Counted(t, r, n) && t.settled == o.settled
  {
    hide Counted, Pump, Enqueue, EnqueueDurably;
    match step
    case Offer(c) => OfferingIsCounted(o, c, r, n);
    case OfferDurably(c) => OfferingIsCounted(o, c, r, n);
    case Start(q) =>
      SameLaneSameCount(o, o.(starts := o.starts - multiset{q}), r, n);
      PumpStaysTidy(o.(starts := o.starts - multiset{q}), q, r, n);
    case Fire(q) => SameLaneSameCount(o, RetryFires(o, q), r, n);
    case _ =>
  }

  lemma StepsAreCounted(o: Outbox, step: Step, r: RoomId, n: nat)
    requires !o.disposed ==> Counted(o, r, n)
    ensures var t := Take(o, step);
            && t.limits == o.limits
            && (!t.disposed ==> Counted(t, r, After(o, step, r, n)))
            && SettlesExactly(o, t, step, r, n)
  {
    hide Counted, HandlerSucceeds, HandlerFails, Enqueue, EnqueueDurably, StartLane, RetryFires, SettlesExactly, After;
    if o.disposed {
      ClosedKeepsItsLog(o, step);
      ClosedSettlesNothing(o, Take(o, step), step, r, n);
    } else if step.Succeed? {
      SucceedingIsCounted(o, step.room, r, n);
    } else if step.Fail? {
      FailingIsCounted(o, step.room, step.clockOk, step.primary, step.recovery, r, n);
    } else {
      if !step.Close? {
        QuietStepsAreCounted(o, step, r, n);
      }
      OtherStepsSettleNothing(o, Take(o, step), step, r, n);
    }
  }

  lemma ClosedSettlesNothing(o: Outbox, t: Outbox, step: Step, r: RoomId, n: nat)
    requires o.disposed && t.settled == o.settled
    ensures SettlesExactly(o, t, step, r, n)
  {
  }

  lemma ClosedKeepsItsLog(o: Outbox, step: Step)
    requires o.disposed
    ensures Take(o, step).disposed && Take(o, step).settled == o.settled && Take(o, step).limits == o.limits
  {
  }

  // ---------------------------------------------------------------- runs

  /** How often the current effect of a room has failed: the failed calls since the room's last settlement. */
  function Failures(limits: Limits, steps: seq<Step>, r: RoomId): nat
    decreases |steps|
  {
    if steps == [] then 0
    else
      var before, step := Run(limits, steps[..|steps| - 1]), steps[|steps| - 1];
      if Log(Run(limits, steps).settled, r) != Log(before.settled, r) then 0
      else if step.Fail? && step.room == r && Calling(before, r) then Failures(limits, steps[..|steps| - 1], r) + 1
      else Failures(limits, steps[..|steps| - 1], r)
  }

  lemma {:induction false} FailuresAreCounted(limits: Limits, steps: seq<Step>, r: RoomId)
    ensures var o := Run(limits, steps); o.limits == limits && (!o.disposed ==> Counted(o, r, Failures(limits, steps, r)))
    decreases |steps|
  {
    hide Take, Counted;
    if steps == [] {
      NothingIsCounted(limits, r);
    } else {
      var before, step := steps[..|steps| - 1], steps[|steps| - 1];
      FailuresAreCounted(limits, before, r);
      StepsAreCounted(Run(limits, before), step, r, Failures(limits, before, r));
    }
  }

  lemma NothingIsCounted(limits: Limits, r: RoomId)
    ensures Counted(NewOutbox(limits), r, 0)
  {
  }

  /**
   Attempts, on every run: a step settles an effect of a room if and only if the room's handler is being called and
   either succeeds, and then the effect is recorded as delivered, or fails for the last time it may, and then it is
   recorded as given up. It is given up by exactly as many failed calls as the outbox allows, and without a limit never.
   */
  lemma EffectsAreTriedExactlyAsOftenAsAllowed(limits: Limits, steps: seq<Step>, step: Step, r: RoomId)
    ensures var o, n := Run(limits, steps), Failures(limits, steps, r);
            var settled := Log(Take(o, step).settled, r);
            && (Calling(o, r) && step == Succeed(r) ==> settled == Log(o.settled, r) + [Current(o, r, true)])
            && (Calling(o, r) && step.Fail? && step.room == r ==>
                settled == if limits.maxAttempts.Some? && n + 1 >= limits.maxAttempts.value
                           then Log(o.settled, r) + [Current(o, r, false)] else Log(o.settled, r))
            && (!Calling(o, r) || (step != Succeed(r) && !(step.Fail? && step.room == r)) ==> settled == Log(o.settled, r))
  {
    hide Take, Run, Counted;
    FailuresAreCounted(limits, steps, r);
    StepsAreCounted(Run(limits, steps), step, r, Failures(limits, steps, r));
  }

  // ---------------------------------------------------------------- answers to offers

  /** The outbox remembers these effects under a key: pending, or else as the latest of that key it completed. */
  predicate Remembers(o: Outbox, key: Key, effects: seq<Effect>) {
    if key in o.pending then o.pending[key] == effects
    else exists i: nat :: i < |o.completed| && LatestIs(o.completed, i, key, effects)
  }

  predicate LatestIs(completed: seq<Completed>, i: nat, key: Key, effects: seq<Effect>)
    requires i < |completed|
  {
    completed[i] == Completed(key, effects) && forall j | i < j < |completed| :: completed[j].key != key
  }

  predicate RemembersKey(o: Outbox, key: Key) { key in o.pending || exists i :: 0 <= i < |o.completed| && o.completed[i].key == key }

  lemma {:induction false} FindingFindsTheLatest(completed: seq<Completed>, key: Key)
    ensures FindCompleted(completed, key).None? ==> forall i | 0 <= i < |completed| :: completed[i].key != key
    ensures FindCompleted(completed, key).Some? ==>
              exists i: nat :: i < |completed| && LatestIs(completed, i, key, FindCompleted(completed, key).value)
    decreases |completed|
  {
    if completed != [] {
      var n := |completed| - 1;
      var front := completed[..n];
      FindingFindsTheLatest(front, key);
      if completed[n].key == key {
        var effects := completed[n].effects;
        assert FindCompleted(completed, key) == Some(effects);
        assert completed[n] == Completed(key, effects);
        assert LatestIs(completed, n, key, effects);
      } else if FindCompleted(front, key).None? {
        forall i | 0 <= i < |completed| ensures completed[i].key != key {
          assert i < n ==> completed[i] == front[i];
        }
      } else {
        var effects := FindCompleted(front, key).value;
        var i: nat :| i < n && LatestIs(front, i, key, effects);
        LatestIsStillTheLatest(completed, i, key, effects);
      }
    }
  }

  lemma LatestIsStillTheLatest(completed: seq<Completed>, i: nat, key: Key, effects: seq<Effect>)
    requires i < |completed| - 1 && LatestIs(completed[..|completed| - 1], i, key, effects)
    requires completed[|completed| - 1].key != key
    ensures LatestIs(completed, i, key, effects)
  {
    var front := completed[..|completed| - 1];
    assert completed[i] == front[i];
    forall j | i < j < |completed| ensures completed[j].key != key {
      if j < |front| {
        assert completed[j] == front[j];
      }
    }
  }

  lemma LatestIsUnique(completed: seq<Completed>, i: nat, j: nat, key: Key, a: seq<Effect>, b: seq<Effect>)
    requires i < |completed| && j < |completed| && LatestIs(completed, i, key, a) && LatestIs(completed, j, key, b)
    ensures a == b
  {
  }

  lemma KnowledgeIsMemory(o: Outbox, c: Commit)
    ensures Known(o, c).1 == if Remembers(o, KeyOf(c), c.effects) then Duplicate
                             else if RemembersKey(o, KeyOf(c)) then Conflict else Unknown
  {
    var key := KeyOf(c);
    if key !in o.pending {
      FindingFindsTheLatest(o.completed, key);
      var found := FindCompleted(o.completed, key);
      if found.Some? {
        var i: nat :| i < |o.completed| && LatestIs(o.completed, i, key, found.value);
        assert o.completed[i].key == key;
        if Remembers(o, key, c.effects) {
          var j: nat :| j < |o.completed| && LatestIs(o.completed, j, key, c.effects);
          LatestIsUnique(o.completed, i, j, key, found.value, c.effects);
        }
      }
    }
  }

  /** A waiter of the same revision. */
  predicate WaitsAs(o: Outbox, key: Key, effects: seq<Effect>) {
    exists i :: 0 <= i < |o.waiting| && KeyOf(o.waiting[i]) == key && o.waiting[i].effects == effects
  }

  /** Is the same revision there with other effects: remembered, or waiting while nothing is remembered? */
  ghost predicate Contradicts(o: Outbox, c: Commit) {
    if RemembersKey(o, KeyOf(c)) then !Remembers(o, KeyOf(c), c.effects)
    else exists effects :: effects != c.effects && WaitsAs(o, KeyOf(c), effects)
  }

  /**
   What an offer is answered, by what the outbox holds: a revision it holds with other effects is refused as a conflict,
   one it remembers with the same effects is already known, and so is one that waits, to whoever is ready to wait with it.
   Any other is admitted if nobody waits and there is room; if not, the impatient are refused, and the patient wait in
   line unless the line is full.
   */
  lemma OffersAreAnsweredByWhatIsHeld(o: Outbox, c: Commit)
    requires !o.disposed && c.revision >= 1
    ensures var quick, patient := Enqueue(o, c).1, EnqueueDurably(o, c).1;
            if Contradicts(o, c) then quick == patient == Refused(RevisionConflict)
            else if Remembers(o, KeyOf(c), c.effects) then quick == patient == AlreadyKnown
            else if WaitsAs(o, KeyOf(c), c.effects) then quick == Refused(CapacityReached) && patient == AlreadyKnown
            else if o.waiting == [] && |o.pending| < o.limits.capacity then quick == patient == Admitted
            else quick == Refused(CapacityReached)
                 && patient == if |o.waiting| < o.limits.waitingCapacity then Waits else Refused(WaitCapacityReached)
  {
    KnowledgeIsMemory(o, c);
    if Remembers(o, KeyOf(c), c.effects) {
      RememberingIsOfTheKey(o, KeyOf(c), c.effects);
    }
    hide Known, Remembers, RemembersKey, Admit;
    if QueuedDifferently(o, c) {
      var i :| 0 <= i < |o.waiting| && KeyOf(o.waiting[i]) == KeyOf(c) && o.waiting[i].effects != c.effects;
      assert WaitsAs(o, KeyOf(c), o.waiting[i].effects);
    }
  }

  lemma RememberingIsOfTheKey(o: Outbox, key: Key, effects: seq<Effect>)
    requires Remembers(o, key, effects)
    ensures RemembersKey(o, key)
  {
    if key !in o.pending {
      var i: nat :| i < |o.completed| && LatestIs(o.completed, i, key, effects);
      assert o.completed[i].key == key;
    }
  }
}

/**
 A frame as the locks that happen in it. Between two locks nothing but the piece in play changes, and every
 lock, by a hard drop or by the clock, is of a piece that rests.
 */
module SimulationTraces {
  import opened Wrappers
  import opened Pieces
  import opened Boards
  import opened Garbage
  import opened Attack
  import opened Rotation
  import opened Simulation
  import opened SimulationLaws

  /** A lock: the state it was made in, what it resolved to, and what caused it. */
  datatype Moment = Moment(sim: Sim, outcome: LockOutcome, cause: SpawnCause)

  /** Nothing but the piece in play has changed. */
  predicate Quiet(s: Sim, t: Sim) {
    && t.board == s.board && t.combo == s.combo && t.streak == s.streak && t.piecesPlaced == s.piecesPlaced
    && t.totalAttackSent == s.totalAttackSent && t.pendingGarbage == s.pendingGarbage
    && t.rollCursor == s.rollCursor && t.frameLocks == s.frameLocks
  }

  /** A piece rests when it fits and the place one row down is taken by the floor or the stack. */
  predicate Rests(s: Sim) {
    Fits(s) && !PlacementValid(s.board, Piece(s.active.value.kind, s.active.value.rotation, s.active.value.x, s.active.value.y - 1))
  }

  /** A lock is of a resting piece, and only a hard drop locks one before its lock delay is complete. */
  predicate IsLock(env: Env, frame: int, m: Moment) {
    && Rests(m.sim) && NoFullRow(m.sim.board) && !m.sim.toppedOut && frame >= 0
    && ResolveLock(env, m.sim, frame) == Ok(m.outcome)
    && (m.cause.ByHardDrop? || (m.cause.Automatic? && m.sim.lockFrames >= env.rules.lockDelayFrames))
  }

  /** The state with a lock entered in it. */
  function Posted(m: Moment): Sim {
    m.sim.(board := m.outcome.board, combo := m.outcome.combo, streak := m.outcome.streak,
           totalAttackSent := m.outcome.totalAttackSent, pendingGarbage := m.outcome.pendingGarbage,
           rollCursor := m.outcome.rollCursor, piecesPlaced := m.sim.piecesPlaced + 1,
           frameLocks := m.sim.frameLocks + [m.outcome.summary])
  }

  /** `s` becomes `t` by these locks, in this order, and nothing else. */
  predicate Linked(env: Env, frame: int, s: Sim, ms: seq<Moment>, t: Sim)
    decreases |ms|
  {
    if ms == [] then Quiet(s, t)
    else Quiet(s, ms[0].sim) && IsLock(env, frame, ms[0]) && Linked(env, frame, Posted(ms[0]), ms[1..], t)
  }

  predicate LastOverflows(ms: seq<Moment>) { ms != [] && ms[|ms| - 1].outcome.toppedOut }

  /** A player goes out by a last lock whose garbage overflows or for want of a place for the next piece, and for good. */
  predicate Ends(s: Sim, ms: seq<Moment>, t: Sim) {
    && (s.toppedOut ==> ms == [] && t.toppedOut && t.active == s.active)
    && (forall i | 0 <= i < |ms| :: ms[i].outcome.toppedOut ==> i == |ms| - 1 && t.toppedOut)
    && (t.toppedOut && !s.toppedOut ==> (t.active.Some? <==> LastOverflows(ms)))
  }

  predicate Traced(env: Env, frame: int, s: Sim, ms: seq<Moment>, t: Sim) {
    Linked(env, frame, s, ms, t) && Ends(s, ms, t)
  }

  predicate CausedBy(ms: seq<Moment>, cause: SpawnCause) { forall i | 0 <= i < |ms| :: ms[i].cause == cause }

  function HardDrops(actions: seq<Action>): nat {
    if actions == [] then 0 else (if actions[0].HardDrop? then 1 else 0) + HardDrops(actions[1..])
  }

  lemma {:induction false} QuietBefore(env: Env, frame: int, s: Sim, t: Sim, ms: seq<Moment>, u: Sim)
    requires Quiet(s, t) && Linked(env, frame, t, ms, u)
    ensures Linked(env, frame, s, ms, u)
  {
  }

  lemma {:induction false} LinksJoin(env: Env, frame: int, s: Sim, ms: seq<Moment>, t: Sim, ns: seq<Moment>, u: Sim)
    requires Linked(env, frame, s, ms, t) && Linked(env, frame, t, ns, u)
    ensures Linked(env, frame, s, ms + ns, u)
    decreases |ms|
  {
    hide IsLock, Posted, Quiet;
    if ms == [] {
      QuietBefore(env, frame, s, t, ns, u);
      assert ms + ns == ns;
    } else {
      LinksJoin(env, frame, Posted(ms[0]), ms[1..], t, ns, u);
      assert (ms + ns)[1..] == ms[1..] + ns;
    }
  }

  lemma EndsJoin(s: Sim, ms: seq<Moment>, t: Sim, ns: seq<Moment>, u: Sim)
    requires Ends(s, ms, t) && Ends(t, ns, u)
    ensures Ends(s, ms + ns, u)
  {
    var all := ms + ns;
    forall i | 0 <= i < |all| && all[i].outcome.toppedOut
      ensures i == |all| - 1 && u.toppedOut
    {
      if i >= |ms| {
        assert ns[i - |ms|] == all[i];
      }
    }
    if ns == [] {
      assert all == ms;
    } else {
      assert all[|all| - 1] == ns[|ns| - 1];
    }
  }

  lemma TracesJoin(env: Env, frame: int, s: Sim, ms: seq<Moment>, t: Sim, ns: seq<Moment>, u: Sim)
    requires Traced(env, frame, s, ms, t) && Traced(env, frame, t, ns, u)
    ensures Traced(env, frame, s, ms + ns, u)
  {
    LinksJoin(env, frame, s, ms, t, ns, u);
    EndsJoin(s, ms, t, ns, u);
  }

  // ---------------------------------------------------------------- steps

  lemma MovedIsTraced(env: Env, frame: int, s: Sim, t: Sim)
    requires Moved(s, t) && (s.toppedOut ==> t.active == s.active)
    ensures Traced(env, frame, s, [], t)
  {
  }

  lemma FinishIsTraced(env: Env, frame: int, s: Sim)
    requires Settled(s)
    ensures Traced(env, frame, s, [], Finish(env, s))
  {
  }

  lemma HoldIsTraced(env: Env, frame: int, s: Sim)
    requires s.generation.None? && !s.toppedOut && PerformHold(env, s).Ok?
    ensures Traced(env, frame, s, [], PerformHold(env, s).value)
  {
    if s.canHold && s.active.Some? {
      FinishIsTraced(env, frame, Request(SwapHold(env, s), Replacement(env, s), Some(ByHold), s.allowClutchLift, false).value);
    }
  }

  lemma AfterLockIsTraced(env: Env, frame: int, m: Moment)
    requires IsLock(env, frame, m) && m.sim.generation.None?
    ensures AfterLock(env, m.sim, m.outcome, m.cause).Ok?
    ensures Traced(env, frame, m.sim, [m], AfterLock(env, m.sim, m.outcome, m.cause).value)
  {
    hide ResolveLock;
    assert Linked(env, frame, Posted(m), [], AfterLock(env, m.sim, m.outcome, m.cause).value);
    assert [m][1..] == [];
  }

  lemma LockIsTraced(env: Env, s: Sim, frame: int, cause: SpawnCause) returns (ms: seq<Moment>)
    requires Valid(s) && s.generation.None? && !s.toppedOut && frame >= 0 && RollsOk(env) && CapFits(env)
    requires Rests(s)
    requires cause.ByHardDrop? || (cause.Automatic? && s.lockFrames >= env.rules.lockDelayFrames)
    ensures Lock(env, s, frame, cause).Ok? && Traced(env, frame, s, ms, Lock(env, s, frame, cause).value)
    ensures |ms| == 1 && CausedBy(ms, cause)
  {
    hide ResolveLock, AfterLock;
    LockOutcomeIsSafe(env, s, frame);
    var m := Moment(s, ResolveLock(env, s, frame).value, cause);
    AfterLockIsTraced(env, frame, m);
    ms := [m];
  }

  lemma HardDropIsTraced(env: Env, s: Sim, frame: int) returns (ms: seq<Moment>)
    requires Valid(s) && s.generation.None? && s.active.Some? && !s.toppedOut
    requires frame >= 0 && RollsOk(env) && CapFits(env)
    ensures var r := Lock(env, FallToFloor(s), frame, ByHardDrop); r.Ok? && Traced(env, frame, s, ms, r.value)
    ensures |ms| == 1 && CausedBy(ms, ByHardDrop)
  {
    hide ResolveLock, AfterLock, FallToFloor, Lock;
    var dropped := FallToFloor(s);
    FloorMoves(s);
    MovedStaysValid(s, dropped);
    MovedIsTraced(env, frame, s, dropped);
    ms := LockIsTraced(env, dropped, frame, ByHardDrop);
    TracesJoin(env, frame, s, [], dropped, ms, Lock(env, dropped, frame, ByHardDrop).value);
    assert [] + ms == ms;
  }

  lemma ActionIsTraced(env: Env, s: Sim, action: Action, frame: int) returns (ms: seq<Moment>)
    requires Valid(s) && s.generation.None? && frame >= 0 && RollsOk(env) && CapFits(env)
    ensures ApplyAction(env, s, action, frame).Ok? && Traced(env, frame, s, ms, ApplyAction(env, s, action, frame).value)
    ensures CausedBy(ms, ByHardDrop) && |ms| <= (if action.HardDrop? then 1 else 0)
  {
    hide Traced, ResolveLock, AfterLock, Lock, FallToFloor, MoveToTheWall, Fall, Turn;
    ms := [];
    ActionIsSafe(env, s, action, frame);
    if s.active.Some? && !s.toppedOut {
      match action
      case Move(side, pressed) =>
        SetHorizontalMoves(env, s, side, pressed);
        MovedIsTraced(env, frame, s, SetHorizontal(env, s, side, pressed));
      case MoveStep(side) =>
        StepMoves(env, s, side);
        MovedIsTraced(env, frame, s, MoveHorizontal(env, s, side));
      case MoveToWall(side) =>
        WallMoves(env, s, side);
        MovedIsTraced(env, frame, s, MoveToTheWall(env, s, side));
      case SoftDrop(pressed) => MovedIsTraced(env, frame, s, s.(held := s.held.(softDrop := pressed)));
      case SoftDropStep(cells) =>
        var n: nat := if cells > 0 then cells else 0;
        FallMoves(s, n);
        MovedIsTraced(env, frame, s, Fall(s, n));
      case SonicDrop =>
        FloorMoves(s);
        MovedIsTraced(env, frame, s, FallToFloor(s));
      case Rotate(direction) =>
        TurnMoves(env, s, direction);
        MovedIsTraced(env, frame, s, Turn(env, s, direction));
      case Hold => HoldIsTraced(env, frame, s);
      case HardDrop => ms := HardDropIsTraced(env, s, frame);
      case ClearHeld => MovedIsTraced(env, frame, s, ClearHeldInput(s));
    } else {
      MovedIsTraced(env, frame, s, s);
      MovedIsTraced(env, frame, s, ClearHeldInput(s));
    }
  }

  lemma TakeActionIsTraced(env: Env, s: Sim, action: Action, frame: int) returns (ms: seq<Moment>)
    requires Valid(s) && frame >= 0 && RollsOk(env) && CapFits(env)
    ensures TakeAction(env, s, action, frame).Ok? && Traced(env, frame, s, ms, TakeAction(env, s, action, frame).value)
    ensures CausedBy(ms, ByHardDrop) && |ms| <= (if action.HardDrop? then 1 else 0)
  {
    hide Finish, ApplyAction, Linked;
    if s.generation.Some? && (action.Hold? || action.Rotate?) {
      ms := [];
      BufferingIsTraced(env, frame, s, TakeAction(env, s, action, frame).value);
    } else {
      var finished := Finish(env, s);
      FinishSettles(env, s);
      FinishIsTraced(env, frame, s);
      ms := ActionIsTraced(env, finished, action, frame);
      TracesJoin(env, frame, s, [], finished, ms, ApplyAction(env, finished, action, frame).value);
      assert [] + ms == ms;
    }
  }

  lemma BufferingIsTraced(env: Env, frame: int, s: Sim, t: Sim)
    requires t == s.(bufferedHold := t.bufferedHold, bufferedRotation := t.bufferedRotation)
    ensures Traced(env, frame, s, [], t)
  {
  }

  lemma {:induction false} TakeActionsIsTraced(env: Env, s: Sim, actions: seq<Action>, frame: int) returns (ms: seq<Moment>)
    requires Valid(s) && frame >= 0 && RollsOk(env) && CapFits(env)
    ensures TakeActions(env, s, actions, frame).Ok? && Traced(env, frame, s, ms, TakeActions(env, s, actions, frame).value)
    ensures CausedBy(ms, ByHardDrop) && |ms| <= HardDrops(actions)
    decreases |actions|
  {
    hide Traced, TakeAction, Valid;
    ms := [];
    if actions == [] {
      BufferingIsTraced(env, frame, s, s);
    } else {
      TakeActionIsSafe(env, s, actions[0], frame);
      var t := TakeAction(env, s, actions[0], frame).value;
      var first := TakeActionIsTraced(env, s, actions[0], frame);
      var rest := TakeActionsIsTraced(env, t, actions[1..], frame);
      TracesJoin(env, frame, s, first, t, rest, TakeActions(env, t, actions[1..], frame).value);
      ms := first + rest;
    }
  }

  lemma ActionPhaseIsTraced(env: Env, s: Sim, actions: seq<Action>, frame: int) returns (ms: seq<Moment>)
    requires Valid(s) && frame >= 0 && RollsOk(env) && CapFits(env)
    ensures var r := ActionPhase(env, s, actions, frame);
            r.Ok? && Traced(env, frame, s, ms, r.value) && Valid(r.value) && r.value.generation.None?
    ensures CausedBy(ms, ByHardDrop) && |ms| <= HardDrops(actions)
  {
    hide Traced, TakeActions, Finish;
    TakeActionsIsSafe(env, s, actions, frame);
    var t := TakeActions(env, s, actions, frame).value;
    ms := TakeActionsIsTraced(env, s, actions, frame);
    FinishSettles(env, t);
    FinishIsTraced(env, frame, t);
    TracesJoin(env, frame, s, ms, t, [], Finish(env, t));
    assert ms + [] == ms;
  }

  /** The lock clock: a resting piece is locked once its delay is complete. */
  lemma AdvanceLockIsTraced(env: Env, s: Sim, frame: int) returns (ms: seq<Moment>)
    requires Valid(s) && s.generation.None? && !s.toppedOut && frame >= 0 && RollsOk(env) && CapFits(env)
    ensures var r := AdvanceLock(env, s, frame); r.Ok? && Traced(env, frame, s, ms, r.value)
    ensures CausedBy(ms, Automatic) && |ms| <= 1
  {
    hide Traced, Lock;
    ms := [];
    var ticked := WithLockFrames(s, s.lockFrames + 1);
    MovedIsTraced(env, frame, s, WithLockFrames(s, 0));
    MovedIsTraced(env, frame, s, ticked);
    if Grounded(s) && s.lockFrames + 1 >= env.rules.lockDelayFrames {
      ms := LockIsTraced(env, ticked, frame, Automatic);
      TracesJoin(env, frame, s, [], ticked, ms, Lock(env, ticked, frame, Automatic).value);
      assert [] + ms == ms;
    }
  }

  lemma ClockIsTraced(env: Env, s: Sim, frame: int) returns (ms: seq<Moment>)
    requires Valid(s) && s.generation.None? && frame >= 0 && RollsOk(env) && CapFits(env) && RulesOk(env.rules)
    ensures var r := ClockPhase(env, s, frame); r.Ok? && Traced(env, frame, s, ms, r.value)
    ensures CausedBy(ms, Automatic) && |ms| <= 1
  {
    hide Traced, AdvanceLock, ApplyGravity, RepeatHorizontal, Finish;
    ms := [];
    if s.toppedOut {
      BufferingIsTraced(env, frame, s, s);
    } else {
      var moved := ApplyGravity(env, RepeatHorizontal(env, s));
      ClockMoves(env, s);
      MovedStaysValid(s, moved);
      MovedIsTraced(env, frame, s, moved);
      AdvanceLockIsSafe(env, moved, frame);
      ms := AdvanceLockIsTraced(env, moved, frame);
      var locked := AdvanceLock(env, moved, frame).value;
      TracesJoin(env, frame, s, [], moved, ms, locked);
      FinishIsTraced(env, frame, locked);
      TracesJoin(env, frame, s, [] + ms, locked, [], Finish(env, locked));
      assert [] + ms + [] == ms;
    }
  }

  /**
   Every accepted frame is traced by the locks it reports, in order: at most one for each hard drop among the actions,
   then at most one by the clock.
   */
  lemma FrameIsTraced(env: Env, s: Sim, frame: int, actions: seq<Action>) returns (drops: seq<Moment>, last: seq<Moment>)
    requires Valid(s) && s.generation.None? && RollsOk(env) && CapFits(env) && RulesOk(env.rules)
    requires AdvanceFrame(env, s, frame, actions).Ok?
    ensures Traced(env, frame, FreshFrame(s), drops + last, AdvanceFrame(env, s, frame, actions).value.sim)
    ensures AdvanceFrame(env, s, frame, actions).value.sim.frameLocks == Summaries(drops + last)
    ensures AdvanceFrame(env, s, frame, actions).value.outgoingAttacks == AllSent(Summaries(drops + last))
    ensures CausedBy(drops, ByHardDrop) && |drops| <= HardDrops(actions)
    ensures CausedBy(last, Automatic) && |last| <= 1
  {
    hide Traced, ActionPhase, ClockPhase, TakeActions, Finish;
    drops, last := [], [];
    var begun := FreshFrame(s);
    if s.toppedOut {
      BufferingIsTraced(env, frame, begun, begun);
    } else {
      drops := ActionPhaseIsTraced(env, begun, actions, frame);
      var acted := ActionPhase(env, begun, actions, frame).value;
      last := ClockIsTraced(env, acted, frame);
      TracesJoin(env, frame, begun, drops, acted, last, ClockPhase(env, acted, frame).value);
    }
    TracedIsLinked(env, frame, begun, drops + last, AdvanceFrame(env, s, frame, actions).value.sim);
    LinkedReports(env, frame, begun, drops + last, AdvanceFrame(env, s, frame, actions).value.sim);
    assert [] + Summaries(drops + last) == Summaries(drops + last);
    OutgoingIsAllSent(Summaries(drops + last));
  }

  /** What a list of locks sends, packet by packet in the order of the locks. */
  function AllSent(locks: seq<LockSummary>): seq<nat> {
    if locks == [] then [] else locks[0].outgoingAttacks + AllSent(locks[1..])
  }

  lemma {:induction false} AllSentAppend(locks: seq<LockSummary>, l: LockSummary)
    ensures AllSent(locks + [l]) == AllSent(locks) + l.outgoingAttacks
    decreases |locks|
  {
    if locks == [] {
      assert [l][1..] == [] && l.outgoingAttacks + [] == l.outgoingAttacks == [] + l.outgoingAttacks;
    } else {
      AllSentAppend(locks[1..], l);
      assert (locks + [l])[1..] == locks[1..] + [l];
    }
  }

  lemma {:induction false} OutgoingIsAllSent(locks: seq<LockSummary>)
    ensures Outgoing(locks) == AllSent(locks)
    decreases |locks|
  {
    if locks != [] {
      OutgoingIsAllSent(locks[..|locks| - 1]);
      AllSentAppend(locks[..|locks| - 1], locks[|locks| - 1]);
      assert locks[..|locks| - 1] + [locks[|locks| - 1]] == locks;
    }
  }

  lemma TracedIsLinked(env: Env, frame: int, s: Sim, ms: seq<Moment>, t: Sim)
    requires Traced(env, frame, s, ms, t)
    ensures Linked(env, frame, s, ms, t)
  {
  }

  function Summaries(ms: seq<Moment>): seq<LockSummary> {
    seq(|ms|, i requires 0 <= i < |ms| => ms[i].outcome.summary)
  }

  lemma {:induction false} LinkedReports(env: Env, frame: int, s: Sim, ms: seq<Moment>, t: Sim)
    requires Linked(env, frame, s, ms, t)
    ensures t.frameLocks == s.frameLocks + Summaries(ms)
    decreases |ms|
  {
    hide IsLock;
    if ms == [] {
      assert s.frameLocks + [] == s.frameLocks;
    } else {
      LinkedReports(env, frame, Posted(ms[0]), ms[1..], t);
      assert Summaries(ms) == [ms[0].outcome.summary] + Summaries(ms[1..]);
    }
  }
}

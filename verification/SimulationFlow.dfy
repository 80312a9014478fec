/** Garbage only ever leaves the front of a player's queue, and every attack a player sends is positive. */
module SimulationFlow {
  import opened Wrappers
  import opened Pieces
  import opened Boards
  import opened Garbage
  import opened Attack
  import opened Rotation
  import opened Simulation
  import opened SimulationLaws

  predicate AllPositive(attacks: seq<nat>) { forall i | 0 <= i < |attacks| :: attacks[i] >= 1 }

  predicate SendsPositive(locks: seq<LockSummary>) { forall i | 0 <= i < |locks| :: AllPositive(locks[i].outgoingAttacks) }

  /** The queue keeps a suffix of its due frames, and new reports send only positive attacks. */
  predicate Flows(s: Sim, t: Sim) {
    DueLike(t.pendingGarbage, s.pendingGarbage) && (SendsPositive(s.frameLocks) ==> SendsPositive(t.frameLocks))
  }

  predicate FlowsResult(s: Sim, r: Result<Sim, Fault>) { r.Ok? ==> Flows(s, r.value) }

  lemma DueLikeTwice(ps: seq<Packet>, qs: seq<Packet>, rs: seq<Packet>)
    requires DueLike(qs, ps) && DueLike(rs, qs)
    ensures DueLike(rs, ps)
  {
    forall i | 0 <= i < |rs| ensures rs[i].appliesAtFrame == ps[i + |ps| - |rs|].appliesAtFrame {
      assert rs[i].appliesAtFrame == qs[i + |qs| - |rs|].appliesAtFrame;
    }
  }

  lemma FlowsTwice(s: Sim, t: Sim, u: Sim)
    requires Flows(s, t) && Flows(t, u)
    ensures Flows(s, u)
  {
    DueLikeTwice(s.pendingGarbage, t.pendingGarbage, u.pendingGarbage);
  }

  lemma {:induction false} TakingLeavesASuffix(ps: seq<Packet>, frame: int, room: nat)
    requires PacketsOk(ps)
    ensures DueLike(TakeReady(ps, frame, room).0, ps)
    decreases |ps|
  {
    if ps != [] && room != 0 && ps[0].appliesAtFrame <= frame && ps[0].amount <= room {
      TakingLeavesASuffix(ps[1..], frame, room - ps[0].amount);
    }
  }

  lemma {:induction false} CancellingSendsPositive(ps: seq<Packet>, attacks: seq<nat>, multiplier: Multiplier)
    requires PacketsOk(ps)
    ensures AllPositive(CancelAll(ps, attacks, multiplier).2)
    decreases |attacks|
  {
    if attacks != [] {
      CancellingSendsPositive(ps, attacks[..|attacks| - 1], multiplier);
    }
  }

  predicate OutcomeFlows(s: Sim, o: LockOutcome) {
    DueLike(o.pendingGarbage, s.pendingGarbage) && AllPositive(o.summary.outgoingAttacks)
  }

  lemma ClearingFlows(env: Env, s: Sim, kind: Kind, locked: LockResult, spin: Spin)
    requires IsBoard(locked.board) && locked.Lines() > 0 && ResolveClearing(env, s, kind, locked, spin).Ok?
    ensures OutcomeFlows(s, ResolveClearing(env, s, kind, locked, spin).value)
  {
    var attacks, multiplier := ClearingCancels(env, s, kind, locked, spin);
    CancellingLeavesASuffix(s.pendingGarbage, attacks, multiplier);
    CancellingSendsPositive(s.pendingGarbage, attacks, multiplier);
  }

  lemma LockOutcomeFlows(env: Env, s: Sim, frame: int)
    requires s.active.Some? && ResolveLock(env, s, frame).Ok?
    ensures OutcomeFlows(s, ResolveLock(env, s, frame).value)
  {
    var locked := LockPiece(s.board, s.active.value).value;
    LockingLeavesNoFullRow(s.board, s.active.value);
    var spin := ClassifySpin(s.board, s.active.value, s.lastRotation);
    if locked.Lines() > 0 {
      ClearingFlows(env, s, s.active.value.kind, locked, spin);
    } else {
      TakingLeavesASuffix(s.pendingGarbage, frame, env.rules.garbageCap);
    }
  }

  lemma AfterLockFlows(env: Env, s: Sim, o: LockOutcome, cause: SpawnCause)
    requires OutcomeFlows(s, o)
    ensures FlowsResult(s, AfterLock(env, s, o, cause))
  {
  }

  lemma LockFlows(env: Env, s: Sim, frame: int, cause: SpawnCause)
    ensures FlowsResult(s, Lock(env, s, frame, cause))
  {
    if s.active.Some? && ResolveLock(env, s, frame).Ok? {
      LockOutcomeFlows(env, s, frame);
      AfterLockFlows(env, s, ResolveLock(env, s, frame).value, cause);
    }
  }

  lemma MovedFlows(s: Sim, t: Sim)
    requires Moved(s, t)
    ensures Flows(s, t)
  {
  }

  lemma FinishLeavesTheQueue(env: Env, s: Sim)
    ensures Finish(env, s).pendingGarbage == s.pendingGarbage && Finish(env, s).frameLocks == s.frameLocks
  {
  }

  lemma SameQueueFlows(s: Sim, t: Sim)
    requires t.pendingGarbage == s.pendingGarbage && t.frameLocks == s.frameLocks
    ensures Flows(s, t)
  {
  }

  lemma FinishFlows(env: Env, s: Sim)
    ensures Flows(s, Finish(env, s))
  {
    FinishLeavesTheQueue(env, s);
    SameQueueFlows(s, Finish(env, s));
  }

  lemma HoldFlows(env: Env, s: Sim)
    ensures FlowsResult(s, PerformHold(env, s))
  {
  }

  lemma ActionFlows(env: Env, s: Sim, action: Action, frame: int)
    ensures FlowsResult(s, ApplyAction(env, s, action, frame))
  {
    if s.active.Some? && !s.toppedOut {
      match action
      case Move(side, pressed) =>
        SetHorizontalMoves(env, s, side, pressed);
        MovedFlows(s, SetHorizontal(env, s, side, pressed));
      case MoveStep(side) =>
        StepMoves(env, s, side);
        MovedFlows(s, MoveHorizontal(env, s, side));
      case MoveToWall(side) =>
        WallMoves(env, s, side);
        MovedFlows(s, MoveToTheWall(env, s, side));
      case SoftDrop(_) =>
      case SoftDropStep(cells) =>
        var n: nat := if cells > 0 then cells else 0;
        FallMoves(s, n);
        MovedFlows(s, Fall(s, n));
      case SonicDrop =>
        FloorMoves(s);
        MovedFlows(s, FallToFloor(s));
      case Rotate(direction) =>
        TurnMoves(env, s, direction);
        MovedFlows(s, Turn(env, s, direction));
      case Hold => HoldFlows(env, s);
      case HardDrop =>
        FloorMoves(s);
        MovedFlows(s, FallToFloor(s));
        LockFlows(env, FallToFloor(s), frame, ByHardDrop);
        if Lock(env, FallToFloor(s), frame, ByHardDrop).Ok? {
          FlowsTwice(s, FallToFloor(s), Lock(env, FallToFloor(s), frame, ByHardDrop).value);
        }
      case ClearHeld =>
    }
  }

  lemma TakeActionFlows(env: Env, s: Sim, action: Action, frame: int)
    ensures FlowsResult(s, TakeAction(env, s, action, frame))
  {
    var finished := Finish(env, s);
    FinishFlows(env, s);
    ActionFlows(env, finished, action, frame);
    if ApplyAction(env, finished, action, frame).Ok? {
      FlowsTwice(s, finished, ApplyAction(env, finished, action, frame).value);
    }
  }

  lemma {:induction false} TakeActionsFlows(env: Env, s: Sim, actions: seq<Action>, frame: int)
    ensures FlowsResult(s, TakeActions(env, s, actions, frame))
    decreases |actions|
  {
    if actions != [] && TakeAction(env, s, actions[0], frame).Ok? {
      var t := TakeAction(env, s, actions[0], frame).value;
      TakeActionFlows(env, s, actions[0], frame);
      TakeActionsFlows(env, t, actions[1..], frame);
      if TakeActions(env, t, actions[1..], frame).Ok? {
        FlowsTwice(s, t, TakeActions(env, t, actions[1..], frame).value);
      }
    }
  }

  lemma AdvanceLockFlows(env: Env, s: Sim, frame: int)
    requires s.active.Some?
    ensures FlowsResult(s, AdvanceLock(env, s, frame))
  {
    AdvanceLockCases(env, s, frame);
    var ticked := WithLockFrames(s, s.lockFrames + 1);
    LockFlows(env, ticked, frame, Automatic);
    if Lock(env, ticked, frame, Automatic).Ok? {
      FlowsTwice(s, ticked, Lock(env, ticked, frame, Automatic).value);
    }
  }

  lemma ClockFlows(env: Env, s: Sim, frame: int)
    requires RulesOk(env.rules)
    ensures FlowsResult(s, ClockPhase(env, s, frame))
  {
    if !s.toppedOut && s.active.Some? {
      var moved := ApplyGravity(env, RepeatHorizontal(env, s));
      ClockMoves(env, s);
      MovedFlows(s, moved);
      AdvanceLockFlows(env, moved, frame);
      if AdvanceLock(env, moved, frame).Ok? {
        var ticked := AdvanceLock(env, moved, frame).value;
        FinishFlows(env, ticked);
        FlowsTwice(s, moved, ticked);
        FlowsTwice(s, ticked, Finish(env, ticked));
      }
    }
  }

  /** A whole frame: the queue keeps a suffix of its due frames, and every attack reported is positive. */
  lemma FrameFlows(env: Env, s: Sim, frame: int, actions: seq<Action>)
    requires RulesOk(env.rules) && AdvanceFrame(env, s, frame, actions).Ok?
    ensures var r := AdvanceFrame(env, s, frame, actions).value;
            DueLike(r.sim.pendingGarbage, s.pendingGarbage) && AllPositive(r.outgoingAttacks)
  {
    var begun := FreshFrame(s);
    if !s.toppedOut {
      TakeActionsFlows(env, begun, actions, frame);
      var acted := TakeActions(env, begun, actions, frame).value;
      FinishFlows(env, acted);
      ClockFlows(env, Finish(env, acted), frame);
      var ticked := ClockPhase(env, Finish(env, acted), frame).value;
      FlowsTwice(begun, acted, Finish(env, acted));
      FlowsTwice(begun, Finish(env, acted), ticked);
      OutgoingIsPositive(ticked.frameLocks);
    }
  }

  lemma {:induction false} OutgoingIsPositive(locks: seq<LockSummary>)
    requires SendsPositive(locks)
    ensures AllPositive(Outgoing(locks))
    decreases |locks|
  {
    if locks != [] {
      OutgoingIsPositive(locks[..|locks| - 1]);
    }
  }
}

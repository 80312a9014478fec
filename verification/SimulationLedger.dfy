/** Conservation over whole runs of one player's simulation: pieces, garbage rows and attack. */
module SimulationLedger {
  import opened Wrappers
  import opened Pieces
  import opened Boards
  import opened Garbage
  import opened Attack
  import opened Rotation
  import opened Simulation
  import opened SimulationLaws

  // ---------------------------------------------------------------- books

  function Bit(b: bool): nat { if b then 1 else 0 }

  /** How many of the first `n` pieces of the shared sequence are of kind `k`. */
  function DrawnOf(env: Env, k: Kind, n: nat): nat {
    if n == 0 then 0 else DrawnOf(env, k, n - 1) + Bit(env.pieces(n - 1) == k)
  }

  function LockedOf(k: Kind, locks: seq<LockSummary>): nat {
    if locks == [] then 0 else LockedOf(k, locks[..|locks| - 1]) + Bit(locks[|locks| - 1].piece == k)
  }

  function Cancelled(locks: seq<LockSummary>): nat {
    if locks == [] then 0 else Cancelled(locks[..|locks| - 1]) + locks[|locks| - 1].cancelledGarbage
  }

  function Inserted(locks: seq<LockSummary>): nat {
    if locks == [] then 0 else Inserted(locks[..|locks| - 1]) + |locks[|locks| - 1].appliedGarbageHoles|
  }

  function Sent(locks: seq<LockSummary>): nat {
    if locks == [] then 0 else Sent(locks[..|locks| - 1]) + Sum(locks[|locks| - 1].outgoingAttacks)
  }

  /** Pieces of kind `k` in play or held: the pending or active piece, and the hold. */
  function StockOf(k: Kind, s: Sim): nat {
    (if s.generation.Some? then Bit(s.generation.value.incoming == k)
     else Bit(s.active.Some? && s.active.value.kind == k))
    + Bit(s.hold == Some(k))
  }

  /** Every piece of kind `k` drawn so far is locked, in play or held. */
  predicate PiecesBalance(env: Env, k: Kind, locks: seq<LockSummary>, s: Sim) {
    !s.toppedOut ==> DrawnOf(env, k, s.cursor) == LockedOf(k, locks) + StockOf(k, s)
  }

  /** Every queued garbage row is pending, cancelled or inserted; every attack row sent is accounted for. */
  predicate RowsBalance(locks: seq<LockSummary>, queued: int, s: Sim) {
    && Amount(s.pendingGarbage) + Cancelled(locks) + Inserted(locks) == queued
    && s.totalAttackSent == Sent(locks)
    && s.piecesPlaced == |locks|
  }

  predicate Balanced(env: Env, k: Kind, past: seq<LockSummary>, queued: int, s: Sim) {
    PiecesBalance(env, k, past + s.frameLocks, s) && RowsBalance(past + s.frameLocks, queued, s)
  }

  /** A step that raises no error and keeps the books. */
  predicate Keeps(env: Env, k: Kind, past: seq<LockSummary>, queued: int, r: Result<Sim, Fault>) {
    r.Ok? && Balanced(env, k, past, queued, r.value)
  }

  lemma BooksAppend(k: Kind, locks: seq<LockSummary>, l: LockSummary)
    ensures LockedOf(k, locks + [l]) == LockedOf(k, locks) + Bit(l.piece == k)
    ensures Cancelled(locks + [l]) == Cancelled(locks) + l.cancelledGarbage
    ensures Inserted(locks + [l]) == Inserted(locks) + |l.appliedGarbageHoles|
    ensures Sent(locks + [l]) == Sent(locks) + Sum(l.outgoingAttacks)
  {
    assert (locks + [l])[..|locks|] == locks;
  }

  // ---------------------------------------------------------------- steps

  lemma MovedKeepsBalance(env: Env, k: Kind, past: seq<LockSummary>, queued: int, s: Sim, t: Sim)
    requires Balanced(env, k, past, queued, s) && Moved(s, t)
    ensures Balanced(env, k, past, queued, t)
  {
  }

  lemma FinishKeepsPieces(env: Env, k: Kind, locks: seq<LockSummary>, s: Sim)
    requires Valid(s) && PiecesBalance(env, k, locks, s)
    ensures PiecesBalance(env, k, locks, Finish(env, s))
  {
    FinishSettles(env, s);
  }

  lemma FinishKeepsBalance(env: Env, k: Kind, past: seq<LockSummary>, queued: int, s: Sim)
    requires Valid(s) && Balanced(env, k, past, queued, s)
    ensures Balanced(env, k, past, queued, Finish(env, s))
  {
    FinishKeepsPieces(env, k, past + s.frameLocks, s);
  }

  lemma SwapKeepsPieces(env: Env, k: Kind, locks: seq<LockSummary>, s: Sim, g: Generation)
    requires s.generation.None? && s.active.Some? && !s.toppedOut && PiecesBalance(env, k, locks, s)
    requires g.incoming == Replacement(env, s)
    ensures PiecesBalance(env, k, locks, SwapHold(env, s).(generation := Some(g)))
  {
  }

  lemma HoldKeepsBalance(env: Env, k: Kind, past: seq<LockSummary>, queued: int, s: Sim)
    requires Valid(s) && s.generation.None? && !s.toppedOut && Balanced(env, k, past, queued, s)
    ensures Keeps(env, k, past, queued, PerformHold(env, s))
  {
    if s.canHold {
      var g := Generation(Replacement(env, s), false, Some(ByHold), s.allowClutchLift, false);
      var swapped := SwapHold(env, s).(generation := Some(g));
      SwapKeepsPieces(env, k, past + s.frameLocks, s, g);
      FinishKeepsBalance(env, k, past, queued, swapped);
    }
  }

  /** One lock moves rows from pending to cancelled or inserted, and adds what it sends. */
  lemma LockOutcomeBalances(env: Env, s: Sim, frame: int)
    requires s.active.Some? && ResolveLock(env, s, frame).Ok?
    ensures OutcomeBalances(s, ResolveLock(env, s, frame).value)
  {
    var piece := s.active.value;
    var locked := LockPiece(s.board, piece).value;
    LockingLeavesNoFullRow(s.board, piece);
    var spin := ClassifySpin(s.board, piece, s.lastRotation);
    if locked.Lines() > 0 {
      ClearingBalances(env, s, piece.kind, locked, spin);
    } else {
      TakingConserves(s.pendingGarbage, frame, env.rules.garbageCap);
    }
  }

  lemma ClearingBalances(env: Env, s: Sim, kind: Kind, locked: LockResult, spin: Spin)
    requires IsBoard(locked.board) && locked.Lines() > 0 && ResolveClearing(env, s, kind, locked, spin).Ok?
    ensures var o := ResolveClearing(env, s, kind, locked, spin).value;
            && Amount(o.pendingGarbage) + o.summary.cancelledGarbage == Amount(s.pendingGarbage)
            && o.totalAttackSent == s.totalAttackSent + Sum(o.summary.outgoingAttacks)
            && o.summary.piece == kind && o.summary.appliedGarbageHoles == []
  {
    var attacks, multiplier := ClearingCancels(env, s, kind, locked, spin);
    SplittingAttackIsNeutral(s.pendingGarbage, attacks, multiplier);
    CancellationConserves(s.pendingGarbage, Sum(attacks), multiplier);
  }

  /** A resolved lock's effect on the books, as facts about its outcome. */
  predicate OutcomeBalances(s: Sim, o: LockOutcome)
    requires s.active.Some?
  {
    && Amount(o.pendingGarbage) + o.summary.cancelledGarbage + |o.summary.appliedGarbageHoles| == Amount(s.pendingGarbage)
    && o.totalAttackSent == s.totalAttackSent + Sum(o.summary.outgoingAttacks)
    && o.summary.piece == s.active.value.kind
  }

  lemma AfterLockKeepsRows(env: Env, k: Kind, locks: seq<LockSummary>, queued: int, s: Sim, o: LockOutcome, cause: SpawnCause)
    requires s.generation.None? && s.active.Some? && RowsBalance(locks, queued, s) && OutcomeBalances(s, o)
    ensures var r := AfterLock(env, s, o, cause); r.Ok? && RowsBalance(locks + [o.summary], queued, r.value)
  {
    BooksAppend(k, locks, o.summary);
  }

  lemma AfterLockKeepsPieces(env: Env, k: Kind, locks: seq<LockSummary>, s: Sim, o: LockOutcome, cause: SpawnCause)
    requires s.generation.None? && s.active.Some? && !s.toppedOut && PiecesBalance(env, k, locks, s)
    requires OutcomeBalances(s, o)
    ensures var r := AfterLock(env, s, o, cause); r.Ok? && PiecesBalance(env, k, locks + [o.summary], r.value)
  {
    BooksAppend(k, locks, o.summary);
  }

  lemma AfterLockKeepsBalance(
    env: Env, k: Kind, past: seq<LockSummary>, queued: int, s: Sim, o: LockOutcome, cause: SpawnCause)
    requires s.generation.None? && s.active.Some? && !s.toppedOut && Balanced(env, k, past, queued, s)
    requires OutcomeBalances(s, o)
    ensures Keeps(env, k, past, queued, AfterLock(env, s, o, cause))
  {
    AfterLockKeepsRows(env, k, past + s.frameLocks, queued, s, o, cause);
    AfterLockKeepsPieces(env, k, past + s.frameLocks, s, o, cause);
    assert past + (s.frameLocks + [o.summary]) == (past + s.frameLocks) + [o.summary];
  }

  lemma LockKeepsBalance(env: Env, k: Kind, past: seq<LockSummary>, queued: int, s: Sim, frame: int, cause: SpawnCause)
    requires Valid(s) && s.generation.None? && !s.toppedOut && frame >= 0 && Balanced(env, k, past, queued, s)
    requires RollsOk(env) && CapFits(env)
    ensures Keeps(env, k, past, queued, Lock(env, s, frame, cause))
  {
    LockOutcomeIsSafe(env, s, frame);
    LockOutcomeBalances(env, s, frame);
    AfterLockKeepsBalance(env, k, past, queued, s, ResolveLock(env, s, frame).value, cause);
  }

  lemma ActionKeepsBalance(env: Env, k: Kind, past: seq<LockSummary>, queued: int, s: Sim, action: Action, frame: int)
    requires Valid(s) && s.generation.None? && frame >= 0 && RollsOk(env) && CapFits(env)
    requires Balanced(env, k, past, queued, s)
    ensures Keeps(env, k, past, queued, ApplyAction(env, s, action, frame))
  {
    ActionIsSafe(env, s, action, frame);
    if s.active.Some? && !s.toppedOut {
      match action
      case Move(side, pressed) =>
        SetHorizontalMoves(env, s, side, pressed);
        MovedKeepsBalance(env, k, past, queued, s, SetHorizontal(env, s, side, pressed));
      case MoveStep(side) =>
        StepMoves(env, s, side);
        MovedKeepsBalance(env, k, past, queued, s, MoveHorizontal(env, s, side));
      case MoveToWall(side) =>
        WallMoves(env, s, side);
        MovedKeepsBalance(env, k, past, queued, s, MoveToTheWall(env, s, side));
      case SoftDrop(pressed) =>
        MovedKeepsBalance(env, k, past, queued, s, s.(held := s.held.(softDrop := pressed)));
      case SoftDropStep(cells) =>
        var n: nat := if cells > 0 then cells else 0;
        FallMoves(s, n);
        MovedKeepsBalance(env, k, past, queued, s, Fall(s, n));
      case SonicDrop =>
        FloorMoves(s);
        MovedKeepsBalance(env, k, past, queued, s, FallToFloor(s));
      case Rotate(direction) =>
        TurnMoves(env, s, direction);
        MovedKeepsBalance(env, k, past, queued, s, Turn(env, s, direction));
      case Hold => HoldKeepsBalance(env, k, past, queued, s);
      case HardDrop =>
        FloorMoves(s);
        MovedStaysValid(s, FallToFloor(s));
        MovedKeepsBalance(env, k, past, queued, s, FallToFloor(s));
        LockKeepsBalance(env, k, past, queued, FallToFloor(s), frame, ByHardDrop);
      case ClearHeld => MovedKeepsBalance(env, k, past, queued, s, ClearHeldInput(s));
    } else {
      MovedKeepsBalance(env, k, past, queued, s, ClearHeldInput(s));
    }
  }

  lemma TakeActionKeepsBalance(env: Env, k: Kind, past: seq<LockSummary>, queued: int, s: Sim, action: Action, frame: int)
    requires Valid(s) && frame >= 0 && RollsOk(env) && CapFits(env) && Balanced(env, k, past, queued, s)
    ensures Keeps(env, k, past, queued, TakeAction(env, s, action, frame))
  {
    FinishSettles(env, s);
    FinishKeepsBalance(env, k, past, queued, s);
    ActionKeepsBalance(env, k, past, queued, Finish(env, s), action, frame);
  }

  lemma {:induction false} TakeActionsKeepsBalance(
    env: Env, k: Kind, past: seq<LockSummary>, queued: int, s: Sim, actions: seq<Action>, frame: int)
    requires Valid(s) && frame >= 0 && RollsOk(env) && CapFits(env) && Balanced(env, k, past, queued, s)
    ensures Keeps(env, k, past, queued, TakeActions(env, s, actions, frame))
    decreases |actions|
  {
    if actions != [] {
      TakeActionIsSafe(env, s, actions[0], frame);
      TakeActionKeepsBalance(env, k, past, queued, s, actions[0], frame);
      TakeActionsKeepsBalance(env, k, past, queued, TakeAction(env, s, actions[0], frame).value, actions[1..], frame);
    }
  }

  lemma ClockKeepsBalance(env: Env, k: Kind, past: seq<LockSummary>, queued: int, s: Sim, frame: int)
    requires Valid(s) && s.generation.None? && frame >= 0 && Balanced(env, k, past, queued, s)
    requires RollsOk(env) && CapFits(env) && RulesOk(env.rules)
    ensures Keeps(env, k, past, queued, ClockPhase(env, s, frame))
  {
    ClockIsSafe(env, s, frame);
    if !s.toppedOut {
      var moved := ApplyGravity(env, RepeatHorizontal(env, s));
      ClockMoves(env, s);
      MovedStaysValid(s, moved);
      MovedKeepsBalance(env, k, past, queued, s, moved);
      AdvanceLockKeepsBalance(env, k, past, queued, moved, frame);
      AdvanceLockIsSafe(env, moved, frame);
      FinishKeepsBalance(env, k, past, queued, AdvanceLock(env, moved, frame).value);
    }
  }

  lemma TickKeepsBalance(env: Env, k: Kind, past: seq<LockSummary>, queued: int, s: Sim, frames: int)
    requires Valid(s) && Balanced(env, k, past, queued, s)
    ensures Valid(WithLockFrames(s, frames)) && Balanced(env, k, past, queued, WithLockFrames(s, frames))
  {
  }

  lemma TickedLockKeepsBalance(env: Env, k: Kind, past: seq<LockSummary>, queued: int, s: Sim, frame: int)
    requires Valid(s) && s.generation.None? && !s.toppedOut && frame >= 0 && Balanced(env, k, past, queued, s)
    requires RollsOk(env) && CapFits(env)
    ensures Keeps(env, k, past, queued, Lock(env, WithLockFrames(s, s.lockFrames + 1), frame, Automatic))
  {
    TickKeepsBalance(env, k, past, queued, s, s.lockFrames + 1);
    LockKeepsBalance(env, k, past, queued, WithLockFrames(s, s.lockFrames + 1), frame, Automatic);
  }

  lemma AdvanceLockKeepsBalance(env: Env, k: Kind, past: seq<LockSummary>, queued: int, s: Sim, frame: int)
    requires Valid(s) && s.generation.None? && !s.toppedOut && frame >= 0 && Balanced(env, k, past, queued, s)
    requires RollsOk(env) && CapFits(env)
    ensures Keeps(env, k, past, queued, AdvanceLock(env, s, frame))
  {
    AdvanceLockCases(env, s, frame);
    TickKeepsBalance(env, k, past, queued, s, 0);
    TickKeepsBalance(env, k, past, queued, s, s.lockFrames + 1);
    TickedLockKeepsBalance(env, k, past, queued, s, frame);
  }

  lemma FrameKeepsBalance(env: Env, k: Kind, past: seq<LockSummary>, queued: int, s: Sim, frame: int, actions: seq<Action>)
    requires Valid(s) && s.generation.None? && PiecesBalance(env, k, past, s) && RowsBalance(past, queued, s)
    requires RollsOk(env) && CapFits(env) && RulesOk(env.rules)
    requires AdvanceFrame(env, s, frame, actions).Ok?
    ensures Balanced(env, k, past, queued, AdvanceFrame(env, s, frame, actions).value.sim)
  {
    var begun := FreshFrame(s);
    assert past + [] == past;
    if !s.toppedOut {
      TakeActionsIsSafe(env, begun, actions, frame);
      TakeActionsKeepsBalance(env, k, past, queued, begun, actions, frame);
      var acted := TakeActions(env, begun, actions, frame).value;
      FinishSettles(env, acted);
      FinishKeepsBalance(env, k, past, queued, acted);
      ClockKeepsBalance(env, k, past, queued, Finish(env, acted), frame);
    }
  }

  // ---------------------------------------------------------------- runs

  datatype Op = Frame(frame: int, actions: seq<Action>) | Incoming(packet: Packet) | Release

  /** A simulation together with every lock it has reported and every row queued to it. */
  datatype Book = Book(sim: Sim, locks: seq<LockSummary>, queued: int)

  function Apply(env: Env, b: Book, op: Op): Result<Book, Fault>
    requires RulesOk(env.rules)
  {
    match op
    case Frame(frame, actions) =>
      (match AdvanceFrame(env, b.sim, frame, actions)
       case Err(f) => Err(f)
       case Ok(r) => Ok(Book(r.sim, b.locks + r.sim.frameLocks, b.queued)))
    case Incoming(packet) =>
      (match QueueGarbage(b.sim, packet)
       case Err(f) => Err(f)
       case Ok(t) => Ok(Book(t, b.locks, b.queued + (if b.sim.toppedOut then 0 else packet.amount))))
    case Release => Ok(b.(sim := ClearHeldInput(b.sim)))
  }

  /** A run from a new simulation; an operation that raises an error leaves the state it found. */
  function Run(env: Env, board: FieldBoard, ops: seq<Op>): Book
    requires RulesOk(env.rules)
    decreases |ops|
  {
    if ops == [] then Book(NewSim(env, board), [], 0)
    else
      var before := Run(env, board, ops[..|ops| - 1]);
      match Apply(env, before, ops[|ops| - 1])
      case Err(_) => before
      case Ok(b) => b
  }

  /** When does an operation raise an error? Only when it is malformed in itself. */
  predicate WellFormedOp(op: Op, toppedOut: bool) {
    match op
    case Frame(frame, actions) => frame >= 1 && |actions| <= 64
    case Incoming(packet) => toppedOut || PacketOk(packet)
    case Release => true
  }

  predicate Sound(env: Env, k: Kind, b: Book) {
    && Valid(b.sim) && b.sim.generation.None?
    && PiecesBalance(env, k, b.locks, b.sim) && RowsBalance(b.locks, b.queued, b.sim)
  }

  lemma OpKeepsSound(env: Env, k: Kind, b: Book, op: Op)
    requires RollsOk(env) && CapFits(env) && RulesOk(env.rules) && Sound(env, k, b)
    ensures Apply(env, b, op).Ok? <==> WellFormedOp(op, b.sim.toppedOut)
    ensures Apply(env, b, op).Ok? ==> Sound(env, k, Apply(env, b, op).value)
  {
    match op
    case Frame(frame, actions) =>
      FramesAreSafe(env, b.sim, frame, actions);
      if frame >= 1 && |actions| <= 64 {
        FrameKeepsBalance(env, k, b.locks, b.queued, b.sim, frame, actions);
      }
    case Incoming(packet) =>
      AmountAppend(b.sim.pendingGarbage, [packet]);
      assert [packet][1..] == [];
    case Release =>
  }

  lemma NewSimBalances(env: Env, k: Kind, board: FieldBoard)
    requires NoFullRow(board)
    ensures Sound(env, k, Book(NewSim(env, board), [], 0))
  {
    NewSimIsValid(env, board);
    SearchFindsFits(env, board, env.pieces(0), None, env.rules.spawnY, HighestSpawn(env, false));
    assert DrawnOf(env, k, 1) == DrawnOf(env, k, 0) + Bit(env.pieces(0) == k);
  }

  lemma {:induction false} RunsAreSound(env: Env, k: Kind, board: FieldBoard, ops: seq<Op>)
    requires RollsOk(env) && CapFits(env) && RulesOk(env.rules) && NoFullRow(board)
    ensures Sound(env, k, Run(env, board, ops))
    decreases |ops|
  {
    if ops == [] {
      NewSimBalances(env, k, board);
    } else {
      RunsAreSound(env, k, board, ops[..|ops| - 1]);
      OpKeepsSound(env, k, Run(env, board, ops[..|ops| - 1]), ops[|ops| - 1]);
    }
  }

  /**
   On every run from a board without full rows, with a garbage cap that fits the board, an operation
   is refused only when it is malformed in itself, and a live player always has a piece that fits.
   */
  lemma RunsRaiseNoError(env: Env, board: FieldBoard, ops: seq<Op>, op: Op)
    requires RollsOk(env) && CapFits(env) && RulesOk(env.rules) && NoFullRow(board)
    ensures var b := Run(env, board, ops);
            && (Apply(env, b, op).Ok? <==> WellFormedOp(op, b.sim.toppedOut))
            && NoFullRow(b.sim.board)
            && b.sim.generation.None? && !b.sim.bufferedHold && b.sim.bufferedRotation.None?
            && (!b.sim.toppedOut ==> Fits(b.sim))
  {
    RunsAreSound(env, I, board, ops);
    OpKeepsSound(env, I, Run(env, board, ops), op);
  }

  /** The first `n` pieces of the shared sequence. */
  function FirstPieces(env: Env, n: nat): seq<Kind> { seq(n, i requires i >= 0 => env.pieces(i)) }

  /** The kinds of the locked pieces, in order. */
  function LockedKinds(locks: seq<LockSummary>): seq<Kind> {
    seq(|locks|, i requires 0 <= i < |locks| => locks[i].piece)
  }

  lemma {:induction false} DrawnIsMultiplicity(env: Env, k: Kind, n: nat)
    ensures multiset(FirstPieces(env, n))[k] == DrawnOf(env, k, n)
    decreases n
  {
    if n > 0 {
      DrawnIsMultiplicity(env, k, n - 1);
      assert FirstPieces(env, n) == FirstPieces(env, n - 1) + [env.pieces(n - 1)];
    }
  }

  lemma {:induction false} LockedIsMultiplicity(k: Kind, locks: seq<LockSummary>)
    ensures multiset(LockedKinds(locks))[k] == LockedOf(k, locks)
    decreases |locks|
  {
    if locks != [] {
      var m := |locks| - 1;
      LockedIsMultiplicity(k, locks[..m]);
      assert LockedKinds(locks) == LockedKinds(locks[..m]) + [locks[m].piece];
    }
  }

  /** The active piece and the hold. */
  function Hand(s: Sim): multiset<Kind>
    requires s.active.Some?
  {
    multiset{s.active.value.kind} + (if s.hold.Some? then multiset{s.hold.value} else multiset{})
  }

  /**
   Piece conservation: while a player is alive, the pieces drawn so far are exactly the locked ones,
   the active one and the held one; so the cursor is the placed count plus one, plus one with a hold.
   */
  lemma PiecesAreConserved(env: Env, board: FieldBoard, ops: seq<Op>)
    requires RollsOk(env) && CapFits(env) && RulesOk(env.rules) && NoFullRow(board)
    requires !Run(env, board, ops).sim.toppedOut
    ensures var b := Run(env, board, ops);
            && b.sim.active.Some?
            && multiset(FirstPieces(env, b.sim.cursor)) == multiset(LockedKinds(b.locks)) + Hand(b.sim)
            && b.sim.piecesPlaced == |b.locks|
            && b.sim.cursor == b.sim.piecesPlaced + 1 + (if b.sim.hold.Some? then 1 else 0)
  {
    var b := Run(env, board, ops);
    RunsAreSound(env, I, board, ops);
    var drawn, locked := multiset(FirstPieces(env, b.sim.cursor)), multiset(LockedKinds(b.locks));
    forall k
      ensures drawn[k] == (locked + Hand(b.sim))[k]
    {
      RunsAreSound(env, k, board, ops);
      DrawnIsMultiplicity(env, k, b.sim.cursor);
      LockedIsMultiplicity(k, b.locks);
      assert Hand(b.sim)[k] == StockOf(k, b.sim);
    }
    assert |drawn| == b.sim.cursor && |locked| == |b.locks|;
    assert drawn == locked + Hand(b.sim);
    assert |Hand(b.sim)| == 1 + (if b.sim.hold.Some? then 1 else 0);
  }

  /** Garbage conservation: every row ever queued to a player is pending, cancelled or inserted. */
  lemma GarbageIsConserved(env: Env, board: FieldBoard, ops: seq<Op>)
    requires RollsOk(env) && CapFits(env) && RulesOk(env.rules) && NoFullRow(board)
    ensures var b := Run(env, board, ops);
            && b.queued == Amount(b.sim.pendingGarbage) + Cancelled(b.locks) + Inserted(b.locks)
            && b.sim.totalAttackSent == Sent(b.locks)
  {
    RunsAreSound(env, I, board, ops);
  }
}

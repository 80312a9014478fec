/**
 The coordinator over the real simulation: which steps raise an error, and the match-wide garbage
 ledger. A player is its simulation with the book of everything it locked and was sent.
 */
module MatchLedger {
  import opened Wrappers
  import opened Pieces
  import opened Boards
  import opened Garbage
  import opened Simulation
  import opened SimulationLaws
  import opened SimulationLedger
  import opened SimulationFlow
  import opened InputQueues
  import opened MatchCoordination
  import MatchReplay
  import ReplayFidelity

  /** Both players' environments, and what the coordinator adds to a packet. */
  datatype Duel = Duel(
    first: Env, second: Env, labels: nat -> string, firstName: string, secondName: string, holes: nat -> int,
    travelFrames: nat, stateHash: (nat, Sim) -> int)

  ghost predicate EnvFits(env: Env) { RulesOk(env.rules) && CapFits(env) && RollsOk(env) }

  ghost predicate DuelOk(d: Duel) {
    && EnvFits(d.first) && EnvFits(d.second)
    && (forall n: nat :: d.labels(n) != "") && d.firstName != "" && d.secondName != ""
    && (forall n: nat :: 0 <= d.holes(n) < WIDTH)
  }

  function EnvAt(d: Duel, seat: Seat): Env { if seat.First? then d.first else d.second }

  function PacketFor(d: Duel, e: Delivery): Packet {
    Packet(d.labels(e.eventSequence), if e.source.First? then d.firstName else d.secondName, e.amount,
           e.appliesAtFrame, e.hole)
  }

  function AdvanceBook(d: Duel, seat: Seat, b: Book, frame: nat, actions: seq<Action>): Option<Advanced<Book>> {
    if !RulesOk(EnvAt(d, seat).rules) then None
    else match AdvanceFrame(EnvAt(d, seat), b.sim, frame, actions)
      case Err(_) => None
      case Ok(r) => Some(Advanced(Book(r.sim, b.locks + r.sim.frameLocks, b.queued), r.outgoingAttacks, r.toppedOut))
  }

  function QueueBook(d: Duel, b: Book, e: Delivery): Option<Book> {
    match Simulation.QueueGarbage(b.sim, PacketFor(d, e))
    case Err(_) => None
    case Ok(t) => Some(Book(t, b.locks, b.queued + (if b.sim.toppedOut then 0 else e.amount)))
  }

  function ReleaseBook(b: Book): Book { b.(sim := Simulation.ClearHeldInput(b.sim)) }

  function BookMachine(d: Duel): Machine<Book, Action> {
    Machine((seat, b, frame, actions) => AdvanceBook(d, seat, b, frame, actions), b => ReleaseBook(b),
            (_, b, e) => QueueBook(d, b, e), d.travelFrames, d.holes, (frame, b: Book) => d.stateHash(frame, b.sim))
  }

  // ---------------------------------------------------------------- one player

  predicate DueBy(ps: seq<Packet>, bound: int) { forall i | 0 <= i < |ps| :: ps[i].appliesAtFrame <= bound }

  /** A live player whose books balance and whose queue is sorted by due frame. */
  predicate PlayerOk(env: Env, b: Book, bound: int) {
    && Sound(env, I, b) && SortedByDueFrame(b.sim.pendingGarbage) && DueBy(b.sim.pendingGarbage, bound)
  }

  lemma SuffixStaysSorted(rest: seq<Packet>, ps: seq<Packet>, bound: int)
    requires DueLike(rest, ps) && SortedByDueFrame(ps) && DueBy(ps, bound)
    ensures SortedByDueFrame(rest) && DueBy(rest, bound)
  {
    var shift := |ps| - |rest|;
    assert forall i | 0 <= i < |rest| :: rest[i].appliesAtFrame == ps[i + shift].appliesAtFrame;
  }

  lemma {:induction false} TotalAppend(xs: seq<nat>, ys: seq<nat>)
    ensures Total(xs + ys) == Total(xs) + Total(ys)
    decreases |xs|
  {
    if xs == [] {
      assert xs + ys == ys;
    } else {
      assert (xs + ys)[1..] == xs[1..] + ys;
      TotalAppend(xs[1..], ys);
    }
  }

  lemma {:induction false} SumIsTotal(xs: seq<nat>)
    ensures Sum(xs) == Total(xs)
    decreases |xs|
  {
    if xs != [] {
      SumIsTotal(xs[..|xs| - 1]);
      TotalAppend(xs[..|xs| - 1], [xs[|xs| - 1]]);
      assert xs[..|xs| - 1] + [xs[|xs| - 1]] == xs;
      assert [xs[|xs| - 1]][1..] == [];
    }
  }

  lemma {:induction false} OutgoingIsSent(locks: seq<LockSummary>)
    ensures Total(Outgoing(locks)) == Sent(locks)
    decreases |locks|
  {
    if locks != [] {
      var last := locks[|locks| - 1].outgoingAttacks;
      OutgoingIsSent(locks[..|locks| - 1]);
      TotalAppend(Outgoing(locks[..|locks| - 1]), last);
      SumIsTotal(last);
    }
  }

  lemma {:induction false} SentAppend(locks: seq<LockSummary>, more: seq<LockSummary>)
    ensures Sent(locks + more) == Sent(locks) + Sent(more)
    decreases |more|
  {
    if more == [] {
      assert locks + more == locks;
    } else {
      assert (locks + more)[..|locks + more| - 1] == locks + more[..|more| - 1];
      SentAppend(locks, more[..|more| - 1]);
    }
  }

  lemma PlayerAdvances(d: Duel, seat: Seat, b: Book, frame: nat, actions: seq<Action>, bound: int)
    requires DuelOk(d) && PlayerOk(EnvAt(d, seat), b, bound) && !b.sim.toppedOut && frame >= 1
    ensures AdvanceBook(d, seat, b, frame, actions).Some? <==> |actions| <= 64
    ensures |actions| <= 64 ==>
              var r := AdvanceBook(d, seat, b, frame, actions).value;
              && PlayerOk(EnvAt(d, seat), r.player, bound)
              && AllPositive(r.outgoing)
              && r.player.sim.totalAttackSent == b.sim.totalAttackSent + Total(r.outgoing)
              && r.player.queued == b.queued
              && r.toppedOut == r.player.sim.toppedOut
  {
    var env := EnvAt(d, seat);
    OpKeepsSound(env, I, b, Frame(frame, actions));
    if |actions| <= 64 {
      var r := AdvanceFrame(env, b.sim, frame, actions).value;
      FrameFlows(env, b.sim, frame, actions);
      SuffixStaysSorted(r.sim.pendingGarbage, b.sim.pendingGarbage, bound);
      SentAppend(b.locks, r.sim.frameLocks);
      OutgoingIsSent(r.sim.frameLocks);
      ReportsMatch(env, b.sim, frame, actions);
    }
  }

  /** A frame reports exactly the attacks of its locks, and whether the player is out. */
  lemma ReportsMatch(env: Env, s: Sim, frame: int, actions: seq<Action>)
    requires RulesOk(env.rules) && AdvanceFrame(env, s, frame, actions).Ok?
    ensures var r := AdvanceFrame(env, s, frame, actions).value;
            r.outgoingAttacks == Outgoing(r.sim.frameLocks) && r.toppedOut == r.sim.toppedOut
  {
  }

  lemma PlayerReceives(d: Duel, seat: Seat, b: Book, e: Delivery)
    requires DuelOk(d) && PlayerOk(EnvAt(d, seat), b, e.appliesAtFrame) && e.amount >= 1 && 0 <= e.hole < WIDTH
    ensures QueueBook(d, b, e).Some?
    ensures var t := QueueBook(d, b, e).value;
            && PlayerOk(EnvAt(d, seat), t, e.appliesAtFrame)
            && t.queued == b.queued + (if b.sim.toppedOut then 0 else e.amount)
            && t.sim.totalAttackSent == b.sim.totalAttackSent && t.sim.toppedOut == b.sim.toppedOut
  {
    OpKeepsSound(EnvAt(d, seat), I, b, Incoming(PacketFor(d, e)));
  }

  // ---------------------------------------------------------------- both players

  ghost predicate PlayersOk(d: Duel, m: Match<Book, Action>, bound: int) {
    PlayerOk(d.first, m.first, bound) && PlayerOk(d.second, m.second, bound)
  }

  /** `t` is `b` with rows queued to it, unless the player was out. */
  predicate Received(b: Book, t: Book, rows: nat) {
    && t.queued == b.queued + (if b.sim.toppedOut then 0 else rows)
    && t.sim.totalAttackSent == b.sim.totalAttackSent && t.sim.toppedOut == b.sim.toppedOut
  }

  /** `t` is `m` with rows queued from one player to the other. */
  ghost predicate Sends(d: Duel, m: Match<Book, Action>, t: Match<Book, Action>, source: Seat, rows: nat) {
    && PlayersOk(d, t, m.frame + d.travelFrames) && t.frame == m.frame && t.ending == m.ending
    && PlayerAt(t, source) == PlayerAt(m, source)
    && Received(PlayerAt(m, Opposite(source)), PlayerAt(t, Opposite(source)), rows)
  }

  lemma PacketIsQueued(d: Duel, setup: Setup<Book, Action>, m: Match<Book, Action>, source: Seat, amount: nat)
    requires DuelOk(d) && setup.machine == BookMachine(d)
    requires PlayersOk(d, m, m.frame + d.travelFrames) && amount >= 1
    ensures Deliver(setup, m, source, amount).Some?
    ensures Sends(d, m, Deliver(setup, m, source, amount).value, source, amount)
  {
    PlayerReceives(d, Opposite(source), PlayerAt(m, Opposite(source)), NextDelivery(setup, m, source, amount));
  }

  lemma {:induction false} PacketsAreQueued(
    d: Duel, setup: Setup<Book, Action>, m: Match<Book, Action>, source: Seat, packets: seq<nat>)
    returns (t: Match<Book, Action>)
    requires DuelOk(d) && setup.machine == BookMachine(d)
    requires PlayersOk(d, m, m.frame + d.travelFrames) && AllPositive(packets)
    ensures QueuePackets(setup, m, source, packets) == Some(t)
    ensures Sends(d, m, t, source, Total(packets))
    decreases |packets|
  {
    hide PlayerOk, Deliver;
    t := m;
    if packets != [] {
      PacketIsQueued(d, setup, m, source, packets[0]);
      t := PacketsAreQueued(d, setup, Deliver(setup, m, source, packets[0]).value, source, packets[1..]);
    }
  }

  /** A frame hands a player more actions than one frame may hold. */
  predicate Crowded(setup: Setup<Book, Action>, m: Match<Book, Action>)
    requires TwoPlayers(setup.participants)
  {
    || |Actions(DueInputs(m), setup.participants[0])| > 64
    || |Actions(DueInputs(m), setup.participants[1])| > 64
  }

  /**
   The books of an unfinished match: both players are alive and balanced, their queues are sorted, and the
   attack each has sent exceeds what the other was sent by the same amount, which is what netting removed.
   */
  ghost predicate Booked(d: Duel, m: Match<Book, Action>) {
    && PlayersOk(d, m, m.frame + d.travelFrames)
    && !m.first.sim.toppedOut && !m.second.sim.toppedOut
    && m.first.sim.totalAttackSent - m.second.queued == m.second.sim.totalAttackSent - m.first.queued
  }

  /** Netting and queueing what both sent keeps the balance between the players. */
  lemma ExchangeIsBooked(d: Duel, setup: Setup<Book, Action>, m: Match<Book, Action>, x: seq<nat>, y: seq<nat>)
    returns (t: Match<Book, Action>, u: Match<Book, Action>)
    requires DuelOk(d) && setup.machine == BookMachine(d) && PlayersOk(d, m, m.frame + d.travelFrames)
    requires AllPositive(x) && AllPositive(y)
    requires m.first.sim.totalAttackSent - Total(x) - m.second.queued == m.second.sim.totalAttackSent - Total(y) - m.first.queued
    ensures QueuePackets(setup, m, First, Net(x, y).0) == Some(t) && QueuePackets(setup, t, Second, Net(x, y).1) == Some(u)
    ensures u.frame == m.frame && u.ending == m.ending
    ensures u.first.sim.toppedOut == m.first.sim.toppedOut && u.second.sim.toppedOut == m.second.sim.toppedOut
    ensures !m.first.sim.toppedOut && !m.second.sim.toppedOut ==> Booked(d, u)
  {
    hide PlayerOk, EnvFits, Net, QueuePackets, Total;
    NettingIsFair(x, y);
    t := PacketsAreQueued(d, setup, m, First, Net(x, y).0);
    u := PacketsAreQueued(d, setup, t, Second, Net(x, y).1);
  }

  lemma PlayIsBooked(d: Duel, setup: Setup<Book, Action>, m: Match<Book, Action>, a: seq<Action>, b: seq<Action>)
    requires DuelOk(d) && setup.machine == BookMachine(d) && m.frame >= 1 && m.ending.None?
    requires Booked(d, m)
    ensures Play(setup, m, a, b).Some? <==> |a| <= 64 && |b| <= 64
    ensures Play(setup, m, a, b).Some? ==>
              var (t, firstOut, secondOut) := Play(setup, m, a, b).value;
              && t.frame == m.frame && t.ending.None? && (!firstOut && !secondOut ==> Booked(d, t))
              && firstOut == t.first.sim.toppedOut && secondOut == t.second.sim.toppedOut
  {
    hide PlayerOk, EnvFits, Net, QueuePackets, AdvanceBook, Total;
    var bound := m.frame + d.travelFrames;
    PlayerAdvances(d, First, m.first, m.frame, a, bound);
    PlayerAdvances(d, Second, m.second, m.frame, b, bound);
    if |a| <= 64 && |b| <= 64 {
      var x, y := AdvanceBook(d, First, m.first, m.frame, a).value, AdvanceBook(d, Second, m.second, m.frame, b).value;
      var _, _ := ExchangeIsBooked(d, setup, m.(first := x.player, second := y.player), x.outgoing, y.outgoing);
    }
  }

  lemma ConclusionIsBooked(d: Duel, setup: Setup<Book, Action>, m: Match<Book, Action>)
    requires Booked(d, m)
    ensures Booked(d, Conclude(setup, m, false, false))
  {
  }

  lemma LaterBound(d: Duel, m: Match<Book, Action>)
    requires Booked(d, m)
    ensures Booked(d, Begin(m))
  {
  }

  lemma FrameIsBooked(d: Duel, setup: Setup<Book, Action>, m: Match<Book, Action>)
    requires DuelOk(d) && setup.machine == BookMachine(d) && TwoPlayers(setup.participants)
    requires m.ending.None? && Booked(d, m)
    ensures AdvanceOneFrame(setup, m).Err? <==> Crowded(setup, m)
    ensures AdvanceOneFrame(setup, m).Ok? && AdvanceOneFrame(setup, m).value.ending.None? ==>
              Booked(d, AdvanceOneFrame(setup, m).value)
  {
    hide Booked, Play;
    var due := DueInputs(m);
    LaterBound(d, m);
    var a, b := Actions(due, setup.participants[0]), Actions(due, setup.participants[1]);
    PlayIsBooked(d, setup, Begin(m), a, b);
    if Play(setup, Begin(m), a, b).Some? {
      var (t, firstOut, secondOut) := Play(setup, Begin(m), a, b).value;
      if !firstOut && !secondOut {
        ConclusionIsBooked(d, setup, t);
      }
    }
  }

  // ---------------------------------------------------------------- runs

  function Start(env: Env, board: FieldBoard): Book { Book(NewSim(env, board), [], 0) }

  /** A match both players begin alive, from boards without full rows. */
  ghost predicate MatchOk(d: Duel, setup: Setup<Book, Action>, firstBoard: FieldBoard, secondBoard: FieldBoard) {
    && DuelOk(d) && setup.machine == BookMachine(d) && TwoPlayers(setup.participants)
    && NoFullRow(firstBoard) && NoFullRow(secondBoard)
    && !NewSim(d.first, firstBoard).toppedOut && !NewSim(d.second, secondBoard).toppedOut
  }

  function RunDuel(
    d: Duel, setup: Setup<Book, Action>, firstBoard: FieldBoard, secondBoard: FieldBoard, ops: seq<MatchReplay.MatchOp<Action>>)
    : MatchReplay.Recording<Book, Action>
    requires TwoPlayers(setup.participants)
  {
    MatchReplay.RunMatch(setup, Start(d.first, firstBoard), Start(d.second, secondBoard), ops)
  }

  /** The `i`-th request advances an unfinished match into a frame that is handed too many actions. */
  ghost predicate CrowdedAt(
    d: Duel, setup: Setup<Book, Action>, firstBoard: FieldBoard, secondBoard: FieldBoard,
    ops: seq<MatchReplay.MatchOp<Action>>, i: nat)
    requires TwoPlayers(setup.participants) && i < |ops|
  {
    var r := RunDuel(d, setup, firstBoard, secondBoard, ops[..i]);
    ops[i].Advance? && r.m.ending.None? && Crowded(setup, r.m)
  }

  ghost predicate EverCrowded(
    d: Duel, setup: Setup<Book, Action>, firstBoard: FieldBoard, secondBoard: FieldBoard,
    ops: seq<MatchReplay.MatchOp<Action>>)
    requires TwoPlayers(setup.participants)
  {
    exists i: nat :: i < |ops| && CrowdedAt(d, setup, firstBoard, secondBoard, ops, i)
  }

  lemma EverCrowdedGrows(
    d: Duel, setup: Setup<Book, Action>, firstBoard: FieldBoard, secondBoard: FieldBoard,
    ops: seq<MatchReplay.MatchOp<Action>>)
    requires TwoPlayers(setup.participants) && ops != []
    ensures var m := |ops| - 1;
            EverCrowded(d, setup, firstBoard, secondBoard, ops)
            <==> EverCrowded(d, setup, firstBoard, secondBoard, ops[..m]) || CrowdedAt(d, setup, firstBoard, secondBoard, ops, m)
  {
    var m := |ops| - 1;
    forall i: nat | i < m
      ensures CrowdedAt(d, setup, firstBoard, secondBoard, ops, i) <==> CrowdedAt(d, setup, firstBoard, secondBoard, ops[..m], i)
    {
      assert ops[..m][..i] == ops[..i];
    }
  }

  lemma ReleaseIsBooked(d: Duel, setup: Setup<Book, Action>, m: Match<Book, Action>, seat: Seat)
    requires DuelOk(d) && setup.machine == BookMachine(d) && Booked(d, m)
    ensures Booked(d, MatchCoordination.ClearHeldInput(setup, m, seat))
  {
    OpKeepsSound(EnvAt(d, seat), I, PlayerAt(m, seat), Release);
  }

  lemma QueueIsNotBooked(d: Duel, m: Match<Book, Action>, q: InputQueues.Queue<Action>)
    requires Booked(d, m)
    ensures Booked(d, m.(queue := q))
  {
  }

  lemma OpIsBooked(d: Duel, setup: Setup<Book, Action>, r: MatchReplay.Recording<Book, Action>, op: MatchReplay.MatchOp<Action>)
    requires DuelOk(d) && setup.machine == BookMachine(d) && TwoPlayers(setup.participants)
    requires r.m.ending.None? && !r.threw && Booked(d, r.m)
    ensures var t := MatchReplay.TakeOp(setup, r, op);
            && (t.threw <==> op.Advance? && Crowded(setup, r.m))
            && (t.m.ending.None? ==> Booked(d, t.m))
  {
    hide Booked, Crowded, AdvanceOneFrame, Reset, Enqueued;
    match op
    case Advance => FrameIsBooked(d, setup, r.m);
    case SubmitInput(envelope) => QueueIsNotBooked(d, r.m, Enqueued(r.m.queue, envelope, r.m.frame).0);
    case Release(id) =>
      if SeatOf(setup, id).Some? {
        ReleaseIsBooked(d, setup, r.m, SeatOf(setup, id).value);
      }
    case RestartInput(id) =>
      if SeatOf(setup, id).Some? && id in r.m.queue.players {
        ReleaseIsBooked(d, setup, r.m, SeatOf(setup, id).value);
        QueueIsNotBooked(d, MatchCoordination.ClearHeldInput(setup, r.m, SeatOf(setup, id).value), Reset(r.m.queue, id));
      }
    case Forfeited(_, _) =>
    case Abort =>
  }

  /** What holds at every point of a run. */
  ghost predicate BookedSoFar(
    d: Duel, setup: Setup<Book, Action>, firstBoard: FieldBoard, secondBoard: FieldBoard,
    ops: seq<MatchReplay.MatchOp<Action>>)
    requires TwoPlayers(setup.participants)
  {
    var r := RunDuel(d, setup, firstBoard, secondBoard, ops);
    && (r.m.ending.None? ==> Booked(d, r.m) && !r.threw)
    && (r.threw <==> EverCrowded(d, setup, firstBoard, secondBoard, ops))
  }

  lemma FreshMatchesAreBooked(d: Duel, setup: Setup<Book, Action>, firstBoard: FieldBoard, secondBoard: FieldBoard)
    requires MatchOk(d, setup, firstBoard, secondBoard)
    ensures BookedSoFar(d, setup, firstBoard, secondBoard, [])
  {
    NewSimBalances(d.first, I, firstBoard);
    NewSimBalances(d.second, I, secondBoard);
  }

  lemma OneMoreIsBooked(
    d: Duel, setup: Setup<Book, Action>, firstBoard: FieldBoard, secondBoard: FieldBoard,
    ops: seq<MatchReplay.MatchOp<Action>>)
    requires MatchOk(d, setup, firstBoard, secondBoard) && ops != []
    requires BookedSoFar(d, setup, firstBoard, secondBoard, ops[..|ops| - 1])
    ensures BookedSoFar(d, setup, firstBoard, secondBoard, ops)
  {
    hide Booked, Crowded, EverCrowded, BookMachine, NewSim, NoFullRow;
    var r := RunDuel(d, setup, firstBoard, secondBoard, ops[..|ops| - 1]);
    EverCrowdedGrows(d, setup, firstBoard, secondBoard, ops);
    if r.m.ending.None? {
      OpIsBooked(d, setup, r, ops[|ops| - 1]);
    }
  }

  lemma {:induction false} RunsAreBooked(
    d: Duel, setup: Setup<Book, Action>, firstBoard: FieldBoard, secondBoard: FieldBoard,
    ops: seq<MatchReplay.MatchOp<Action>>)
    requires MatchOk(d, setup, firstBoard, secondBoard)
    ensures BookedSoFar(d, setup, firstBoard, secondBoard, ops)
    decreases |ops|
  {
    hide BookedSoFar, NewSim, NoFullRow, BookMachine;
    if ops == [] {
      FreshMatchesAreBooked(d, setup, firstBoard, secondBoard);
    } else {
      RunsAreBooked(d, setup, firstBoard, secondBoard, ops[..|ops| - 1]);
      OneMoreIsBooked(d, setup, firstBoard, secondBoard, ops);
    }
  }

  /**
   The match-wide garbage ledger, at every point of an unfinished match: each player's queue is sorted by due
   frame, everything ever queued to it is pending, cancelled or inserted, everything its locks sent is on its
   account, and per-frame netting has taken equal amounts from both.
   */
  lemma GarbageLedger(
    d: Duel, setup: Setup<Book, Action>, firstBoard: FieldBoard, secondBoard: FieldBoard,
    ops: seq<MatchReplay.MatchOp<Action>>)
    requires MatchOk(d, setup, firstBoard, secondBoard)
    requires RunDuel(d, setup, firstBoard, secondBoard, ops).m.ending.None?
    ensures var m := RunDuel(d, setup, firstBoard, secondBoard, ops).m;
            && PlayerLedger(m.first) && PlayerLedger(m.second)
            && m.first.sim.totalAttackSent - m.second.queued == m.second.sim.totalAttackSent - m.first.queued
  {
    RunsAreBooked(d, setup, firstBoard, secondBoard, ops);
  }

  predicate PlayerLedger(b: Book) {
    && SortedByDueFrame(b.sim.pendingGarbage)
    && b.queued == Amount(b.sim.pendingGarbage) + Cancelled(b.locks) + Inserted(b.locks)
    && b.sim.totalAttackSent == Sent(b.locks)
    && b.sim.piecesPlaced == |b.locks|
  }

  /**
   Within any frame of an unfinished match, a lock that clears nothing inserts exactly the ready rows of the
   queue, up to the cap: no packet waits behind one that is not due.
   */
  lemma ReadyRowsAreInserted(
    d: Duel, setup: Setup<Book, Action>, firstBoard: FieldBoard, secondBoard: FieldBoard,
    ops: seq<MatchReplay.MatchOp<Action>>, seat: Seat, actions: seq<Action>, u: Sim, s: Sim, frame: nat)
    requires MatchOk(d, setup, firstBoard, secondBoard)
    requires RunDuel(d, setup, firstBoard, secondBoard, ops).m.ending.None?
    requires frame == RunDuel(d, setup, firstBoard, secondBoard, ops).m.frame + 1
    requires TakeActions(EnvAt(d, seat), FreshFrame(PlayerAt(RunDuel(d, setup, firstBoard, secondBoard, ops).m, seat).sim),
                         actions, frame) == Ok(u)
    requires s.pendingGarbage == u.pendingGarbage && s.active.Some?
    ensures ResolveLock(EnvAt(d, seat), s, frame).Ok? && ResolveLock(EnvAt(d, seat), s, frame).value.summary.lines == 0 ==>
              |ResolveLock(EnvAt(d, seat), s, frame).value.summary.appliedGarbageHoles|
              == Garbage.Min(EnvAt(d, seat).rules.garbageCap, ReadyAmount(s.pendingGarbage, frame))
  {
    RunsAreBooked(d, setup, firstBoard, secondBoard, ops);
    QueueIsSorted(d, RunDuel(d, setup, firstBoard, secondBoard, ops).m, seat, actions, u, frame);
    if ResolveLock(EnvAt(d, seat), s, frame).Ok? && ResolveLock(EnvAt(d, seat), s, frame).value.summary.lines == 0 {
      PlainLockTakesReadyRows(EnvAt(d, seat), s, frame);
      SortedQueuesGiveAllReadyRows(s.pendingGarbage, frame, EnvAt(d, seat).rules.garbageCap);
    }
  }

  lemma QueueIsSorted(d: Duel, m: Match<Book, Action>, seat: Seat, actions: seq<Action>, u: Sim, frame: nat)
    requires Booked(d, m) && TakeActions(EnvAt(d, seat), FreshFrame(PlayerAt(m, seat).sim), actions, frame) == Ok(u)
    ensures SortedByDueFrame(u.pendingGarbage)
  {
    var begun := FreshFrame(PlayerAt(m, seat).sim);
    TakeActionsFlows(EnvAt(d, seat), begun, actions, frame);
    SuffixStaysSorted(u.pendingGarbage, begun.pendingGarbage, m.frame + d.travelFrames);
  }

  lemma PlainLockTakesReadyRows(env: Env, s: Sim, frame: int)
    requires s.active.Some? && ResolveLock(env, s, frame).Ok? && ResolveLock(env, s, frame).value.summary.lines == 0
    requires env.rules.garbageCap >= 0
    ensures ResolveLock(env, s, frame).value.summary.appliedGarbageHoles
         == TakeReady(s.pendingGarbage, frame, env.rules.garbageCap).1
  {
    LockingLeavesNoFullRow(s.board, s.active.value);
  }

  /**
   Replay fidelity for real matches: a finished match reconstructs from its log if and only if none of its
   frames was ever handed more than sixty-four actions of one player.
   */
  lemma MatchesReplayUnlessCrowded(
    d: Duel, setup: Setup<Book, Action>, firstBoard: FieldBoard, secondBoard: FieldBoard,
    ops: seq<MatchReplay.MatchOp<Action>>)
    requires MatchOk(d, setup, firstBoard, secondBoard)
    requires RunDuel(d, setup, firstBoard, secondBoard, ops).m.ending.Some?
    ensures var r := RunDuel(d, setup, firstBoard, secondBoard, ops);
            && r.log.Ok?
            && var replayed := MatchReplay.Reconstruct(setup, Start(d.first, firstBoard), Start(d.second, secondBoard),
                                                       r.log.value.entries, r.m.ending.value);
               (replayed.Ok? <==> !EverCrowded(d, setup, firstBoard, secondBoard, ops))
  {
    RunsAreBooked(d, setup, firstBoard, secondBoard, ops);
    ReplayFidelity.ReplaysReproduceTheMatch(setup, Start(d.first, firstBoard), Start(d.second, secondBoard), ops);
  }
}

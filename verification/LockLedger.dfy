/**
 What a player's locks send, read off the log of the locks alone: the back-to-back chain, the combo, the attack each
 clear is worth, how much of it the queued garbage takes, and how many cells are on the board.
 */
module LockLedger {
  import opened Wrappers
  import opened Pieces
  import opened Boards
  import opened Garbage
  import opened GarbageRows
  import opened Attack
  import opened Rotation
  import opened Simulation
  import opened SimulationLaws
  import opened SimulationLedger
  import opened SimulationTraces

  // ---------------------------------------------------------------- the log

  /** Four lines, a spin or an emptied board make a clear difficult. */
  predicate Difficult(l: LockSummary) { l.lines == 4 || l.spin != NoSpin || l.perfectClear }

  /** The difficult clears since the last easy one; locks that clear nothing do not count and do not interrupt. */
  function Chain(locks: seq<LockSummary>): nat {
    if locks == [] then 0
    else
      var past, l := locks[..|locks| - 1], locks[|locks| - 1];
      if l.lines == 0 then Chain(past) else if Difficult(l) then Chain(past) + 1 else 0
  }

  /** The first difficult clear of a chain is not shown. */
  function Shown(chain: nat): nat { if chain <= 1 then 0 else chain - 1 }

  /** The clears in a row that end the log. */
  function Clears(locks: seq<LockSummary>): nat {
    if locks == [] then 0
    else if locks[|locks| - 1].lines == 0 then 0
    else Clears(locks[..|locks| - 1]) + 1
  }

  function Lines(locks: seq<LockSummary>): nat {
    if locks == [] then 0 else Lines(locks[..|locks| - 1]) + locks[|locks| - 1].lines
  }

  function GarbageLines(locks: seq<LockSummary>): nat {
    if locks == [] then 0 else GarbageLines(locks[..|locks| - 1]) + locks[|locks| - 1].clearedGarbageLines
  }

  // ---------------------------------------------------------------- what a clear is worth

  const PLAIN_TABLE: seq<nat> := [0, 0, 1, 2, 4]

  const FULL_SPIN_TABLE: seq<nat> := [0, 2, 4, 6, 10]

  /** The table's attack, and one more within a chain. */
  function Base(past: seq<LockSummary>, l: LockSummary): nat {
    (if l.lines > 4 then 0 else if l.spin == FullSpin then FULL_SPIN_TABLE[l.lines] else PLAIN_TABLE[l.lines])
    + (if Difficult(l) && Chain(past) > 0 then 1 else 0)
  }

  /** A quarter more per clear before in the combo; nothing grows logarithmically from the second on. */
  function Scaled(env: Env, past: seq<LockSummary>, l: LockSummary): real {
    var combo := Clears(past);
    if Base(past, l) > 0 then Base(past, l) as real * ((4 + combo) as real / 4.0)
    else if combo < 2 || env.logScale(combo) < 0.0 then 0.0
    else env.logScale(combo)
  }

  predicate Whole(x: real) { x.Floor as real == x }

  /** The clears whose scaled attack had a fraction: each has used one roll. */
  function Rolled(env: Env, locks: seq<LockSummary>): nat {
    if locks == [] then 0
    else
      var past, l := locks[..|locks| - 1], locks[|locks| - 1];
      if l.lines == 0 || Whole(Scaled(env, past, l)) then Rolled(env, past) else Rolled(env, past) + 1
  }

  /** The least whole number that is not below the scaled attack by more than the roll. */
  function Rounded(env: Env, past: seq<LockSummary>, l: LockSummary): int {
    var x := Scaled(env, past, l);
    if Whole(x) then x.Floor else -((env.rolls(Rolled(env, past)) - x).Floor)
  }

  function ClearWorth(env: Env, past: seq<LockSummary>, l: LockSummary): int {
    Rounded(env, past, l) + (if l.perfectClear then 5 else 0)
    + (if (l.lines == 4 || l.spin != NoSpin) && l.clearedGarbageLines > 0 then 1 else 0)
  }

  /** An easy clear releases a chain that is shown as four or more. */
  function SurgeWorth(past: seq<LockSummary>, l: LockSummary): nat {
    if !Difficult(l) && Shown(Chain(past)) >= 4 then Shown(Chain(past)) else 0
  }

  /** The packets a clear sends before cancellation: its own attack, and a surge in three nearly equal parts. */
  function Packets(env: Env, past: seq<LockSummary>, l: LockSummary): seq<int> {
    var surge := SurgeWorth(past, l);
    [ClearWorth(env, past, l)] + (if surge == 0 then [] else [(surge + 2) / 3, (surge + 1) / 3, surge / 3])
  }

  /** The rows of garbage that have left the queue, one way or the other. */
  function Consumed(past: seq<LockSummary>): nat { Cancelled(past) + Inserted(past) }

  /** The rows that wait when `queued` rows were ever queued. */
  function Waiting(past: seq<LockSummary>, queued: int): int { queued - Consumed(past) }

  /** During the first fourteen pieces, and while more waits than was ever sent, an attack row cancels two. */
  function RowsPerAttack(past: seq<LockSummary>, queued: int): int {
    if |past| < 14 && Waiting(past, queued) > Sent(past) then 2 else 1
  }

  /** The cells on a board that began with `cells` of them. */
  function CellsLeft(cells: int, locks: seq<LockSummary>): int {
    cells + 4 * |locks| - 10 * Lines(locks) + 9 * Inserted(locks)
  }

  /**
   What the log says of a lock at a frame, given the locks before it, the garbage rows queued by then and the cells the
   board began with. A lock that clears nothing sends nothing and brings in the first rows that wait, as many as are due.
   */
  predicate LockLaw(
    env: Env, cells: int, past: seq<LockSummary>, l: LockSummary, rows: seq<Due>, frame: int)
  {
    && l.combo == Clears(past + [l]) - 1
    && l.backToBack == Shown(Chain(past + [l]))
    && Consumed(past) <= |rows|
    && (if l.lines == 0 then PlainLaw(env, past, l, rows, frame) else ClearLaw(env, cells, past, l, |rows|))
  }

  predicate PlainLaw(env: Env, past: seq<LockSummary>, l: LockSummary, rows: seq<Due>, frame: int)
    requires Consumed(past) <= |rows|
  {
    && l.outgoingAttacks == [] && l.cancelledGarbage == 0 && !l.perfectClear && l.clearedGarbageLines == 0
    && TakesAllDue(rows[Consumed(past)..], frame, env.rules.garbageCap, l.appliedGarbageHoles)
  }

  /** A clear cancels all it can, sends the rest packet by packet, and is perfect when it leaves no cell. */
  predicate ClearLaw(env: Env, cells: int, past: seq<LockSummary>, l: LockSummary, queued: int) {
    && l.lines <= 4 && l.appliedGarbageHoles == [] && Paid(env, past, l, queued)
    && (l.perfectClear <==> CellsLeft(cells, past + [l]) == 0)
  }

  predicate Paid(env: Env, past: seq<LockSummary>, l: LockSummary, queued: int) {
    var worth := ClearWorth(env, past, l) + SurgeWorth(past, l);
    var rows := RowsPerAttack(past, queued);
    && l.cancelledGarbage == Garbage.Min(worth * rows, Waiting(past, queued))
    && Sum(l.outgoingAttacks) + (l.cancelledGarbage + rows - 1) / rows == worth
    && l.outgoingAttacks == Unspent(Packets(env, past, l), (l.cancelledGarbage + rows - 1) / rows)
  }

  // ---------------------------------------------------------------- one clear

  lemma TableIsBase(lines: nat, spin: Spin)
    requires 1 <= lines <= 4
    ensures BaseAttack(lines, spin) == if spin == FullSpin then FULL_SPIN_TABLE[lines] else PLAIN_TABLE[lines]
  {
  }

  /** The state's counters are those of the log. */
  predicate Accounts(env: Env, locks: seq<LockSummary>, rows: seq<Due>, s: Sim) {
    && s.combo == Clears(locks) - 1 && s.streak == Chain(locks) && s.rollCursor == Rolled(env, locks)
    && s.piecesPlaced == |locks| && s.totalAttackSent == Sent(locks)
    && Consumed(locks) <= |rows| && Unrolled(s.pendingGarbage) == rows[Consumed(locks)..]
  }

  predicate IsEvent(e: ClearEvent, past: seq<LockSummary>, l: LockSummary) {
    && 1 <= l.lines <= 4
    && e == ClearEvent(l.lines, l.spin, Clears(past), l.perfectClear, l.clearedGarbageLines > 0)
  }

  lemma ScaledIsFromTheLog(env: Env, past: seq<LockSummary>, l: LockSummary, e: ClearEvent)
    requires IsEvent(e, past, l)
    ensures ScaledClear(e, Chain(past), env.logScale) == Scaled(env, past, l)
    ensures NeedsRoll(e, Chain(past), env.logScale) <==> !Whole(Scaled(env, past, l))
  {
    hide Chain, Clears, BaseAttack;
    TableIsBase(l.lines, l.spin);
    QuartersAreAlike(Base(past, l), Clears(past));
  }

  lemma QuartersAreAlike(base: nat, combo: nat)
    ensures base as real * (1.0 + 0.25 * combo as real) == base as real * ((4 + combo) as real / 4.0)
    ensures base > 0 ==> base as real * ((4 + combo) as real / 4.0) > 0.0
  {
    assert 1.0 + 0.25 * combo as real == (4 + combo) as real / 4.0;
  }

  lemma RoundingIsFromTheLog(x: real, roll: real)
    requires x >= 0.0 && 0.0 <= roll < 1.0
    ensures RoundAttack(x, roll) == if Whole(x) then x.Floor else -((roll - x).Floor)
  {
    var f := x.Floor;
    if !Whole(x) {
      if roll < x - f as real {
        assert (roll - x).Floor == -f - 1;
      } else {
        assert (roll - x).Floor == -f;
      }
    }
  }

  function RollFor(env: Env, past: seq<LockSummary>, l: LockSummary): real {
    if Whole(Scaled(env, past, l)) then 0.0 else env.rolls(Rolled(env, past))
  }

  lemma WorthIsFromTheLog(env: Env, past: seq<LockSummary>, l: LockSummary, e: ClearEvent)
    requires IsEvent(e, past, l) && RollsOk(env)
    ensures var a := ResolveClear(e, Chain(past), RollFor(env, past, l), env.logScale);
            && a.clearAttack == ClearWorth(env, past, l)
            && Sum(a.surge) == SurgeWorth(past, l)
            && [a.clearAttack] + a.surge == Packets(env, past, l)
            && a.nextStreak == if Difficult(l) then Chain(past) + 1 else 0
  {
    hide ScaledClear, NeedsRoll, RoundAttack, Scaled, Rolled;
    var roll := RollFor(env, past, l);
    ScaledIsFromTheLog(env, past, l, e);
    RoundingIsFromTheLog(ScaledClear(e, Chain(past), env.logScale), roll);
    SurgeIsFromTheLog(past, l);
  }

  lemma SurgeIsFromTheLog(past: seq<LockSummary>, l: LockSummary)
    ensures var surge := if Difficult(l) then [] else SplitSurge(SurgeCharge(Chain(past)));
            var c := SurgeWorth(past, l);
            && Sum(surge) == c
            && surge == if c == 0 then [] else [(c + 2) / 3, (c + 1) / 3, c / 3]
  {
    hide Chain;
    SurgePacketsAddUp(SurgeCharge(Chain(past)));
  }

  // ---------------------------------------------------------------- one lock

  lemma LogsAppend(env: Env, past: seq<LockSummary>, l: LockSummary)
    ensures var all := past + [l];
            && Chain(all) == (if l.lines == 0 then Chain(past) else if Difficult(l) then Chain(past) + 1 else 0)
            && Clears(all) == (if l.lines == 0 then 0 else Clears(past) + 1)
            && Lines(all) == Lines(past) + l.lines
            && GarbageLines(all) == GarbageLines(past) + l.clearedGarbageLines
            && Rolled(env, all) == Rolled(env, past) + (if l.lines == 0 || Whole(Scaled(env, past, l)) then 0 else 1)
            && Cancelled(all) == Cancelled(past) + l.cancelledGarbage
            && Inserted(all) == Inserted(past) + |l.appliedGarbageHoles|
            && Sent(all) == Sent(past) + Sum(l.outgoingAttacks)
  {
    hide Scaled, Difficult, Whole;
    assert (past + [l])[..|past|] == past;
    BooksAppend(I, past, l);
  }

  function MultiplierFor(past: seq<LockSummary>, queued: int): Multiplier {
    OpenerMultiplier(|past|, Waiting(past, queued), Sent(past))
  }

  function EventOf(past: seq<LockSummary>, l: LockSummary): ClearEvent {
    ClearEvent(l.lines, l.spin, Clears(past), l.perfectClear, l.clearedGarbageLines > 0)
  }

  function AttackOf(env: Env, past: seq<LockSummary>, l: LockSummary): AttackResolution
    requires 1 <= l.lines <= 4
  {
    ResolveClear(EventOf(past, l), Chain(past), RollFor(env, past, l), env.logScale)
  }

  /** A clearing lock's outcome, in terms of the event its summary describes. */
  predicate Resolves(
    env: Env, past: seq<LockSummary>, queued: int, s: Sim, kind: Kind, locked: LockResult, spin: Spin, o: LockOutcome)
    requires 1 <= locked.Lines() <= 4
  {
    var l := o.summary;
    && l.piece == kind && l.lines == locked.Lines() && l.spin == spin && l.perfectClear == locked.perfectClear
    && l.clearedGarbageLines == locked.clearedGarbageLineCount && l.appliedGarbageHoles == []
    && var a := AttackOf(env, past, l);
       var c := CancelAll(s.pendingGarbage, [a.clearAttack] + a.surge, MultiplierFor(past, queued));
       && l.combo == Clears(past) && l.backToBack == DisplayedCount(a.nextStreak)
       && l.cancelledGarbage == c.1 && l.outgoingAttacks == c.2
       && o.board == locked.board && o.combo == Clears(past) && o.streak == a.nextStreak
       && o.totalAttackSent == Sent(past) + Sum(c.2) && o.pendingGarbage == c.0 && !o.toppedOut
       && o.rollCursor == Rolled(env, past) + (if Whole(Scaled(env, past, l)) then 0 else 1)
  }

  /** The event a clearing lock resolves is the one its summary describes. */
  lemma ClearingIsTheEvent(env: Env, past: seq<LockSummary>, rows: seq<Due>, s: Sim, kind: Kind, locked: LockResult, spin: Spin)
    requires IsBoard(locked.board) && 1 <= locked.Lines() <= 4 && RollsOk(env) && Accounts(env, past, rows, s)
    ensures ResolveClearing(env, s, kind, locked, spin).Ok?
    ensures Resolves(env, past, |rows|, s, kind, locked, spin, ResolveClearing(env, s, kind, locked, spin).value)
  {
    UnrolledCounts(s.pendingGarbage);
    hide Chain, Clears, Rolled, Scaled, ScaledClear, Amount, Cancelled, Inserted, Sent, CancelAll, NeedsRoll, ResolveClear;
    hide Unrolled, Consumed;
    var l := LockSummary(kind, locked.Lines(), spin, 0, 0, locked.perfectClear, locked.clearedGarbageLineCount, 0, [], []);
    ScaledIsFromTheLog(env, past, l, EventOf(past, l));
    var full := ResolveClearing(env, s, kind, locked, spin);
    assert full.Ok?;
    ScaledReadsTheClear(env, past, l, full.value.summary);
  }

  lemma ScaledReadsTheClear(env: Env, past: seq<LockSummary>, l: LockSummary, k: LockSummary)
    requires l.lines == k.lines && l.spin == k.spin && l.perfectClear == k.perfectClear
    ensures Scaled(env, past, l) == Scaled(env, past, k)
  {
  }

  /** The queue part of a clear: cancel what is worth, send what is left. */
  lemma ClearIsPaid(env: Env, past: seq<LockSummary>, rows: seq<Due>, s: Sim, attacks: seq<nat>, l: LockSummary)
    requires Consumed(past) <= |rows| && Unrolled(s.pendingGarbage) == rows[Consumed(past)..]
    requires attacks == Packets(env, past, l) && Sum(attacks) == ClearWorth(env, past, l) + SurgeWorth(past, l)
    requires var c := CancelAll(s.pendingGarbage, attacks, MultiplierFor(past, |rows|));
             l.cancelledGarbage == c.1 && l.outgoingAttacks == c.2
    ensures Paid(env, past, l, |rows|)
    ensures var c := CancelAll(s.pendingGarbage, attacks, MultiplierFor(past, |rows|));
            Consumed(past) + c.1 <= |rows| && Unrolled(c.0) == rows[Consumed(past) + c.1..]
  {
    hide CancelAll, Amount, Sum, Sent, Consumed, ClearWorth, SurgeWorth, Packets, Unspent, Unrolled;
    var m := MultiplierFor(past, |rows|);
    UnrolledCounts(s.pendingGarbage);
    SplittingAttackIsNeutral(s.pendingGarbage, attacks, m);
    CancellationConserves(s.pendingGarbage, Sum(attacks), m);
    CancellingLeavesTheUnspent(s.pendingGarbage, attacks, m);
    CancellingTakesTheFront(s.pendingGarbage, attacks, m);
  }

  /** The counters a clear leaves behind are those of the log with it. */
  predicate Counted(env: Env, past: seq<LockSummary>, rows: seq<Due>, locked: LockResult, o: LockOutcome) {
    var l := o.summary;
    && l.combo == Clears(past) && l.backToBack == Shown(if Difficult(l) then Chain(past) + 1 else 0)
    && l.lines == locked.Lines() && l.perfectClear == locked.perfectClear && l.appliedGarbageHoles == []
    && l.clearedGarbageLines == locked.clearedGarbageLineCount
    && o.board == locked.board && o.combo == Clears(past) && o.streak == (if Difficult(l) then Chain(past) + 1 else 0)
    && o.totalAttackSent == Sent(past) + Sum(l.outgoingAttacks) && !o.toppedOut
    && Consumed(past) + l.cancelledGarbage <= |rows|
    && Unrolled(o.pendingGarbage) == rows[Consumed(past) + l.cancelledGarbage..]
    && o.rollCursor == Rolled(env, past) + (if Whole(Scaled(env, past, l)) then 0 else 1)
  }

  lemma ResolutionIsLawful(
    env: Env, past: seq<LockSummary>, rows: seq<Due>, s: Sim, kind: Kind, locked: LockResult, spin: Spin, o: LockOutcome)
    requires 1 <= locked.Lines() <= 4 && RollsOk(env) && Accounts(env, past, rows, s)
    requires Resolves(env, past, |rows|, s, kind, locked, spin, o)
    ensures Paid(env, past, o.summary, |rows|) && Counted(env, past, rows, locked, o)
  {
    hide CancelAll, Sum, Sent, Consumed, ClearWorth, SurgeWorth, Packets, Chain, Clears, Rolled, Scaled, ResolveClear;
    hide RollFor, RollsOk, Paid, MultiplierFor, Whole, Unrolled, Difficult;
    var l := o.summary;
    var a := AttackOf(env, past, l);
    WorthIsFromTheLog(env, past, l, EventOf(past, l));
    SumWithFirst(a.clearAttack, a.surge);
    ClearIsPaid(env, past, rows, s, [a.clearAttack] + a.surge, l);
  }

  lemma ClearIsLawful(env: Env, past: seq<LockSummary>, rows: seq<Due>, s: Sim, kind: Kind, locked: LockResult, spin: Spin)
    requires IsBoard(locked.board) && 1 <= locked.Lines() <= 4 && RollsOk(env) && Accounts(env, past, rows, s)
    ensures var r := ResolveClearing(env, s, kind, locked, spin);
            r.Ok? && Paid(env, past, r.value.summary, |rows|) && Counted(env, past, rows, locked, r.value)
  {
    hide ResolveClearing, Resolves, Accounts, Paid, Counted, RollsOk;
    ClearingIsTheEvent(env, past, rows, s, kind, locked, spin);
    ResolutionIsLawful(env, past, rows, s, kind, locked, spin, ResolveClearing(env, s, kind, locked, spin).value);
  }

  lemma SumWithFirst(n: nat, ns: seq<nat>)
    ensures Sum([n] + ns) == n + Sum(ns)
  {
    SumOfFront([n] + ns);
    assert ([n] + ns)[1..] == ns;
  }

  // ---------------------------------------------------------------- the board

  function Flagged(flags: seq<bool>): nat {
    if flags == [] then 0 else Flagged(flags[..|flags| - 1]) + Bit(flags[|flags| - 1])
  }

  lemma {:induction false} FlaggedAppend(a: seq<bool>, b: seq<bool>)
    ensures Flagged(a + b) == Flagged(a) + Flagged(b)
    decreases |b|
  {
    if b == [] {
      assert a + b == a;
    } else {
      FlaggedAppend(a, b[..|b| - 1]);
      assert (a + b)[..|a + b| - 1] == a + b[..|b| - 1];
    }
  }

  lemma {:induction false} FlaggedRepeat(flag: bool, n: nat)
    ensures Flagged(Repeat(flag, n)) == if flag then n else 0
    decreases n
  {
    if n > 0 {
      FlaggedRepeat(flag, n - 1);
      assert Repeat(flag, n)[..n - 1] == Repeat(flag, n - 1);
    }
  }

  lemma {:induction false} UnflaggedRows(flags: seq<bool>)
    requires forall i | 0 <= i < |flags| :: !flags[i]
    ensures Flagged(flags) == 0
    decreases |flags|
  {
    if flags != [] {
      UnflaggedRows(flags[..|flags| - 1]);
    }
  }

  lemma {:induction false} KeepingDropsClearedFlags(rows: seq<Row>, flags: seq<bool>)
    requires |rows| == |flags|
    ensures Flagged(KeptFlags(rows, flags)) + ClearedGarbageRows(rows, flags) == Flagged(flags)
    decreases |rows|
  {
    if rows != [] {
      var n := |rows| - 1;
      KeepingDropsClearedFlags(rows[..n], flags[..n]);
      var kept := KeptFlags(rows[..n], flags[..n]);
      if rows[n] == FULL_ROW {
        assert KeptFlags(rows, flags) == kept;
      } else {
        assert (kept + [flags[n]])[..|kept|] == kept;
      }
    }
  }

  lemma LockingCountsFlags(b: Board, p: Piece)
    requires IsBoard(b) && PlacementValid(b, p)
    ensures var r := LockPiece(b, p).value;
            Flagged(r.board.garbage) + r.clearedGarbageLineCount == Flagged(b.garbage)
  {
    var filled := Fill(b.rows, p, 4);
    KeepingDropsClearedFlags(filled, b.garbage);
    var kept := KeptFlags(filled, b.garbage);
    FlaggedAppend(kept, Repeat(false, HEIGHT - |kept|));
    FlaggedRepeat(false, HEIGHT - |kept|);
  }

  lemma InsertingCountsFlags(b: Board, holes: seq<int>)
    requires IsBoard(b) && InsertGarbage(b, holes).Some? && !InsertGarbage(b, holes).value.overflowed
    ensures Flagged(InsertGarbage(b, holes).value.board.garbage) == Flagged(b.garbage) + |holes|
  {
    var keep := HEIGHT - |holes|;
    if holes != [] {
      FlaggedAppend(Repeat(true, |holes|), b.garbage[..keep]);
      FlaggedRepeat(true, |holes|);
      FlaggedAppend(b.garbage[..keep], b.garbage[keep..]);
      assert b.garbage == b.garbage[..keep] + b.garbage[keep..];
      UnflaggedRows(b.garbage[keep..]);
    }
  }

  /** The board holds what the log says: its cells, and its rows of garbage. */
  predicate BoardBooks(cells: int, flags: int, locks: seq<LockSummary>, b: FieldBoard) {
    Count(b.rows) == CellsLeft(cells, locks) && Flagged(b.garbage) == flags + Inserted(locks) - GarbageLines(locks)
  }

  /** An overflowing lock has lost cells. */
  predicate BoardShort(cells: int, locks: seq<LockSummary>, b: FieldBoard) { Count(b.rows) < CellsLeft(cells, locks) }

  // ---------------------------------------------------------------- one moment

  /** A lock that clears nothing: what it leaves in the queue and on the board. */
  predicate PlainCounted(env: Env, past: seq<LockSummary>, rows: seq<Due>, frame: int, s: Sim, locked: LockResult, o: LockOutcome)
    requires IsBoard(locked.board) && Consumed(past) <= |rows|
  {
    var l := o.summary;
    var n := |l.appliedGarbageHoles|;
    && l.lines == 0 && PlainLaw(env, past, l, rows, frame) && l.combo == -1 && l.backToBack == Shown(Chain(past))
    && o.combo == -1 && o.streak == Chain(past) && o.totalAttackSent == Sent(past) && o.rollCursor == Rolled(env, past)
    && Consumed(past) + n <= |rows| && Unrolled(o.pendingGarbage) == rows[Consumed(past) + n..]
    && InsertGarbage(locked.board, l.appliedGarbageHoles) == Some(Insertion(o.board, o.toppedOut))
  }

  lemma PlainIsLawful(
    env: Env, past: seq<LockSummary>, rows: seq<Due>, s: Sim, kind: Kind, locked: LockResult, spin: Spin, frame: int)
    requires IsBoard(locked.board) && locked.Lines() == 0 && !locked.perfectClear && locked.clearedGarbageLineCount == 0
    requires frame >= 0 && CapFits(env) && Accounts(env, past, rows, s)
    ensures var r := ResolvePlain(env, s, kind, locked, spin, frame);
            r.Ok? ==> PlainCounted(env, past, rows, frame, s, locked, r.value)
  {
    hide Chain, Clears, Rolled, Sent, Consumed, TakeReady, InsertGarbage, Unrolled, TakesAllDue, PacketsOk;
    TakingTakesTheFront(s.pendingGarbage, frame, env.rules.garbageCap);
    TakingIsWithin(rows, Consumed(past), frame, env.rules.garbageCap, TakeReady(s.pendingGarbage, frame, env.rules.garbageCap).1);
  }

  lemma TakingIsWithin(rows: seq<Due>, from: nat, frame: int, cap: int, holes: seq<int>)
    requires from <= |rows| && TakesAllDue(rows[from..], frame, cap, holes)
    ensures from + |holes| <= |rows| && rows[from..][|holes|..] == rows[from + |holes|..]
  {
  }

  /** A lock without cleared lines leaves a cell of its piece, and clears no garbage. */
  lemma NoLineNoGarbage(b: Board, p: Piece)
    requires IsBoard(b) && PlacementValid(b, p) && LockPiece(b, p).value.Lines() == 0
    ensures !LockPiece(b, p).value.perfectClear && LockPiece(b, p).value.clearedGarbageLineCount == 0
  {
    LockingConservesCells(b, p);
    NothingClearedNoGarbage(Fill(b.rows, p, 4), b.garbage);
  }

  lemma {:induction false} NothingClearedNoGarbage(rows: seq<Row>, flags: seq<bool>)
    requires |rows| == |flags| && ClearedIndices(rows) == []
    ensures ClearedGarbageRows(rows, flags) == 0
    decreases |rows|
  {
    if rows != [] {
      NothingClearedNoGarbage(rows[..|rows| - 1], flags[..|flags| - 1]);
    }
  }

  /** One lock: it obeys the law, and the counters and the board go on agreeing with the log. */
  predicate MomentLaw(
    env: Env, cells: int, flags: int, past: seq<LockSummary>, rows: seq<Due>, frame: int, m: Moment)
  {
    var all := past + [m.outcome.summary];
    && LockLaw(env, cells, past, m.outcome.summary, rows, frame)
    && Accounts(env, all, rows, Posted(m))
    && (if m.outcome.toppedOut then BoardShort(cells, all, m.outcome.board) else BoardBooks(cells, flags, all, m.outcome.board))
  }

  lemma ClearMomentIsLawful(
    env: Env, cells: int, flags: int, past: seq<LockSummary>, rows: seq<Due>, frame: int, m: Moment, locked: LockResult)
    requires locked.Lines() > 0 && m.outcome.summary.lines <= 4
    requires Count(locked.board.rows) + 10 * locked.Lines() == CellsLeft(cells, past) + 4
    requires locked.perfectClear <==> Count(locked.board.rows) == 0
    requires Flagged(locked.board.garbage) + locked.clearedGarbageLineCount == flags + Inserted(past) - GarbageLines(past)
    requires Accounts(env, past, rows, m.sim)
    requires Paid(env, past, m.outcome.summary, |rows|) && Counted(env, past, rows, locked, m.outcome)
    ensures MomentLaw(env, cells, flags, past, rows, frame, m)
  {
    LogsAppend(env, past, m.outcome.summary);
    hide Paid, Chain, Clears, Lines, GarbageLines, Rolled, Cancelled, Inserted, Sent, Scaled, Difficult, Whole, Count, Flagged;
    hide Sum, Unrolled;
    assert Consumed(past + [m.outcome.summary]) == Consumed(past) + m.outcome.summary.cancelledGarbage;
  }

  lemma PlainObeysTheLaw(
    env: Env, cells: int, past: seq<LockSummary>, rows: seq<Due>, frame: int, m: Moment, locked: LockResult)
    requires IsBoard(locked.board) && Accounts(env, past, rows, m.sim)
    requires PlainCounted(env, past, rows, frame, m.sim, locked, m.outcome)
    ensures LockLaw(env, cells, past, m.outcome.summary, rows, frame)
    ensures Accounts(env, past + [m.outcome.summary], rows, Posted(m))
  {
    LogsAppend(env, past, m.outcome.summary);
    hide Chain, Clears, Lines, GarbageLines, Rolled, Cancelled, Inserted, Sent, Scaled, Difficult, Whole;
    hide Unrolled, InsertGarbage, TakesAllDue, IsBoard, PacketsOk, Shown;
    assert Consumed(past + [m.outcome.summary]) == Consumed(past) + |m.outcome.summary.appliedGarbageHoles|;
  }

  lemma PlainLeavesTheBoard(
    env: Env, cells: int, flags: int, past: seq<LockSummary>, l: LockSummary, locked: Board, after: FieldBoard, out: bool)
    requires IsBoard(locked) && l.lines == 0 && l.clearedGarbageLines == 0
    requires Count(locked.rows) == CellsLeft(cells, past) + 4
    requires Flagged(locked.garbage) == flags + Inserted(past) - GarbageLines(past)
    requires InsertGarbage(locked, l.appliedGarbageHoles) == Some(Insertion(after, out))
    ensures if out then BoardShort(cells, past + [l], after) else BoardBooks(cells, flags, past + [l], after)
  {
    LogsAppend(env, past, l);
    InsertingCounts(locked, l.appliedGarbageHoles);
    if !out {
      InsertingCountsFlags(locked, l.appliedGarbageHoles);
    }
    hide Chain, Clears, Lines, GarbageLines, Rolled, Cancelled, Inserted, Sent, Scaled, Difficult, Whole, Count, Flagged;
    hide InsertGarbage, IsBoard;
  }

  lemma PlainMomentIsLawful(
    env: Env, cells: int, flags: int, past: seq<LockSummary>, rows: seq<Due>, frame: int, m: Moment, locked: LockResult)
    requires IsBoard(locked.board) && Count(locked.board.rows) == CellsLeft(cells, past) + 4
    requires Flagged(locked.board.garbage) == flags + Inserted(past) - GarbageLines(past)
    requires Accounts(env, past, rows, m.sim)
    requires PlainCounted(env, past, rows, frame, m.sim, locked, m.outcome)
    ensures MomentLaw(env, cells, flags, past, rows, frame, m)
  {
    PlainObeysTheLaw(env, cells, past, rows, frame, m, locked);
    PlainLeavesTheBoard(env, cells, flags, past, m.outcome.summary, locked.board, m.outcome.board, m.outcome.toppedOut);
    hide LockLaw, Accounts, BoardShort, BoardBooks;
  }

  lemma MomentIsLawful(
    env: Env, cells: int, flags: int, past: seq<LockSummary>, rows: seq<Due>, frame: int, m: Moment)
    requires IsLock(env, frame, m) && RollsOk(env) && CapFits(env)
    requires Accounts(env, past, rows, m.sim) && BoardBooks(cells, flags, past, m.sim.board)
    ensures MomentLaw(env, cells, flags, past, rows, frame, m)
  {
    var b, piece := m.sim.board, m.sim.active.value;
    var locked := LockPiece(b, piece).value;
    LockOutcomeIsSafe(env, m.sim, frame);
    LockingLeavesNoFullRow(b, piece);
    LockingConservesCells(b, piece);
    LockingCountsFlags(b, piece);
    var spin := ClassifySpin(b, piece, m.sim.lastRotation);
    if locked.Lines() > 0 {
      ClearIsLawful(env, past, rows, m.sim, piece.kind, locked, spin);
      ClearMomentIsLawful(env, cells, flags, past, rows, frame, m, locked);
    } else {
      NoLineNoGarbage(b, piece);
      PlainIsLawful(env, past, rows, m.sim, piece.kind, locked, spin, frame);
      PlainMomentIsLawful(env, cells, flags, past, rows, frame, m, locked);
    }
  }

  // ---------------------------------------------------------------- runs

  /** Every lock of a frame obeys the law, given those before it. */
  predicate Lawful(env: Env, cells: int, past: seq<LockSummary>, locks: seq<LockSummary>, rows: seq<Due>, frame: int) {
    forall i | 0 <= i < |locks| :: LockLaw(env, cells, past + locks[..i], locks[i], rows, frame)
  }

  /** The board agrees with the log, unless garbage has pushed cells over the top. */
  predicate BoardAgrees(cells: int, flags: int, locks: seq<LockSummary>, b: FieldBoard, overflowed: bool) {
    if overflowed then BoardShort(cells, locks, b) else BoardBooks(cells, flags, locks, b)
  }

  predicate OnlyLastOverflows(ms: seq<Moment>) { forall i | 0 <= i < |ms| :: ms[i].outcome.toppedOut ==> i == |ms| - 1 }

  lemma {:induction false} LinkedIsLawful(
    env: Env, cells: int, flags: int, past: seq<LockSummary>, rows: seq<Due>, frame: int, s: Sim, ms: seq<Moment>, t: Sim)
    requires Linked(env, frame, s, ms, t) && OnlyLastOverflows(ms) && RollsOk(env) && CapFits(env)
    requires Accounts(env, past, rows, s) && BoardBooks(cells, flags, past, s.board)
    ensures Lawful(env, cells, past, Summaries(ms), rows, frame)
    ensures Accounts(env, past + Summaries(ms), rows, t)
    ensures BoardAgrees(cells, flags, past + Summaries(ms), t.board, LastOverflows(ms))
    decreases |ms|
  {
    hide IsLock, LockLaw, RollsOk, Chain, Clears, Rolled, Sent, Consumed, Unrolled, BoardShort, BoardBooks;
    if ms == [] {
      assert past + [] == past;
    } else {
      var m, l := ms[0], ms[0].outcome.summary;
      MomentIsLawful(env, cells, flags, past, rows, frame, m);
      assert Summaries(ms) == [l] + Summaries(ms[1..]);
      assert past + Summaries(ms) == (past + [l]) + Summaries(ms[1..]);
      if m.outcome.toppedOut {
        assert ms == [m] && Summaries(ms) == [l];
        assert Quiet(Posted(m), t) && t.board == m.outcome.board;
      } else {
        assert LastOverflows(ms) <==> LastOverflows(ms[1..]);
        LinkedIsLawful(env, cells, flags, past + [l], rows, frame, Posted(m), ms[1..], t);
      }
      LawfulFromTheFront(env, cells, past, l, Summaries(ms[1..]), rows, frame);
    }
  }

  lemma LawfulFromTheFront(
    env: Env, cells: int, past: seq<LockSummary>, l: LockSummary, rest: seq<LockSummary>, rows: seq<Due>, frame: int)
    requires LockLaw(env, cells, past, l, rows, frame) && Lawful(env, cells, past + [l], rest, rows, frame)
    ensures Lawful(env, cells, past, [l] + rest, rows, frame)
  {
    hide LockLaw;
    var all := [l] + rest;
    forall i | 0 <= i < |all| ensures LockLaw(env, cells, past + all[..i], all[i], rows, frame) {
      if i == 0 {
        assert past + all[..0] == past;
      } else {
        assert past + all[..i] == past + [l] + rest[..i - 1] && all[i] == rest[i - 1];
      }
    }
  }

  /** Did garbage push the player out? Its last piece is then still the active one. */
  predicate Overflowed(s: Sim) { s.toppedOut && s.active.Some? }

  predicate BookAgrees(env: Env, cells: int, flags: int, rows: seq<Due>, b: Book) {
    Accounts(env, b.locks, rows, b.sim) && BoardAgrees(cells, flags, b.locks, b.sim.board, Overflowed(b.sim))
  }

  lemma OverflowIsSeen(s: Sim, ms: seq<Moment>, t: Sim)
    requires Ends(s, ms, t) && !s.toppedOut
    ensures LastOverflows(ms) <==> Overflowed(t)
  {
  }

  lemma FrameIsLawful(
    env: Env, cells: int, flags: int, rows: seq<Due>, b: Book, frame: int, actions: seq<Action>)
    requires RollsOk(env) && CapFits(env) && RulesOk(env.rules) && Valid(b.sim) && b.sim.generation.None?
    requires AdvanceFrame(env, b.sim, frame, actions).Ok? && BookAgrees(env, cells, flags, rows, b)
    ensures var t := AdvanceFrame(env, b.sim, frame, actions).value.sim;
            && Lawful(env, cells, b.locks, t.frameLocks, rows, frame)
            && BookAgrees(env, cells, flags, rows, Book(t, b.locks + t.frameLocks, b.queued))
  {
    var t := AdvanceFrame(env, b.sim, frame, actions).value.sim;
    var drops, last := FrameIsTraced(env, b.sim, frame, actions);
    var ms := drops + last;
    hide AdvanceFrame, RollsOk, Chain, Clears, Rolled, Sent, Consumed, Unrolled, Count, Flagged, LockLaw, IsLock;
    if b.sim.toppedOut {
      assert b.locks + [] == b.locks;
    } else {
      OverflowIsSeen(FreshFrame(b.sim), ms, t);
      LinkedIsLawful(env, cells, flags, b.locks, rows, frame, FreshFrame(b.sim), ms, t);
    }
  }

  /** The garbage rows queued so far, in the order of their arrival: those sent to a player who is out are lost. */
  function Arrived(env: Env, board: FieldBoard, ops: seq<Op>): seq<Due>
    requires RulesOk(env.rules)
    decreases |ops|
  {
    if ops == [] then []
    else
      var before, op := ops[..|ops| - 1], ops[|ops| - 1];
      if op.Incoming? && PacketOk(op.packet) && !Run(env, board, before).sim.toppedOut
      then Arrived(env, board, before) + RowsOf(op.packet)
      else Arrived(env, board, before)
  }

  /** Which operation reported lock `i`? */
  function Reporter(env: Env, board: FieldBoard, ops: seq<Op>, i: nat): nat
    requires RulesOk(env.rules) && ops != []
    decreases |ops|
  {
    var before := ops[..|ops| - 1];
    if before != [] && i < |Run(env, board, before).locks| then Reporter(env, board, before, i) else |ops| - 1
  }

  predicate LawfullyReported(env: Env, board: FieldBoard, ops: seq<Op>, locks: seq<LockSummary>, i: nat)
    requires RulesOk(env.rules) && i < |locks|
  {
    && ops != []
    && var n := Reporter(env, board, ops, i);
       && n < |ops| && ops[n].Frame?
       && LockLaw(env, Count(board.rows), locks[..i], locks[i], Arrived(env, board, ops[..n]), ops[n].frame)
  }

  predicate RunLaw(env: Env, board: FieldBoard, ops: seq<Op>)
    requires RulesOk(env.rules)
  {
    var b := Run(env, board, ops);
    && (forall i | 0 <= i < |b.locks| :: LawfullyReported(env, board, ops, b.locks, i))
    && BookAgrees(env, Count(board.rows), Flagged(board.garbage), Arrived(env, board, ops), b)
  }

  lemma FreshRunIsLawful(env: Env, board: FieldBoard)
    requires RulesOk(env.rules)
    ensures RunLaw(env, board, [])
  {
  }

  /** The locks an operation reports, and what it does to the queue. */
  lemma OpIsLawful(env: Env, cells: int, flags: int, rows: seq<Due>, b: Book, op: Op)
    requires RollsOk(env) && CapFits(env) && RulesOk(env.rules) && Valid(b.sim) && b.sim.generation.None?
    requires Apply(env, b, op).Ok? && BookAgrees(env, cells, flags, rows, b)
    ensures var t := Apply(env, b, op).value;
            var arrived := if op.Incoming? && PacketOk(op.packet) && !b.sim.toppedOut then RowsOf(op.packet) else [];
            && BookAgrees(env, cells, flags, rows + arrived, t)
            && (!op.Frame? ==> t.locks == b.locks)
            && (op.Frame? ==> exists more :: t.locks == b.locks + more && Lawful(env, cells, b.locks, more, rows, op.frame))
  {
    hide RollsOk, Chain, Clears, Rolled, Sent, Consumed, Count, Flagged, LockLaw, AdvanceFrame, PacketOk;
    assert rows + [] == rows;
    match op
    case Frame(frame, actions) => FrameIsLawful(env, cells, flags, rows, b, frame, actions);
    case Incoming(packet) =>
      if !b.sim.toppedOut {
        UnrolledAppend(b.sim.pendingGarbage, packet);
        assert (rows + RowsOf(packet))[Consumed(b.locks)..] == rows[Consumed(b.locks)..] + RowsOf(packet);
      }
    case Release =>
  }

  lemma ReporterOfPrefix(env: Env, board: FieldBoard, ops: seq<Op>, locks: seq<LockSummary>, more: seq<LockSummary>, i: nat)
    requires RulesOk(env.rules) && ops != [] && i < |locks|
    requires locks == Run(env, board, ops[..|ops| - 1]).locks
    requires LawfullyReported(env, board, ops[..|ops| - 1], locks, i)
    ensures LawfullyReported(env, board, ops, locks + more, i)
  {
    hide LockLaw, Run, Arrived, Count;
    var before := ops[..|ops| - 1];
    var n := Reporter(env, board, before, i);
    assert before[..n] == ops[..n] && (locks + more)[..i] == locks[..i];
  }

  lemma NewlyReported(env: Env, board: FieldBoard, ops: seq<Op>, locks: seq<LockSummary>, more: seq<LockSummary>, i: nat)
    requires RulesOk(env.rules) && ops != [] && |locks| <= i < |locks + more|
    requires locks == Run(env, board, ops[..|ops| - 1]).locks && ops[|ops| - 1].Frame?
    requires Lawful(env, Count(board.rows), locks, more, Arrived(env, board, ops[..|ops| - 1]), ops[|ops| - 1].frame)
    ensures LawfullyReported(env, board, ops, locks + more, i)
  {
    hide LockLaw, Run, Arrived, Count;
    assert (locks + more)[..i] == locks + more[..i - |locks|] && (locks + more)[i] == more[i - |locks|];
  }

  lemma OneMoreIsLawful(env: Env, board: FieldBoard, ops: seq<Op>)
    requires RollsOk(env) && CapFits(env) && RulesOk(env.rules) && NoFullRow(board) && ops != []
    requires RunLaw(env, board, ops[..|ops| - 1])
    ensures RunLaw(env, board, ops)
  {
    hide RollsOk, Count, Flagged, LockLaw, BookAgrees, PacketOk, Lawful, LawfullyReported, Apply;
    var before, op := ops[..|ops| - 1], ops[|ops| - 1];
    var b := Run(env, board, before);
    var rows := Arrived(env, board, before);
    RunsAreSound(env, I, board, before);
    assert rows + [] == rows;
    if Apply(env, b, op).Ok? {
      OpIsLawful(env, Count(board.rows), Flagged(board.garbage), rows, b, op);
      var t := Apply(env, b, op).value;
      var more :| t.locks == b.locks + more && (op.Frame? ==> Lawful(env, Count(board.rows), b.locks, more, rows, op.frame))
                  && (!op.Frame? ==> more == []);
      forall i | 0 <= i < |t.locks| ensures LawfullyReported(env, board, ops, t.locks, i) {
        if i < |b.locks| {
          ReporterOfPrefix(env, board, ops, b.locks, more, i);
        } else {
          NewlyReported(env, board, ops, b.locks, more, i);
        }
      }
    } else {
      if op.Incoming? {
        RefusedOps(env, b, op);
      }
      forall i | 0 <= i < |b.locks| ensures LawfullyReported(env, board, ops, b.locks, i) {
        ReporterOfPrefix(env, board, ops, b.locks, [], i);
        assert b.locks + [] == b.locks;
      }
    }
  }

  /** A packet that is refused is malformed. */
  lemma RefusedOps(env: Env, b: Book, op: Op)
    requires RulesOk(env.rules) && Apply(env, b, op).Err? && op.Incoming?
    ensures !PacketOk(op.packet)
  {
  }

  lemma {:induction false} RunsAreLawful(env: Env, board: FieldBoard, ops: seq<Op>)
    requires RollsOk(env) && CapFits(env) && RulesOk(env.rules) && NoFullRow(board)
    ensures RunLaw(env, board, ops)
    decreases |ops|
  {
    hide RunLaw, RollsOk;
    if ops == [] {
      FreshRunIsLawful(env, board);
    } else {
      RunsAreLawful(env, board, ops[..|ops| - 1]);
      OneMoreIsLawful(env, board, ops);
    }
  }

  /**
   The lock log explains itself: on every run each reported lock obeys the law of the log before it, the garbage rows
   queued before the frame that reported it, and that frame's number. So what a clear sends, what it cancels and what the
   next lock brings in can be computed from the log and the queued packets alone.
   */
  lemma LocksFollowTheLog(env: Env, board: FieldBoard, ops: seq<Op>, i: nat)
    requires RollsOk(env) && CapFits(env) && RulesOk(env.rules) && NoFullRow(board)
    requires i < |Run(env, board, ops).locks|
    ensures var locks := Run(env, board, ops).locks;
            && ops != []
            && var n := Reporter(env, board, ops, i);
               && n < |ops| && ops[n].Frame?
               && LockLaw(env, Count(board.rows), locks[..i], locks[i], Arrived(env, board, ops[..n]), ops[n].frame)
  {
    hide LockLaw;
    RunsAreLawful(env, board, ops);
    assert LawfullyReported(env, board, ops, Run(env, board, ops).locks, i);
  }

  /** A clear sends and cancels exactly what it is worth; an attack row takes one garbage row, or two in the opener. */
  lemma ClearsSendTheirWorth(env: Env, board: FieldBoard, ops: seq<Op>, i: nat)
    requires RollsOk(env) && CapFits(env) && RulesOk(env.rules) && NoFullRow(board)
    requires i < |Run(env, board, ops).locks| && Run(env, board, ops).locks[i].lines > 0
    ensures var locks := Run(env, board, ops).locks;
            var past, l := locks[..i], locks[i];
            && ops != [] && Reporter(env, board, ops, i) < |ops|
            && var queued := |Arrived(env, board, ops[..Reporter(env, board, ops, i)])|;
               var rows := if i < 14 && queued - Cancelled(past) - Inserted(past) > Sent(past) then 2 else 1;
               && Sum(l.outgoingAttacks) + (l.cancelledGarbage + rows - 1) / rows
                  == Rounded(env, past, l) + (if l.perfectClear then 5 else 0)
                     + (if (l.lines == 4 || l.spin != NoSpin) && l.clearedGarbageLines > 0 then 1 else 0)
                     + (if !Difficult(l) && Chain(past) >= 5 then Chain(past) - 1 else 0)
               && (Sum(l.outgoingAttacks) > 0 ==> l.cancelledGarbage == queued - Cancelled(past) - Inserted(past))
  {
    hide Rounded, Chain, Difficult, Unspent, Packets;
    LocksFollowTheLog(env, board, ops, i);
  }

  /** The chain and the combo of a state are those of its log. */
  lemma CountersFollowTheLog(env: Env, board: FieldBoard, ops: seq<Op>)
    requires RollsOk(env) && CapFits(env) && RulesOk(env.rules) && NoFullRow(board)
    ensures var b := Run(env, board, ops);
            && b.sim.streak == Chain(b.locks) && b.sim.combo == Clears(b.locks) - 1
            && b.sim.rollCursor == Rolled(env, b.locks)
            && Consumed(b.locks) <= |Arrived(env, board, ops)|
            && Unrolled(b.sim.pendingGarbage) == Arrived(env, board, ops)[Consumed(b.locks)..]
  {
    RunsAreLawful(env, board, ops);
  }

  /**
   Cell conservation over whole runs: the board holds the cells it began with, four per lock, ten less per cleared line
   and nine per inserted row, and as many rows of garbage as were inserted and not cleared. It holds fewer exactly when
   garbage pushed the player out; a player who is out otherwise had no place for the next piece.
   */
  lemma CellsAreConserved(env: Env, board: FieldBoard, ops: seq<Op>)
    requires RollsOk(env) && CapFits(env) && RulesOk(env.rules) && NoFullRow(board)
    ensures var b := Run(env, board, ops);
            var cells := Count(board.rows) + 4 * |b.locks| - 10 * Lines(b.locks) + 9 * Inserted(b.locks);
            && Count(b.sim.board.rows) <= cells
            && (Count(b.sim.board.rows) < cells <==> b.sim.toppedOut && b.sim.active.Some?)
            && (Count(b.sim.board.rows) == cells ==>
                Flagged(b.sim.board.garbage) == Flagged(board.garbage) + Inserted(b.locks) - GarbageLines(b.locks))
  {
    RunsAreLawful(env, board, ops);
  }
}

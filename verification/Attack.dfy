/** Versus attack: base table, combo scaling, weighted rounding, back-to-back charge and surge. */
module Attack {
  import opened Wrappers
  import opened Pieces
  import opened Boards
  import opened Garbage

  datatype Spin = NoSpin | MiniSpin | FullSpin

  datatype ClearEvent = ClearEvent(lines: nat, spin: Spin, combo: nat, allClear: bool, clearedGarbage: bool)

  const OPENER_PIECES: nat := 14

  function BaseAttack(lines: nat, spin: Spin): nat
    requires 1 <= lines <= 4
  {
    if spin.FullSpin? then (if lines == 4 then 10 else 2 * lines)
    else if lines == 4 then 4 else lines - 1
  }

  predicate IsDifficult(e: ClearEvent) { e.lines == 4 || !e.spin.NoSpin? || e.allClear }

  function DisplayedCount(streak: nat): nat { if streak == 0 then 0 else streak - 1 }

  function SurgeCharge(streak: nat): nat { if DisplayedCount(streak) >= 4 then DisplayedCount(streak) else 0 }

  /** Three packets; the remainder goes to the first, then to the second. */
  function SplitSurge(charge: nat): seq<nat> {
    if charge == 0 then []
    else
      var q, r := charge / 3, charge % 3;
      [q + (if r > 0 then 1 else 0), q + (if r > 1 then 1 else 0), q]
  }

  /** A surge is split into three nearly equal packets, larger ones first, that add up to the charge. */
  lemma SurgePacketsAddUp(charge: nat)
    ensures var s := SplitSurge(charge);
            && Sum(s) == charge
            && (charge > 0 ==> |s| == 3 && s[0] >= s[1] >= s[2] >= s[0] - 1)
  {
    if charge > 0 {
      var s := SplitSurge(charge);
      SumAppendOne([], s[0]);
      SumAppendOne([s[0]], s[1]);
      SumAppendOne([s[0], s[1]], s[2]);
      assert [] + [s[0]] == [s[0]] && [s[0]] + [s[1]] == [s[0], s[1]] && [s[0], s[1]] + [s[2]] == s;
    }
  }

  /** `logScale(combo)` stands for the logarithmic floor on combos without base attack. */
  function ScaledAttack(base: nat, combo: nat, logScale: nat -> real): (r: real)
    ensures r >= 0.0
  {
    var scaled := base as real * (1.0 + 0.25 * combo as real);
    if base == 0 && combo >= 2 && logScale(combo) > scaled then logScale(combo) else scaled
  }

  function Fraction(attack: real): real { attack - attack.Floor as real }

  /** Weighted rounding: up exactly when the roll falls below the fraction. */
  function RoundAttack(attack: real, roll: real): nat
    requires attack >= 0.0
  {
    attack.Floor + (if Fraction(attack) > 0.0 && roll < Fraction(attack) then 1 else 0)
  }

  datatype AttackResolution = AttackResolution(clearAttack: nat, surge: seq<nat>, nextStreak: nat)

  function ScaledClear(e: ClearEvent, streak: nat, logScale: nat -> real): (r: real)
    requires 1 <= e.lines <= 4
    ensures r >= 0.0
  {
    ScaledAttack(BaseAttack(e.lines, e.spin) + (if IsDifficult(e) && streak > 0 then 1 else 0), e.combo, logScale)
  }

  function ResolveClear(e: ClearEvent, streak: nat, roll: real, logScale: nat -> real): AttackResolution
    requires 1 <= e.lines <= 4
  {
    AttackResolution(
      RoundAttack(ScaledClear(e, streak, logScale), roll)
      + (if e.allClear then 5 else 0)
      + (if e.clearedGarbage && (e.lines == 4 || !e.spin.NoSpin?) then 1 else 0),
      if IsDifficult(e) then [] else SplitSurge(SurgeCharge(streak)),
      if IsDifficult(e) then streak + 1 else 0)
  }

  /** A roll is read from the stream only when the scaled attack has a fraction. */
  predicate NeedsRoll(e: ClearEvent, streak: nat, logScale: nat -> real)
    requires 1 <= e.lines <= 4
  {
    Fraction(ScaledClear(e, streak, logScale)) != 0.0
  }

  function OpenerMultiplier(piecesPlaced: nat, pendingGarbage: int, totalAttackSent: int): Multiplier {
    if piecesPlaced < OPENER_PIECES && pendingGarbage > totalAttackSent then Double else Single
  }

  // ---------------------------------------------------------------- spin detection

  datatype LastRotation = LastRotation(direction: Direction, kickIndex: nat)

  predicate OccupiedOrBoundary(b: Board, x: int, y: int)
    requires IsBoard(b)
  {
    !InField(Cell(x, y)) || x in b.rows[y]
  }

  predicate Immobile(b: Board, p: Piece)
    requires IsBoard(b)
  {
    && !PlacementValid(b, p.(x := p.x - 1)) && !PlacementValid(b, p.(x := p.x + 1))
    && !PlacementValid(b, p.(y := p.y - 1)) && !PlacementValid(b, p.(y := p.y + 1))
  }

  function Ones(a: bool, b: bool, c: bool, d: bool): nat {
    (if a then 1 else 0) + (if b then 1 else 0) + (if c then 1 else 0) + (if d then 1 else 0)
  }

  /** The two corners a T points at, for each rotation. */
  function FrontOffsets(rotation: nat): (Cell, Cell) {
    match rotation % 4
    case 0 => (Cell(-1, 1), Cell(1, 1))
    case 1 => (Cell(1, 1), Cell(1, -1))
    case 2 => (Cell(-1, -1), Cell(1, -1))
    case _ => (Cell(-1, 1), Cell(-1, -1))
  }

  function ClassifySpin(b: Board, p: Piece, last: Option<LastRotation>): Spin
    requires IsBoard(b)
  {
    if last.None? then NoSpin
    else if p.kind != T then (if Immobile(b, p) then MiniSpin else NoSpin)
    else
      var x, y := p.x + 1, p.y + 1;
      var corners := Ones(
        OccupiedOrBoundary(b, x - 1, y + 1), OccupiedOrBoundary(b, x + 1, y + 1),
        OccupiedOrBoundary(b, x - 1, y - 1), OccupiedOrBoundary(b, x + 1, y - 1));
      if corners >= 3 then
        var front := FrontOffsets(p.rotation);
        var bothFront := OccupiedOrBoundary(b, x + front.0.x, y + front.0.y)
                         && OccupiedOrBoundary(b, x + front.1.x, y + front.1.y);
        if bothFront || (!last.value.direction.Half? && last.value.kickIndex == 4) then FullSpin else MiniSpin
      else if Immobile(b, p) then MiniSpin else NoSpin
  }
}

/**
 The shared seven-bag. The random number generator is a parameter: any deterministic function that
 takes a state and a bound to the next state and a number below the bound.
 */
module SevenBag {
  import opened Wrappers
  import opened Pieces

  const BAG_SIZE: nat := 7
  const MAX_SEQUENCE_PIECES: nat := 1_000_000
  const MAX_WINDOW_PIECES: nat := 256
  const PIECE_KINDS: seq<Kind> := [I, J, L, O, S, T, Z]

  type RandomState = nat

  type Rng = (RandomState, nat) -> (RandomState, nat)

  ghost predicate Bounded(rng: Rng) { forall s, n: nat :: n > 0 ==> rng(s, n).1 < n }

  // ---------------------------------------------------------------- one bag

  function Swap(bag: seq<Kind>, i: nat, j: nat): seq<Kind>
    requires i < |bag| && j < |bag|
  {
    bag[i := bag[j]][j := bag[i]]
  }

  datatype Bag = Bag(state: RandomState, pieces: seq<Kind>)

  /** Exchanges every place from `index` down to 1 with a random place not above it. */
  function Shuffle(rng: Rng, state: RandomState, bag: seq<Kind>, index: nat): (r: Bag)
    requires Bounded(rng) && index < |bag|
    ensures |r.pieces| == |bag|
    decreases index
  {
    if index == 0 then Bag(state, bag)
    else
      var drawn := rng(state, index + 1);
      Shuffle(rng, drawn.0, Swap(bag, index, drawn.1), index - 1)
  }

  function GenerateBag(rng: Rng, state: RandomState): (r: Bag)
    requires Bounded(rng)
    ensures |r.pieces| == BAG_SIZE
  {
    Shuffle(rng, state, PIECE_KINDS, BAG_SIZE - 1)
  }

  /** The in-place shuffle. */
  method GenerateBagInPlace(rng: Rng, state: RandomState) returns (current: RandomState, bag: seq<Kind>)
    requires Bounded(rng)
    ensures Bag(current, bag) == GenerateBag(rng, state)
  {
    var pieces := new Kind[BAG_SIZE](i requires 0 <= i < BAG_SIZE => PIECE_KINDS[i]);
    assert pieces[..] == PIECE_KINDS;
    current := state;
    var index := BAG_SIZE - 1;
    while index > 0
      invariant 0 <= index < BAG_SIZE
      invariant Shuffle(rng, current, pieces[..], index) == GenerateBag(rng, state)
    {
      ghost var before := pieces[..];
      var drawn := rng(current, index + 1);
      current := drawn.0;
      pieces[index], pieces[drawn.1] := pieces[drawn.1], pieces[index];
      assert pieces[..] == Swap(before, index, drawn.1);
      index := index - 1;
    }
    bag := pieces[..];
  }

  predicate Distinct(bag: seq<Kind>) { forall i, j | 0 <= i < j < |bag| :: bag[i] != bag[j] }

  /** Every kind once. */
  predicate IsBag(bag: seq<Kind>) { |bag| == BAG_SIZE && Distinct(bag) && forall k: Kind :: k in bag }

  lemma SwappingKeepsTheKinds(bag: seq<Kind>, i: nat, j: nat)
    requires i < |bag| && j < |bag| && Distinct(bag)
    ensures Distinct(Swap(bag, i, j))
    ensures forall k: Kind :: k in Swap(bag, i, j) <==> k in bag
  {
    var swapped := Swap(bag, i, j);
    forall k: Kind | k in bag
      ensures k in swapped
    {
      var n :| 0 <= n < |bag| && bag[n] == k;
      assert swapped[if n == i then j else if n == j then i else n] == k;
    }
  }

  lemma {:induction false} ShufflingKeepsTheKinds(rng: Rng, state: RandomState, bag: seq<Kind>, index: nat)
    requires Bounded(rng) && index < |bag| && Distinct(bag)
    ensures var r := Shuffle(rng, state, bag, index).pieces;
            |r| == |bag| && Distinct(r) && (forall k: Kind :: k in r <==> k in bag)
    decreases index
  {
    if index > 0 {
      var drawn := rng(state, index + 1);
      SwappingKeepsTheKinds(bag, index, drawn.1);
      ShufflingKeepsTheKinds(rng, drawn.0, Swap(bag, index, drawn.1), index - 1);
    }
  }

  lemma BagsHoldEveryKindOnce(rng: Rng, state: RandomState)
    requires Bounded(rng)
    ensures IsBag(GenerateBag(rng, state).pieces)
  {
    AllKindsListed();
    ShufflingKeepsTheKinds(rng, state, PIECE_KINDS, BAG_SIZE - 1);
  }

  lemma AllKindsListed()
    ensures IsBag(PIECE_KINDS)
  {
    assert PIECE_KINDS[0] == I && PIECE_KINDS[1] == J && PIECE_KINDS[2] == L && PIECE_KINDS[3] == O
        && PIECE_KINDS[4] == S && PIECE_KINDS[5] == T && PIECE_KINDS[6] == Z;
    forall k: Kind
      ensures k in PIECE_KINDS
    {
      match k
      case I => case J => case L => case O => case S => case T => case Z =>
    }
  }

  // ---------------------------------------------------------------- fairness of the shuffle

  /** The shuffle as a function of the numbers drawn, the first for the last place. */
  function ShuffleBy(bag: seq<Kind>, index: nat, draws: seq<nat>): (r: seq<Kind>)
    requires index < |bag| && DrawsOk(draws, index)
    ensures |r| == |bag|
    decreases index
  {
    if index == 0 then bag else ShuffleBy(Swap(bag, index, draws[0]), index - 1, draws[1..])
  }

  /** One number for each place from `index` down to 1, none above its place. */
  predicate DrawsOk(draws: seq<nat>, index: nat) {
    |draws| == index && forall i | 0 <= i < index :: draws[i] <= index - i
  }

  function DrawsOf(rng: Rng, state: RandomState, index: nat): (draws: seq<nat>)
    requires Bounded(rng)
    ensures DrawsOk(draws, index)
    decreases index
  {
    if index == 0 then []
    else
      var drawn := rng(state, index + 1);
      var rest := DrawsOf(rng, drawn.0, index - 1);
      assert forall i | 0 < i < index :: ([drawn.1] + rest)[i] == rest[i - 1];
      [drawn.1] + rest
  }

  lemma {:induction false} ShuffleUsesTheDraws(rng: Rng, state: RandomState, bag: seq<Kind>, index: nat)
    requires Bounded(rng) && index < |bag|
    ensures Shuffle(rng, state, bag, index).pieces == ShuffleBy(bag, index, DrawsOf(rng, state, index))
    decreases index
  {
    if index > 0 {
      var drawn := rng(state, index + 1);
      ShuffleUsesTheDraws(rng, drawn.0, Swap(bag, index, drawn.1), index - 1);
      assert DrawsOf(rng, state, index)[1..] == DrawsOf(rng, drawn.0, index - 1);
    }
  }

  function PlaceOf(bag: seq<Kind>, k: Kind): (i: nat)
    requires k in bag
    ensures i < |bag| && bag[i] == k
    decreases |bag|
  {
    if bag[|bag| - 1] == k then |bag| - 1 else PlaceOf(bag[..|bag| - 1], k)
  }

  /** The same kinds, and the same places above `index`. */
  predicate Rearranges(bag: seq<Kind>, target: seq<Kind>, index: nat) {
    && |bag| == |target| && index < |bag|
    && Distinct(bag) && Distinct(target)
    && (forall i | index < i < |bag| :: bag[i] == target[i])
    && (forall i | 0 <= i <= index :: target[i] in bag)
  }

  lemma TargetComesFromBelow(bag: seq<Kind>, target: seq<Kind>, index: nat)
    requires Rearranges(bag, target, index)
    ensures target[index] in bag && PlaceOf(bag, target[index]) <= index
    ensures index > 0 ==> Rearranges(Swap(bag, index, PlaceOf(bag, target[index])), target, index - 1)
  {
    var place := PlaceOf(bag, target[index]);
    if index > 0 {
      SwappingKeepsTheKinds(bag, index, place);
    }
  }

  /** The draws that lead to a target order. */
  function DrawsFor(bag: seq<Kind>, target: seq<Kind>, index: nat): (draws: seq<nat>)
    requires Rearranges(bag, target, index)
    ensures DrawsOk(draws, index)
    decreases index
  {
    if index == 0 then []
    else
      TargetComesFromBelow(bag, target, index);
      var place := PlaceOf(bag, target[index]);
      var rest := DrawsFor(Swap(bag, index, place), target, index - 1);
      assert forall i | 0 < i < index :: ([place] + rest)[i] == rest[i - 1];
      [place] + rest
  }

  lemma DrawsForUnfolds(bag: seq<Kind>, target: seq<Kind>, index: nat)
    requires Rearranges(bag, target, index) && index > 0
    ensures target[index] in bag
    ensures var place := PlaceOf(bag, target[index]);
            && place <= index && Rearranges(Swap(bag, index, place), target, index - 1)
            && DrawsFor(bag, target, index) == [place] + DrawsFor(Swap(bag, index, place), target, index - 1)
  {
    TargetComesFromBelow(bag, target, index);
  }

  lemma ShuffleByUnfolds(bag: seq<Kind>, index: nat, draw: nat, rest: seq<nat>)
    requires 0 < index < |bag| && draw <= index && DrawsOk(rest, index - 1)
    ensures DrawsOk([draw] + rest, index)
    ensures ShuffleBy(bag, index, [draw] + rest) == ShuffleBy(Swap(bag, index, draw), index - 1, rest)
  {
    assert ([draw] + rest)[1..] == rest;
    assert forall i | 0 < i < index :: ([draw] + rest)[i] == rest[i - 1];
  }

  lemma {:induction false} DrawsReachTheTarget(bag: seq<Kind>, target: seq<Kind>, index: nat)
    requires Rearranges(bag, target, index)
    ensures ShuffleBy(bag, index, DrawsFor(bag, target, index)) == target
    decreases index
  {
    TargetComesFromBelow(bag, target, index);
    if index > 0 {
      hide Distinct, Swap, PlaceOf, Rearranges, DrawsFor, ShuffleBy, DrawsOk;
      var place := PlaceOf(bag, target[index]);
      DrawsReachTheTarget(Swap(bag, index, place), target, index - 1);
      DrawsForUnfolds(bag, target, index);
      ShuffleByUnfolds(bag, index, place, DrawsFor(Swap(bag, index, place), target, index - 1));
    } else {
      assert bag[0] == target[0];
      assert bag == target;
    }
  }

  lemma {:induction false} ShuffleLeavesTheRest(bag: seq<Kind>, index: nat, draws: seq<nat>)
    requires index < |bag| && DrawsOk(draws, index) && Distinct(bag)
    ensures Rearranges(bag, ShuffleBy(bag, index, draws), index)
    decreases index
  {
    if index > 0 {
      SwappingKeepsTheKinds(bag, index, draws[0]);
      ShuffleLeavesTheRest(Swap(bag, index, draws[0]), index - 1, draws[1..]);
    }
  }

  lemma PlaceIsUnique(bag: seq<Kind>, i: nat)
    requires i < |bag| && Distinct(bag)
    ensures bag[i] in bag && PlaceOf(bag, bag[i]) == i
  {
  }

  /** The last place is settled by the first draw. */
  lemma FirstDrawSettlesThePlace(bag: seq<Kind>, index: nat, draws: seq<nat>)
    requires 0 < index < |bag| && DrawsOk(draws, index) && Distinct(bag)
    ensures DrawsOk(draws[1..], index - 1) && draws[0] <= index
    ensures Distinct(Swap(bag, index, draws[0]))
    ensures ShuffleBy(bag, index, draws)[index] == bag[draws[0]]
  {
    var swapped := Swap(bag, index, draws[0]);
    SwappingKeepsTheKinds(bag, index, draws[0]);
    ShuffleLeavesTheRest(swapped, index - 1, draws[1..]);
    assert swapped[index] == ShuffleBy(swapped, index - 1, draws[1..])[index];
  }

  lemma {:induction false} DrawsAreDetermined(bag: seq<Kind>, index: nat, draws: seq<nat>)
    requires index < |bag| && DrawsOk(draws, index) && Distinct(bag)
    ensures Rearranges(bag, ShuffleBy(bag, index, draws), index)
    ensures DrawsFor(bag, ShuffleBy(bag, index, draws), index) == draws
    decreases index
  {
    ShuffleLeavesTheRest(bag, index, draws);
    if index > 0 {
      hide Distinct, Swap, PlaceOf;
      var target := ShuffleBy(bag, index, draws);
      FirstDrawSettlesThePlace(bag, index, draws);
      PlaceIsUnique(bag, draws[0]);
      TargetComesFromBelow(bag, target, index);
      DrawsAreDetermined(Swap(bag, index, draws[0]), index - 1, draws[1..]);
      assert [draws[0]] + draws[1..] == draws;
    }
  }

  predicate BagDraws(draws: seq<nat>) { DrawsOk(draws, BAG_SIZE - 1) }

  function BagFrom(draws: seq<nat>): seq<Kind>
    requires BagDraws(draws)
  {
    ShuffleBy(PIECE_KINDS, BAG_SIZE - 1, draws)
  }

  /**
   The shuffle is fair: every order of the seven kinds is produced, and by exactly one choice of the
   numbers drawn, so equally likely numbers make equally likely bags.
   */
  lemma EveryBagComesFromExactlyOneDraw(target: seq<Kind>)
    requires IsBag(target)
    ensures exists draws :: BagDraws(draws) && BagFrom(draws) == target
    ensures forall d1, d2 | BagDraws(d1) && BagDraws(d2) :: BagFrom(d1) == target && BagFrom(d2) == target ==> d1 == d2
  {
    AllKindsListed();
    var index := BAG_SIZE - 1;
    assert Rearranges(PIECE_KINDS, target, index);
    DrawsReachTheTarget(PIECE_KINDS, target, index);
    assert BagDraws(DrawsFor(PIECE_KINDS, target, index)) && BagFrom(DrawsFor(PIECE_KINDS, target, index)) == target;
    forall d1, d2 | BagDraws(d1) && BagDraws(d2) && BagFrom(d1) == target && BagFrom(d2) == target
      ensures d1 == d2
    {
      DrawsAreDetermined(PIECE_KINDS, index, d1);
      DrawsAreDetermined(PIECE_KINDS, index, d2);
    }
  }

  // ---------------------------------------------------------------- the lazy sequence

  datatype Shared = Shared(random: RandomState, pieces: seq<Kind>, bagsGenerated: nat)

  function CreateShared(seed: RandomState): Shared { Shared(seed, [], 0) }

  /** Appends bags until there are enough pieces. */
  function Extend(rng: Rng, s: Shared, minimum: nat): Shared
    requires Bounded(rng)
    decreases minimum - |s.pieces|
  {
    if |s.pieces| >= minimum then s
    else
      var bag := GenerateBag(rng, s.random);
      Extend(rng, Shared(bag.state, s.pieces + bag.pieces, s.bagsGenerated + 1), minimum)
  }

  /** None stands for the range error. */
  function EnsureShared(rng: Rng, s: Shared, minimum: int): Option<Shared>
    requires Bounded(rng)
  {
    if minimum < 0 || minimum > MAX_SEQUENCE_PIECES then None else Some(Extend(rng, s, minimum))
  }

  method EnsureSharedByLoop(rng: Rng, s: Shared, minimum: int) returns (r: Option<Shared>)
    requires Bounded(rng)
    ensures r == EnsureShared(rng, s, minimum)
  {
    if minimum < 0 || minimum > MAX_SEQUENCE_PIECES {
      return None;
    }
    var random, pieces, bagsGenerated := s.random, s.pieces, s.bagsGenerated;
    while |pieces| < minimum
      invariant Extend(rng, Shared(random, pieces, bagsGenerated), minimum) == Extend(rng, s, minimum)
      decreases minimum - |pieces|
    {
      var state, bag := GenerateBagInPlace(rng, random);
      random := state;
      pieces := pieces + bag;
      bagsGenerated := bagsGenerated + 1;
    }
    return Some(Shared(random, pieces, bagsGenerated));
  }

  datatype Window = Window(state: Shared, pieces: seq<Kind>)

  lemma {:induction false} ExtendingReaches(rng: Rng, s: Shared, minimum: nat)
    requires Bounded(rng)
    ensures |Extend(rng, s, minimum).pieces| >= minimum
    decreases minimum - |s.pieces|
  {
    if |s.pieces| < minimum {
      var bag := GenerateBag(rng, s.random);
      ExtendingReaches(rng, Shared(bag.state, s.pieces + bag.pieces, s.bagsGenerated + 1), minimum);
    }
  }

  function ReadWindow(rng: Rng, s: Shared, start: int, count: int): Option<Window>
    requires Bounded(rng)
  {
    if start < 0 || count < 0 || count > MAX_WINDOW_PIECES || start + count > MAX_SEQUENCE_PIECES then None
    else
      var next := Extend(rng, s, start + count);
      ExtendingReaches(rng, s, start + count);
      Some(Window(next, next.pieces[start..start + count]))
  }

  // ---------------------------------------------------------------- the sequence as a function of the seed

  function StateAfter(rng: Rng, seed: RandomState, bags: nat): RandomState
    requires Bounded(rng)
    decreases bags
  {
    if bags == 0 then seed else GenerateBag(rng, StateAfter(rng, seed, bags - 1)).state
  }

  /** The n-th piece of a seed. */
  function PieceAt(rng: Rng, seed: RandomState, n: nat): Kind
    requires Bounded(rng)
  {
    GenerateBag(rng, StateAfter(rng, seed, n / BAG_SIZE)).pieces[n % BAG_SIZE]
  }

  function Slice(rng: Rng, seed: RandomState, start: nat, count: nat): seq<Kind>
    requires Bounded(rng)
  {
    seq(count, i requires 0 <= i < count => PieceAt(rng, seed, start + i))
  }

  /** What has been generated so far is a prefix of the seed's sequence. */
  ghost predicate Lawful(rng: Rng, seed: RandomState, s: Shared)
    requires Bounded(rng)
  {
    && |s.pieces| == BAG_SIZE * s.bagsGenerated
    && s.random == StateAfter(rng, seed, s.bagsGenerated)
    && forall n | 0 <= n < |s.pieces| :: s.pieces[n] == PieceAt(rng, seed, n)
  }

  lemma OneMoreBag(rng: Rng, seed: RandomState, s: Shared)
    requires Bounded(rng) && Lawful(rng, seed, s)
    ensures var bag := GenerateBag(rng, s.random);
            Lawful(rng, seed, Shared(bag.state, s.pieces + bag.pieces, s.bagsGenerated + 1))
  {
    var bag := GenerateBag(rng, s.random);
    forall n | |s.pieces| <= n < |s.pieces| + BAG_SIZE
      ensures (s.pieces + bag.pieces)[n] == PieceAt(rng, seed, n)
    {
      Within(s.bagsGenerated, n - |s.pieces|);
    }
  }

  lemma Within(bags: nat, place: nat)
    requires place < BAG_SIZE
    ensures (BAG_SIZE * bags + place) / BAG_SIZE == bags && (BAG_SIZE * bags + place) % BAG_SIZE == place
  {
  }

  lemma {:induction false} ExtendingStaysLawful(rng: Rng, seed: RandomState, s: Shared, minimum: nat)
    requires Bounded(rng) && Lawful(rng, seed, s)
    ensures Lawful(rng, seed, Extend(rng, s, minimum)) && |Extend(rng, s, minimum).pieces| >= minimum
    decreases minimum - |s.pieces|
  {
    if |s.pieces| < minimum {
      var bag := GenerateBag(rng, s.random);
      OneMoreBag(rng, seed, s);
      ExtendingStaysLawful(rng, seed, Shared(bag.state, s.pieces + bag.pieces, s.bagsGenerated + 1), minimum);
    }
  }

  /**
   Lazy extension is invisible: whatever was generated before, a window is the slice of the seed's
   own sequence, and it is refused only for its bounds.
   */
  lemma WindowsAreSlices(rng: Rng, seed: RandomState, s: Shared, start: int, count: int)
    requires Bounded(rng) && Lawful(rng, seed, s)
    ensures var w := ReadWindow(rng, s, start, count);
            && (w.Some? <==> start >= 0 && 0 <= count <= MAX_WINDOW_PIECES && start + count <= MAX_SEQUENCE_PIECES)
            && (w.Some? ==> w.value.pieces == Slice(rng, seed, start, count) && Lawful(rng, seed, w.value.state))
  {
    if start >= 0 && count >= 0 {
      ExtendingStaysLawful(rng, seed, s, start + count);
    }
  }

  /** Every aligned block of seven holds every kind once. */
  lemma AlignedBlocksAreBags(rng: Rng, seed: RandomState, block: nat)
    requires Bounded(rng)
    ensures IsBag(Slice(rng, seed, BAG_SIZE * block, BAG_SIZE))
  {
    var bag := GenerateBag(rng, StateAfter(rng, seed, block)).pieces;
    BagsHoldEveryKindOnce(rng, StateAfter(rng, seed, block));
    forall i | 0 <= i < BAG_SIZE
      ensures PieceAt(rng, seed, BAG_SIZE * block + i) == bag[i]
    {
      Within(block, i);
    }
    assert Slice(rng, seed, BAG_SIZE * block, BAG_SIZE) == bag;
  }

  /** No kind is missing for long: any thirteen consecutive pieces hold all seven. */
  lemma NoKindIsMissingForLong(rng: Rng, seed: RandomState, start: nat, k: Kind)
    requires Bounded(rng)
    ensures k in Slice(rng, seed, start, 2 * BAG_SIZE - 1)
  {
    var block := (start + BAG_SIZE - 1) / BAG_SIZE;
    AlignedBlocksAreBags(rng, seed, block);
    var whole := Slice(rng, seed, BAG_SIZE * block, BAG_SIZE);
    assert k in whole;
    var i :| 0 <= i < BAG_SIZE && whole[i] == k;
    var offset := BAG_SIZE * block + i - start;
    assert 0 <= offset < 2 * BAG_SIZE - 1;
    assert Slice(rng, seed, start, 2 * BAG_SIZE - 1)[offset] == k;
  }
}

/**
 One match's piece sequence: a shared bag read through one cursor per player. Calls that the source
 rejects with an exception leave everything as it was.
 */
module PieceSequences {
  import opened Wrappers
  import opened Pieces
  import opened SevenBag

  const MAX_PIECE_WINDOW: nat := 14

  type PlayerId = nat

  datatype Sequence = Sequence(cursors: map<PlayerId, nat>, shared: Shared, finished: bool)

  function Fresh(seed: RandomState, first: PlayerId, second: PlayerId): Sequence {
    Sequence(map[first := 0, second := 0], CreateShared(seed), false)
  }

  datatype Refusal = Finished | BadCount | UnknownPlayer | PastTheEnd

  datatype PieceWindow = PieceWindow(player: PlayerId, cursor: nat, pieces: seq<Kind>)

  datatype Reading = Reading(sequence: Sequence, window: PieceWindow)

  function Read(rng: Rng, s: Sequence, player: PlayerId, count: int): Result<Reading, Refusal>
    requires Bounded(rng)
  {
    if s.finished then Err(Finished)
    else if count < 1 || count > MAX_PIECE_WINDOW then Err(BadCount)
    else if player !in s.cursors then Err(UnknownPlayer)
    else match ReadWindow(rng, s.shared, s.cursors[player], count)
      case None => Err(PastTheEnd)
      case Some(w) => Ok(Reading(s.(shared := w.state), PieceWindow(player, s.cursors[player], w.pieces)))
  }

  function Peek(rng: Rng, s: Sequence, player: PlayerId, count: int): Result<Reading, Refusal>
    requires Bounded(rng)
  {
    Read(rng, s, player, count)
  }

  function Draw(rng: Rng, s: Sequence, player: PlayerId, count: int): Result<Reading, Refusal>
    requires Bounded(rng)
  {
    match Read(rng, s, player, count)
    case Err(e) => Err(e)
    case Ok(r) =>
      Ok(r.(sequence := r.sequence.(cursors := s.cursors[player := s.cursors[player] + count])))
  }

  // ---------------------------------------------------------------- runs

  datatype Call = PeekAt(player: PlayerId, count: int) | DrawFor(player: PlayerId, count: int) | Finish

  function Outcome(rng: Rng, s: Sequence, call: Call): Result<Reading, Refusal>
    requires Bounded(rng)
  {
    match call
    case PeekAt(player, count) => Peek(rng, s, player, count)
    case DrawFor(player, count) => Draw(rng, s, player, count)
    case Finish => Ok(Reading(s.(finished := true), PieceWindow(0, 0, [])))
  }

  function Ran(rng: Rng, start: Sequence, calls: seq<Call>): Sequence
    requires Bounded(rng)
    decreases |calls|
  {
    if calls == [] then start
    else
      var before := Ran(rng, start, calls[..|calls| - 1]);
      match Outcome(rng, before, calls[|calls| - 1])
      case Err(_) => before
      case Ok(r) => r.sequence
  }

  /** Everything a player drew in a run, in order. */
  function Drawn(rng: Rng, start: Sequence, calls: seq<Call>, player: PlayerId): seq<Kind>
    requires Bounded(rng)
    decreases |calls|
  {
    if calls == [] then []
    else
      var earlier := calls[..|calls| - 1];
      var call := calls[|calls| - 1];
      var outcome := Outcome(rng, Ran(rng, start, earlier), call);
      if call.DrawFor? && call.player == player && outcome.Ok?
      then Drawn(rng, start, earlier, player) + outcome.value.window.pieces
      else Drawn(rng, start, earlier, player)
  }

  lemma SlicesJoin(rng: Rng, seed: RandomState, a: nat, b: nat)
    requires Bounded(rng)
    ensures Slice(rng, seed, 0, a) + Slice(rng, seed, a, b) == Slice(rng, seed, 0, a + b)
  {
  }

  ghost predicate Sound(rng: Rng, seed: RandomState, s: Sequence, player: PlayerId, drawn: seq<Kind>)
    requires Bounded(rng)
  {
    && Lawful(rng, seed, s.shared)
    && (if player in s.cursors then drawn == Slice(rng, seed, 0, s.cursors[player]) else drawn == [])
  }

  lemma ReadsStaySound(rng: Rng, seed: RandomState, s: Sequence, reader: PlayerId, count: int)
    requires Bounded(rng) && Lawful(rng, seed, s.shared)
    ensures var r := Read(rng, s, reader, count);
            r.Ok? ==>
              && reader in s.cursors && count >= 1
              && Lawful(rng, seed, r.value.sequence.shared) && r.value.sequence.cursors == s.cursors
              && r.value.window.pieces == Slice(rng, seed, s.cursors[reader], count)
  {
    if reader in s.cursors {
      WindowsAreSlices(rng, seed, s.shared, s.cursors[reader], count);
    }
  }

  lemma OneCallStaysSound(rng: Rng, seed: RandomState, s: Sequence, call: Call, player: PlayerId, drawn: seq<Kind>)
    requires Bounded(rng) && Sound(rng, seed, s, player, drawn)
    ensures var o := Outcome(rng, s, call);
            o.Ok? ==> Sound(rng, seed, o.value.sequence, player,
                            if call.DrawFor? && call.player == player then drawn + o.value.window.pieces else drawn)
  {
    hide Read, Slice, Lawful;
    if !call.Finish? {
      ReadsStaySound(rng, seed, s, call.player, call.count);
      if call.DrawFor? && call.player == player && player in s.cursors && call.count >= 1 {
        SlicesJoin(rng, seed, s.cursors[player], call.count);
      }
    }
  }

  lemma {:induction false} RunsAreSound(
      rng: Rng, seed: RandomState, first: PlayerId, second: PlayerId, calls: seq<Call>, player: PlayerId)
    requires Bounded(rng)
    ensures var start := Fresh(seed, first, second);
            && Sound(rng, seed, Ran(rng, start, calls), player, Drawn(rng, start, calls, player))
            && Ran(rng, start, calls).cursors.Keys == {first, second}
    decreases |calls|
  {
    if calls == [] {
      assert Slice(rng, seed, 0, 0) == [];
    } else {
      var start := Fresh(seed, first, second);
      var earlier := calls[..|calls| - 1];
      RunsAreSound(rng, seed, first, second, earlier, player);
      OneCallStaysSound(rng, seed, Ran(rng, start, earlier), calls[|calls| - 1], player, Drawn(rng, start, earlier, player));
    }
  }

  /**
   Both players are dealt the same pieces: under any interleaving of peeks and draws by anyone, what a
   player has drawn is the beginning of the seed's sequence, as long as that player's own cursor, and
   the next window is the slice there; a window is refused only for its size, a stranger, the end of
   the sequence or a finished match.
   */
  lemma DealsAreFair(
      rng: Rng, seed: RandomState, first: PlayerId, second: PlayerId, calls: seq<Call>, player: PlayerId, count: int)
    requires Bounded(rng)
    ensures var start := Fresh(seed, first, second);
            var s := Ran(rng, start, calls);
            && (player in {first, second} <==> player in s.cursors)
            && (player in s.cursors ==> Drawn(rng, start, calls, player) == Slice(rng, seed, 0, s.cursors[player]))
            && (Peek(rng, s, player, count).Ok? <==>
                && player in s.cursors && !s.finished && 1 <= count <= MAX_PIECE_WINDOW
                && s.cursors[player] + count <= MAX_SEQUENCE_PIECES)
            && (Peek(rng, s, player, count).Ok? ==>
                && Peek(rng, s, player, count).value.window
                   == PieceWindow(player, s.cursors[player], Slice(rng, seed, s.cursors[player], count))
                && Draw(rng, s, player, count).Ok?
                && Draw(rng, s, player, count).value.window == Peek(rng, s, player, count).value.window)
  {
    RunsAreSound(rng, seed, first, second, calls, player);
    var s := Ran(rng, Fresh(seed, first, second), calls);
    if player in s.cursors {
      WindowsAreSlices(rng, seed, s.shared, s.cursors[player], count);
    }
  }

  // ---------------------------------------------------------------- the commitment

  type Byte = b: nat | b < 256

  /** Four unsigned words of 32 bits. */
  type Seed = s: seq<nat> | |s| == 4 && forall i | 0 <= i < 4 :: s[i] < 0x1_0000_0000 witness [0, 0, 0, 0]

  function WordBytes(w: nat): (b: seq<Byte>)
    requires w < 0x1_0000_0000
    ensures |b| == 4
  {
    [w % 256, w / 256 % 256, w / 65536 % 256, w / 16777216]
  }

  function WordOf(b: seq<Byte>): nat
    requires |b| == 4
  {
    var b0: nat, b1: nat, b2: nat, b3: nat := b[0], b[1], b[2], b[3];
    b0 + 256 * b1 + 65536 * b2 + 16777216 * b3
  }

  lemma WordsRoundTrip(w: nat)
    requires w < 0x1_0000_0000
    ensures WordOf(WordBytes(w)) == w
  {
    assert w / 65536 == w / 256 / 256 && w / 16777216 == w / 65536 / 256;
  }

  function SeedBytes(seed: Seed): (b: seq<Byte>)
    ensures |b| == 16
  {
    WordBytes(seed[0]) + WordBytes(seed[1]) + WordBytes(seed[2]) + WordBytes(seed[3])
  }

  function SeedFromBytes(b: seq<Byte>): seq<nat>
    requires |b| == 16
  {
    [WordOf(b[0..4]), WordOf(b[4..8]), WordOf(b[8..12]), WordOf(b[12..16])]
  }

  lemma FoursSplit(a: seq<Byte>, b: seq<Byte>, c: seq<Byte>, d: seq<Byte>)
    requires |a| == 4 && |b| == 4 && |c| == 4 && |d| == 4
    ensures var s := a + b + c + d; s[0..4] == a && s[4..8] == b && s[8..12] == c && s[12..16] == d
  {
    var s := a + b + c + d;
    assert s[0..4] == a;
    assert s[4..8] == b;
    assert s[8..12] == c;
    assert s[12..16] == d;
  }

  /** The revealed bytes give back the seed. */
  lemma RevealsRestoreTheSeed(seed: Seed)
    ensures SeedFromBytes(SeedBytes(seed)) == seed
  {
    var b := SeedBytes(seed);
    hide WordBytes, WordOf;
    var w0, w1, w2, w3 := WordBytes(seed[0]), WordBytes(seed[1]), WordBytes(seed[2]), WordBytes(seed[3]);
    FoursSplit(w0, w1, w2, w3);
    forall i | 0 <= i < 4
      ensures WordOf(WordBytes(seed[i])) == seed[i]
    {
      WordsRoundTrip(seed[i]);
    }
  }

  /** A match or ruleset identifier that the constructor accepts holds no zero byte. */
  predicate ContextOk(c: seq<Byte>) { 1 <= |c| && forall i | 0 <= i < |c| :: c[i] != 0 }

  /** What is hashed: the domain, the match, the ruleset and the seed, with zero bytes between them. */
  function Committed(domain: seq<Byte>, matchId: seq<Byte>, ruleset: seq<Byte>, seed: Seed): seq<Byte> {
    domain + [0] + matchId + [0] + ruleset + [0] + SeedBytes(seed)
  }

  function FirstZero(s: seq<Byte>): nat
    decreases |s|
  {
    if s == [] || s[0] == 0 then 0 else 1 + FirstZero(s[1..])
  }

  lemma {:induction false} FirstZeroEndsTheContext(a: seq<Byte>, b: seq<Byte>)
    requires forall i | 0 <= i < |a| :: a[i] != 0
    ensures FirstZero(a + [0] + b) == |a|
    decreases |a|
  {
    if a != [] {
      FirstZeroEndsTheContext(a[1..], b);
      assert (a + [0] + b)[1..] == a[1..] + [0] + b;
    }
  }

  lemma FirstZeroSplits(a: seq<Byte>, b: seq<Byte>, x: seq<Byte>, y: seq<Byte>)
    requires ContextOk(a) && ContextOk(x) && a + [0] + b == x + [0] + y
    ensures a == x && b == y
  {
    FirstZeroEndsTheContext(a, b);
    FirstZeroEndsTheContext(x, y);
    assert (a + [0] + b)[..|a|] == a && (x + [0] + y)[..|x|] == x;
    assert (a + [0] + b)[|a| + 1..] == b && (x + [0] + y)[|x| + 1..] == y;
  }

  /** The commitment binds: with accepted identifiers, equal hashed bytes mean the same match, ruleset and seed. */
  lemma CommitmentsBind(
      domain: seq<Byte>, m1: seq<Byte>, r1: seq<Byte>, s1: Seed, m2: seq<Byte>, r2: seq<Byte>, s2: Seed)
    requires ContextOk(m1) && ContextOk(r1) && ContextOk(m2) && ContextOk(r2)
    requires Committed(domain, m1, r1, s1) == Committed(domain, m2, r2, s2)
    ensures m1 == m2 && r1 == r2 && s1 == s2
  {
    var prefix := domain + [0];
    var rest1, rest2 := m1 + [0] + (r1 + [0] + SeedBytes(s1)), m2 + [0] + (r2 + [0] + SeedBytes(s2));
    assert Committed(domain, m1, r1, s1) == prefix + rest1;
    assert Committed(domain, m2, r2, s2) == prefix + rest2;
    assert (prefix + rest1)[|prefix|..] == rest1 && (prefix + rest2)[|prefix|..] == rest2;
    FirstZeroSplits(m1, r1 + [0] + SeedBytes(s1), m2, r2 + [0] + SeedBytes(s2));
    FirstZeroSplits(r1, SeedBytes(s1), r2, SeedBytes(s2));
    RevealsRestoreTheSeed(s1);
    RevealsRestoreTheSeed(s2);
  }
}

/** The sequence object: cursors and the shared bag changed in place. */
module MatchPieceSequences {
  import opened Wrappers
  import opened Pieces
  import opened SevenBag
  import opened PieceSequences

  class MatchPieceSequence {
    const rng: Rng
    var cursors: map<PlayerId, nat>
    var shared: Shared
    var finished: bool

    ghost function View(): Sequence
      reads this
    {
      Sequence(cursors, shared, finished)
    }

    constructor (rng: Rng, seed: RandomState, first: PlayerId, second: PlayerId)
      ensures this.rng == rng && View() == Fresh(seed, first, second)
    {
      this.rng := rng;
      cursors := map[first := 0, second := 0];
      shared := CreateShared(seed);
      finished := false;
    }

    method ReadAt(player: PlayerId, cursor: nat, count: nat) returns (r: Option<PieceWindow>)
      requires Bounded(rng)
      modifies this`shared
      ensures var w := ReadWindow(rng, old(shared), cursor, count);
              if w.Some? then r == Some(PieceWindow(player, cursor, w.value.pieces)) && shared == w.value.state
              else r == None && shared == old(shared)
    {
      if count > MAX_WINDOW_PIECES || cursor + count > MAX_SEQUENCE_PIECES {
        return None;
      }
      var next := EnsureSharedByLoop(rng, shared, cursor + count);
      ExtendingReaches(rng, shared, cursor + count);
      shared := next.value;
      return Some(PieceWindow(player, cursor, shared.pieces[cursor..cursor + count]));
    }

    method PeekPieces(player: PlayerId, count: int) returns (r: Result<PieceWindow, Refusal>)
      requires Bounded(rng)
      modifies this`shared
      ensures match Peek(rng, old(View()), player, count)
              case Err(e) => r == Err(e) && View() == old(View())
              case Ok(reading) => r == Ok(reading.window) && View() == reading.sequence
    {
      if finished {
        return Err(Finished);
      }
      if count < 1 || count > MAX_PIECE_WINDOW {
        return Err(BadCount);
      }
      if player !in cursors {
        return Err(UnknownPlayer);
      }
      var window := ReadAt(player, cursors[player], count);
      return if window.Some? then Ok(window.value) else Err(PastTheEnd);
    }

    method DrawPieces(player: PlayerId, count: int) returns (r: Result<PieceWindow, Refusal>)
      requires Bounded(rng)
      modifies this`shared, this`cursors
      ensures match Draw(rng, old(View()), player, count)
              case Err(e) => r == Err(e) && View() == old(View())
              case Ok(reading) => r == Ok(reading.window) && View() == reading.sequence
    {
      if finished {
        return Err(Finished);
      }
      if count < 1 || count > MAX_PIECE_WINDOW {
        return Err(BadCount);
      }
      if player !in cursors {
        return Err(UnknownPlayer);
      }
      var window := ReadAt(player, cursors[player], count);
      if window.None? {
        return Err(PastTheEnd);
      }
      cursors := cursors[player := cursors[player] + count];
      return Ok(window.value);
    }

    method FinishSequence()
      modifies this`finished
      ensures View() == old(View()).(finished := true)
    {
      finished := true;
    }
  }
}

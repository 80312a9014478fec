/** The incoming garbage queue: FIFO cancellation by attack, and application of the ready packets. */
module Garbage {
  import opened Wrappers
  import opened Boards

  datatype Packet = Packet(packetId: string, source: string, amount: int, appliesAtFrame: int, hole: int)

  predicate PacketOk(p: Packet) {
    && p.packetId != "" && p.source != ""
    && p.amount >= 1 && p.appliesAtFrame >= 0 && 0 <= p.hole < WIDTH
  }

  predicate PacketsOk(ps: seq<Packet>) { forall i | 0 <= i < |ps| :: PacketOk(ps[i]) }

  function Amount(ps: seq<Packet>): int { if ps == [] then 0 else ps[0].amount + Amount(ps[1..]) }

  function Min(a: int, b: int): int { if a < b then a else b }

  lemma {:induction false} AmountAppend(ps: seq<Packet>, qs: seq<Packet>)
    ensures Amount(ps + qs) == Amount(ps) + Amount(qs)
    decreases |ps|
  {
    if ps == [] {
      assert ps + qs == qs;
    } else {
      AmountAppend(ps[1..], qs);
      assert (ps + qs)[1..] == ps[1..] + qs;
    }
  }

  lemma {:induction false} AmountIsNonNegative(ps: seq<Packet>)
    requires PacketsOk(ps)
    ensures Amount(ps) >= 0 && (Amount(ps) == 0 <==> ps == [])
    decreases |ps|
  {
    if ps != [] {
      AmountIsNonNegative(ps[1..]);
    }
  }

  // ---------------------------------------------------------------- cancellation

  /** Removes `capacity` rows from the front of the queue; returns what is left and how much was removed. */
  function Spend(ps: seq<Packet>, capacity: nat): (seq<Packet>, nat)
    requires PacketsOk(ps)
  {
    if ps == [] || capacity == 0 then (ps, 0)
    else if ps[0].amount <= capacity then
      var rest := Spend(ps[1..], capacity - ps[0].amount);
      (rest.0, ps[0].amount + rest.1)
    else ([ps[0].(amount := ps[0].amount - capacity)] + ps[1..], capacity)
  }

  datatype Cancellation = Cancellation(packets: seq<Packet>, cancelled: nat, attackSpent: nat, outgoing: nat)

  /** The cancellation multiplier: one, or two during the opener. */
  datatype Multiplier = Single | Double

  function Times(attack: nat, m: Multiplier): nat { if m.Double? then 2 * attack else attack }

  /** The quotient by the multiplier, rounded up. */
  function CeilDiv(cancelled: nat, m: Multiplier): nat { if m.Double? then (cancelled + 1) / 2 else cancelled }

  /** Attack cancels queued garbage first; a multiplier of two only strengthens the defence. */
  function CancelWithAttack(ps: seq<Packet>, attack: nat, multiplier: Multiplier): Cancellation
    requires PacketsOk(ps)
  {
    var r := Spend(ps, Times(attack, multiplier));
    var spent := Min(attack, CeilDiv(r.1, multiplier));
    Cancellation(r.0, r.1, spent, attack - spent)
  }

  /** The cancellation loop over a local copy of the queue. */
  method CancelByLoop(ps: seq<Packet>, attack: nat, multiplier: Multiplier) returns (r: Cancellation)
    requires PacketsOk(ps)
    ensures r == CancelWithAttack(ps, attack, multiplier)
  {
    var next := ps;
    var capacity := Times(attack, multiplier);
    var cancelled: nat := 0;
    ghost var total := Spend(ps, capacity);
    while |next| > 0 && capacity > 0
      invariant capacity >= 0 && PacketsOk(next)
      invariant Spend(next, capacity).0 == total.0 && cancelled + Spend(next, capacity).1 == total.1
      decreases |next|, capacity
    {
      var first := next[0];
      var amount := Min(first.amount, capacity);
      cancelled := cancelled + amount;
      capacity := capacity - amount;
      if amount == first.amount {
        next := next[1..];
      } else {
        next := next[0 := first.(amount := first.amount - amount)];
      }
    }
    var spent := Min(attack, CeilDiv(cancelled, multiplier));
    return Cancellation(next, cancelled, spent, attack - spent);
  }

  /** Spending removes as much as the queue holds, up to the capacity, and keeps the queue well formed. */
  lemma {:induction false} SpendingIsExact(ps: seq<Packet>, capacity: nat)
    requires PacketsOk(ps)
    ensures var r := Spend(ps, capacity);
            && PacketsOk(r.0)
            && r.1 == Min(capacity, Amount(ps))
            && Amount(r.0) == Amount(ps) - r.1
            && |r.0| <= |ps|
    decreases |ps|
  {
    AmountIsNonNegative(ps);
    if ps != [] && capacity > 0 {
      AmountIsNonNegative(ps[1..]);
      if ps[0].amount <= capacity {
        SpendingIsExact(ps[1..], capacity - ps[0].amount);
      } else {
        assert ([ps[0].(amount := ps[0].amount - capacity)] + ps[1..])[1..] == ps[1..];
      }
    }
  }

  lemma {:induction false} SpendingInTwo(ps: seq<Packet>, a: nat, b: nat)
    requires PacketsOk(ps)
    ensures PacketsOk(Spend(ps, a).0)
    ensures Spend(ps, a + b).0 == Spend(Spend(ps, a).0, b).0
    ensures Spend(ps, a + b).1 == Spend(ps, a).1 + Spend(Spend(ps, a).0, b).1
    decreases |ps|
  {
    SpendingIsExact(ps, a);
    if ps != [] && a > 0 {
      if ps[0].amount <= a {
        SpendingInTwo(ps[1..], a - ps[0].amount, b);
      } else {
        var cut := [ps[0].(amount := ps[0].amount - a)] + ps[1..];
        assert cut[1..] == ps[1..];
      }
    }
  }

  /** Whatever an attack cannot cancel is sent on, and it is sent on only when the queue is empty. */
  lemma CancellationConserves(ps: seq<Packet>, attack: nat, multiplier: Multiplier)
    requires PacketsOk(ps)
    ensures var r := CancelWithAttack(ps, attack, multiplier);
            && PacketsOk(r.packets)
            && r.cancelled == Min(Times(attack, multiplier), Amount(ps))
            && Amount(r.packets) + r.cancelled == Amount(ps)
            && r.outgoing + CeilDiv(r.cancelled, multiplier) == attack
            && (r.outgoing > 0 ==> r.packets == [])
  {
    SpendingIsExact(ps, Times(attack, multiplier));
    AmountIsNonNegative(ps);
    AmountIsNonNegative(Spend(ps, Times(attack, multiplier)).0);
  }

  /**
   Cancellation does not depend on how an attack is split: cancelling with `a` and then with `b`
   leaves the same queue, cancels the same amount and sends the same total as cancelling with `a + b`,
   under either multiplier.
   */
  lemma CancellationIsAdditive(ps: seq<Packet>, a: nat, b: nat, multiplier: Multiplier)
    requires PacketsOk(ps)
    ensures PacketsOk(CancelWithAttack(ps, a, multiplier).packets)
    ensures var one := CancelWithAttack(ps, a + b, multiplier);
            var first := CancelWithAttack(ps, a, multiplier);
            var second := CancelWithAttack(first.packets, b, multiplier);
            && one.packets == second.packets
            && one.cancelled == first.cancelled + second.cancelled
            && one.outgoing == first.outgoing + second.outgoing
  {
    CancellationConserves(ps, a, multiplier);
    CancellationConserves(CancelWithAttack(ps, a, multiplier).packets, b, multiplier);
    CancellationConserves(ps, a + b, multiplier);
    AmountIsNonNegative(ps);
    AmountIsNonNegative(CancelWithAttack(ps, a, multiplier).packets);
    SpendingInTwo(ps, Times(a, multiplier), Times(b, multiplier));
    var first, second := CancelWithAttack(ps, a, multiplier).cancelled,
                         CancelWithAttack(CancelWithAttack(ps, a, multiplier).packets, b, multiplier).cancelled;
    RoundingUpIsAdditive(first, second, a, multiplier);
  }

  /** Rounding up loses nothing across a split: the first part is a whole multiple, or the second is nothing. */
  lemma RoundingUpIsAdditive(first: nat, second: nat, a: nat, multiplier: Multiplier)
    requires first == Times(a, multiplier) || second == 0
    ensures CeilDiv(first + second, multiplier) == CeilDiv(first, multiplier) + CeilDiv(second, multiplier)
  {
  }

  /** Cancelling attack by attack, in order; zero attacks are skipped. */
  function CancelAll(ps: seq<Packet>, attacks: seq<nat>, multiplier: Multiplier): (r: (seq<Packet>, nat, seq<nat>))
    requires PacketsOk(ps)
    ensures PacketsOk(r.0)
  {
    if attacks == [] then (ps, 0, [])
    else
      var front := CancelAll(ps, attacks[..|attacks| - 1], multiplier);
      var attack := attacks[|attacks| - 1];
      if attack == 0 then front
      else
        CancellationConserves(front.0, attack, multiplier);
        var c := CancelWithAttack(front.0, attack, multiplier);
        (c.packets, front.1 + c.cancelled, if c.outgoing > 0 then front.2 + [c.outgoing] else front.2)
  }

  function Sum(ns: seq<nat>): nat { if ns == [] then 0 else Sum(ns[..|ns| - 1]) + ns[|ns| - 1] }

  lemma SumAppendOne(ns: seq<nat>, n: nat)
    ensures Sum(ns + [n]) == Sum(ns) + n
  {
    assert (ns + [n])[..|ns|] == ns;
  }

  /** One more attack after `before`: the totals that `CancelAll` reports. */
  lemma CancelAllStep(ps: seq<Packet>, attacks: seq<nat>, multiplier: Multiplier)
    requires PacketsOk(ps) && attacks != []
    ensures var before := CancelAll(ps, attacks[..|attacks| - 1], multiplier);
            var c := CancelWithAttack(before.0, attacks[|attacks| - 1], multiplier);
            var r := CancelAll(ps, attacks, multiplier);
            r.0 == c.packets && r.1 == before.1 + c.cancelled && Sum(r.2) == Sum(before.2) + c.outgoing
  {
    var before := CancelAll(ps, attacks[..|attacks| - 1], multiplier);
    var attack := attacks[|attacks| - 1];
    CancellationConserves(before.0, attack, multiplier);
    var c := CancelWithAttack(before.0, attack, multiplier);
    SumAppendOne(before.2, c.outgoing);
    assert before.2 + [] == before.2;
  }

  /**
   Splitting an attack into packets neither gains nor loses attack: a list of packets cancels and
   sends exactly what their sum would in one piece.
   */
  lemma {:induction false} SplittingAttackIsNeutral(ps: seq<Packet>, attacks: seq<nat>, multiplier: Multiplier)
    requires PacketsOk(ps)
    ensures var split, whole := CancelAll(ps, attacks, multiplier), CancelWithAttack(ps, Sum(attacks), multiplier);
            split.0 == whole.packets && split.1 == whole.cancelled && Sum(split.2) == whole.outgoing
    decreases |attacks|
  {
    if attacks == [] {
      CancellationConserves(ps, 0, multiplier);
    } else {
      var front, attack := attacks[..|attacks| - 1], attacks[|attacks| - 1];
      SplittingAttackIsNeutral(ps, front, multiplier);
      CancelAllStep(ps, attacks, multiplier);
      CancellationIsAdditive(ps, Sum(front), attack, multiplier);
    }
  }

  // ---------------------------------------------------------------- application

  /** Takes ready rows from the front of the queue, up to `room` rows; returns the rest and the holes. */
  function TakeReady(ps: seq<Packet>, frame: int, room: nat): (seq<Packet>, seq<int>)
    requires PacketsOk(ps)
  {
    if ps == [] || room == 0 || ps[0].appliesAtFrame > frame then (ps, [])
    else if ps[0].amount <= room then
      var rest := TakeReady(ps[1..], frame, room - ps[0].amount);
      (rest.0, Repeat(ps[0].hole, ps[0].amount) + rest.1)
    else ([ps[0].(amount := ps[0].amount - room)] + ps[1..], Repeat(ps[0].hole, room))
  }

  /** The application loop over a local copy of the queue. */
  method TakeByLoop(ps: seq<Packet>, frame: int, cap: nat) returns (next: seq<Packet>, holes: seq<int>)
    requires PacketsOk(ps)
    ensures (next, holes) == TakeReady(ps, frame, cap)
  {
    next, holes := ps, [];
    ghost var total := TakeReady(ps, frame, cap);
    while |next| > 0 && |holes| < cap
      invariant |holes| <= cap && PacketsOk(next)
      invariant TakeReady(next, frame, cap - |holes|).0 == total.0
      invariant holes <= total.1 && total.1[|holes|..] == TakeReady(next, frame, cap - |holes|).1
      decreases |next|, cap - |holes|
    {
      var first := next[0];
      if first.appliesAtFrame > frame {
        break;
      }
      var amount := Min(first.amount, cap - |holes|);
      ghost var rest := total.1[|holes|..];
      assert rest[..amount] == Repeat(first.hole, amount);
      assert total.1[..|holes| + amount] == holes + Repeat(first.hole, amount);
      holes := holes + Repeat(first.hole, amount);
      if amount == first.amount {
        next := next[1..];
        assert rest[amount..] == TakeReady(next, frame, cap - |holes|).1;
      } else {
        next := next[0 := first.(amount := first.amount - amount)];
        assert rest[amount..] == [];
      }
    }
    assert |total.1[|holes|..]| == 0;
    assert holes == total.1;
    assert (next, holes) == total;
  }

  predicate SortedByDueFrame(ps: seq<Packet>) {
    forall i, j | 0 <= i < j < |ps| :: ps[i].appliesAtFrame <= ps[j].appliesAtFrame
  }

  /** All the rows that are due, wherever they stand in the queue. */
  function ReadyAmount(ps: seq<Packet>, frame: int): int {
    if ps == [] then 0
    else (if ps[0].appliesAtFrame <= frame then ps[0].amount else 0) + ReadyAmount(ps[1..], frame)
  }

  lemma {:induction false} TakingConserves(ps: seq<Packet>, frame: int, room: nat)
    requires PacketsOk(ps)
    ensures var r := TakeReady(ps, frame, room);
            && PacketsOk(r.0) && HolesValid(r.1)
            && |r.1| <= room
            && Amount(r.0) + |r.1| == Amount(ps)
            && (SortedByDueFrame(ps) ==> SortedByDueFrame(r.0))
    decreases |ps|
  {
    if ps != [] && room > 0 && ps[0].appliesAtFrame <= frame {
      if ps[0].amount <= room {
        TakingConserves(ps[1..], frame, room - ps[0].amount);
      } else {
        assert ([ps[0].(amount := ps[0].amount - room)] + ps[1..])[1..] == ps[1..];
      }
    }
  }

  lemma {:induction false} NothingReadyBehindALatePacket(ps: seq<Packet>, frame: int)
    requires forall i | 0 <= i < |ps| :: ps[i].appliesAtFrame > frame
    ensures ReadyAmount(ps, frame) == 0
    decreases |ps|
  {
    if ps != [] {
      NothingReadyBehindALatePacket(ps[1..], frame);
    }
  }

  lemma {:induction false} ReadyIsNonNegative(ps: seq<Packet>, frame: int)
    requires PacketsOk(ps)
    ensures 0 <= ReadyAmount(ps, frame)
    decreases |ps|
  {
    if ps != [] {
      ReadyIsNonNegative(ps[1..], frame);
    }
  }

  /** On a queue sorted by due frame, exactly min(cap, ready rows) rows are taken. */
  lemma {:induction false} SortedQueuesGiveAllReadyRows(ps: seq<Packet>, frame: int, room: nat)
    requires PacketsOk(ps) && SortedByDueFrame(ps)
    ensures |TakeReady(ps, frame, room).1| == Min(room, ReadyAmount(ps, frame))
    decreases |ps|
  {
    ReadyIsNonNegative(ps, frame);
    if ps != [] {
      ReadyIsNonNegative(ps[1..], frame);
      if ps[0].appliesAtFrame > frame {
        NothingReadyBehindALatePacket(ps, frame);
      } else if room > 0 && ps[0].amount <= room {
        SortedQueuesGiveAllReadyRows(ps[1..], frame, room - ps[0].amount);
      }
    }
  }

  /** Do the packets of `rest` have the due frames of the last packets of `ps`? */
  predicate DueLike(rest: seq<Packet>, ps: seq<Packet>) {
    && |rest| <= |ps|
    && forall i | 0 <= i < |rest| :: rest[i].appliesAtFrame == ps[i + |ps| - |rest|].appliesAtFrame
  }

  /** Cancellation only removes from the front: what is left keeps its due frames. */
  lemma {:induction false} SpendingLeavesASuffix(ps: seq<Packet>, capacity: nat)
    requires PacketsOk(ps)
    ensures DueLike(Spend(ps, capacity).0, ps)
    decreases |ps|
  {
    if ps != [] && capacity > 0 && ps[0].amount <= capacity {
      SpendingLeavesASuffix(ps[1..], capacity - ps[0].amount);
    }
  }

  lemma CancellingLeavesASuffix(ps: seq<Packet>, attacks: seq<nat>, multiplier: Multiplier)
    requires PacketsOk(ps)
    ensures DueLike(CancelAll(ps, attacks, multiplier).0, ps)
  {
    SplittingAttackIsNeutral(ps, attacks, multiplier);
    SpendingLeavesASuffix(ps, Times(Sum(attacks), multiplier));
  }
}

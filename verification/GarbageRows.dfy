/** The garbage queue row by row: both cancellation and application consume it from the front. */
module GarbageRows {
  import opened Boards
  import opened Garbage

  /** One row of garbage on its way: the column of its hole and the frame it falls due. */
  datatype Due = Due(hole: int, frame: int)

  function RowsOf(p: Packet): seq<Due>
    requires PacketOk(p)
  {
    Repeat(Due(p.hole, p.appliesAtFrame), p.amount)
  }

  /** A queue as the list of its rows. */
  function Unrolled(ps: seq<Packet>): seq<Due>
    requires PacketsOk(ps)
  {
    if ps == [] then [] else RowsOf(ps[0]) + Unrolled(ps[1..])
  }

  lemma {:induction false} UnrolledCounts(ps: seq<Packet>)
    requires PacketsOk(ps)
    ensures |Unrolled(ps)| == Amount(ps)
    decreases |ps|
  {
    if ps != [] {
      UnrolledCounts(ps[1..]);
    }
  }

  lemma {:induction false} UnrolledAppend(ps: seq<Packet>, p: Packet)
    requires PacketsOk(ps) && PacketOk(p)
    ensures PacketsOk(ps + [p]) && Unrolled(ps + [p]) == Unrolled(ps) + RowsOf(p)
    decreases |ps|
  {
    var all := ps + [p];
    if ps == [] {
      assert all[1..] == [] && all[0] == p;
    } else {
      UnrolledAppend(ps[1..], p);
      assert all[1..] == ps[1..] + [p] && all[0] == ps[0];
    }
  }

  lemma RowsOfSplit(p: Packet, n: int)
    requires PacketOk(p) && 0 < n < p.amount
    ensures RowsOf(p) == RowsOf(p.(amount := n)) + RowsOf(p.(amount := p.amount - n))
  {
  }

  /** A packet cut in front: its rows without the first `n`. */
  lemma CutPacket(ps: seq<Packet>, n: int)
    requires PacketsOk(ps) && ps != [] && 0 < n < ps[0].amount
    ensures var cut := [ps[0].(amount := ps[0].amount - n)] + ps[1..];
            PacketsOk(cut) && Unrolled(ps) == RowsOf(ps[0].(amount := n)) + Unrolled(cut)
  {
    var cut := [ps[0].(amount := ps[0].amount - n)] + ps[1..];
    RowsOfSplit(ps[0], n);
    assert cut[1..] == ps[1..];
  }

  /** Cancellation removes rows from the front. */
  lemma {:induction false} SpendingTakesTheFront(ps: seq<Packet>, capacity: nat)
    requires PacketsOk(ps)
    ensures var r := Spend(ps, capacity);
            PacketsOk(r.0) && r.1 <= |Unrolled(ps)| && Unrolled(r.0) == Unrolled(ps)[r.1..]
    decreases |ps|
  {
    if ps != [] && capacity > 0 {
      if ps[0].amount <= capacity {
        SpendingTakesTheFront(ps[1..], capacity - ps[0].amount);
      } else {
        CutPacket(ps, capacity);
      }
    }
  }

  lemma CancellingTakesTheFront(ps: seq<Packet>, attacks: seq<nat>, m: Multiplier)
    requires PacketsOk(ps)
    ensures var c := CancelAll(ps, attacks, m); c.1 <= |Unrolled(ps)| && Unrolled(c.0) == Unrolled(ps)[c.1..]
  {
    SplittingAttackIsNeutral(ps, attacks, m);
    SpendingTakesTheFront(ps, Times(Sum(attacks), m));
  }

  /** Are these the holes of the first rows, all due, and could no more be taken? */
  predicate TakesAllDue(rows: seq<Due>, frame: int, cap: int, holes: seq<int>) {
    && |holes| <= |rows| && |holes| <= cap
    && (forall i | 0 <= i < |holes| :: holes[i] == rows[i].hole && rows[i].frame <= frame)
    && (|holes| < cap && |holes| < |rows| ==> rows[|holes|].frame > frame)
  }

  /** Application takes rows from the front: as many as are due before the first that is not, up to the cap. */
  lemma {:induction false} TakingTakesTheFront(ps: seq<Packet>, frame: int, room: nat)
    requires PacketsOk(ps)
    ensures var r := TakeReady(ps, frame, room);
            && PacketsOk(r.0)
            && TakesAllDue(Unrolled(ps), frame, room, r.1)
            && Unrolled(r.0) == Unrolled(ps)[|r.1|..]
    decreases |ps|
  {
    if ps != [] && room > 0 && ps[0].appliesAtFrame <= frame {
      if ps[0].amount <= room {
        TakingTakesTheFront(ps[1..], frame, room - ps[0].amount);
        FrontRowsAreTaken(ps, frame, room);
      } else {
        CutPacket(ps, room);
      }
    }
  }

  lemma FrontRowsAreTaken(ps: seq<Packet>, frame: int, room: nat)
    requires PacketsOk(ps) && ps != [] && 0 < ps[0].amount <= room && ps[0].appliesAtFrame <= frame
    requires var r := TakeReady(ps[1..], frame, room - ps[0].amount);
             && TakesAllDue(Unrolled(ps[1..]), frame, room - ps[0].amount, r.1)
             && PacketsOk(r.0) && Unrolled(r.0) == Unrolled(ps[1..])[|r.1|..]
    ensures var r := TakeReady(ps, frame, room);
            && TakesAllDue(Unrolled(ps), frame, room, r.1)
            && PacketsOk(r.0) && Unrolled(r.0) == Unrolled(ps)[|r.1|..]
  {
    var n := ps[0].amount;
    var rest := TakeReady(ps[1..], frame, room - n);
    var rows, later := Unrolled(ps), Unrolled(ps[1..]);
    assert rows == RowsOf(ps[0]) + later && |RowsOf(ps[0])| == n;
    var holes := Repeat(ps[0].hole, n) + rest.1;
    assert TakeReady(ps, frame, room) == (rest.0, holes);
    forall i | 0 <= i < |holes| ensures holes[i] == rows[i].hole && rows[i].frame <= frame {
      if i >= n {
        assert rows[i] == later[i - n] && holes[i] == rest.1[i - n];
      }
    }
    if |holes| < room && |holes| < |rows| {
      assert rows[|holes|] == later[|rest.1|];
    }
  }

  // ---------------------------------------------------------------- cancellation packet by packet

  /** What is left of packets after `spent` rows are taken from the front; empty packets are not sent. */
  function Unspent(packets: seq<int>, spent: int): seq<int> {
    if packets == [] then []
    else if packets[0] <= spent then Unspent(packets[1..], spent - packets[0])
    else [packets[0] - spent] + Unspent(packets[1..], 0)
  }

  lemma {:induction false} SumOfFront(ns: seq<nat>)
    requires ns != []
    ensures Sum(ns) == ns[0] + Sum(ns[1..])
    decreases |ns|
  {
    if |ns| > 1 {
      SumOfFront(ns[..|ns| - 1]);
      assert ns[1..][..|ns| - 2] == ns[..|ns| - 1][1..];
    } else {
      assert ns[..0] == [] && ns[1..] == [];
    }
  }

  /** One more packet: it is spent only once all before it are. */
  lemma {:induction false} UnspentOneMore(packets: seq<nat>, a: nat, spent: nat)
    ensures var over := if spent > Sum(packets) then spent - Sum(packets) else 0;
            Unspent(packets + [a], spent) == Unspent(packets, spent) + (if a > over then [a - over] else [])
    decreases |packets|
  {
    var all := packets + [a];
    if packets == [] {
      assert all[1..] == [];
    } else {
      SumOfFront(packets);
      assert all[1..] == packets[1..] + [a] && all[0] == packets[0];
      if packets[0] <= spent {
        UnspentOneMore(packets[1..], a, spent - packets[0]);
      } else {
        UnspentOneMore(packets[1..], a, 0);
      }
    }
  }

  /** What a list of packets sends is what cancellation leaves of it, from the front. */
  lemma {:induction false} CancellingLeavesTheUnspent(ps: seq<Packet>, attacks: seq<nat>, m: Multiplier)
    requires PacketsOk(ps)
    ensures CancelAll(ps, attacks, m).2 == Unspent(attacks, CeilDiv(CancelAll(ps, attacks, m).1, m))
    decreases |attacks|
  {
    if attacks != [] {
      var front, a := attacks[..|attacks| - 1], attacks[|attacks| - 1];
      CancellingLeavesTheUnspent(ps, front, m);
      OneMoreCancels(ps, front, a, m);
      assert front + [a] == attacks;
    }
  }

  lemma OneMoreCancels(ps: seq<Packet>, front: seq<nat>, a: nat, m: Multiplier)
    requires PacketsOk(ps)
    requires CancelAll(ps, front, m).2 == Unspent(front, CeilDiv(CancelAll(ps, front, m).1, m))
    ensures var c := CancelWithAttack(CancelAll(ps, front, m).0, a, m);
            var total := CancelAll(ps, front, m).1 + (if a == 0 then 0 else c.cancelled);
            Unspent(front + [a], CeilDiv(total, m))
            == CancelAll(ps, front, m).2 + (if a > 0 && c.outgoing > 0 then [c.outgoing] else [])
  {
    hide CancelAll, Spend, Unspent, Amount;
    var before := CancelAll(ps, front, m);
    SplittingAttackIsNeutral(ps, front, m);
    CancellationConserves(ps, Sum(front), m);
    CancellationConserves(before.0, a, m);
    AmountIsNonNegative(ps);
    AmountIsNonNegative(before.0);
    hide CancelWithAttack;
    var cancelled := CancelWithAttack(before.0, a, m).cancelled;
    RoundingUpIsAdditive(before.1, cancelled, Sum(front), m);
    UnspentOneMore(front, a, CeilDiv(before.1 + cancelled, m));
    SpentFront(front, before.1, cancelled, m);
  }

  /** If the queue ran out on the packets before, the last one spends nothing. */
  lemma {:induction false} SpentFront(front: seq<nat>, first: nat, second: nat, m: Multiplier)
    requires first == Times(Sum(front), m) || second == 0
    requires CeilDiv(first, m) <= Sum(front)
    ensures CeilDiv(first + second, m) >= Sum(front) ==> Unspent(front, CeilDiv(first + second, m)) == Unspent(front, CeilDiv(first, m))
    ensures CeilDiv(first + second, m) < Sum(front) ==> second == 0
  {
    if CeilDiv(first + second, m) >= Sum(front) && second > 0 {
      EverythingSpent(front, CeilDiv(first + second, m));
      EverythingSpent(front, CeilDiv(first, m));
    }
  }

  lemma {:induction false} EverythingSpent(packets: seq<nat>, spent: nat)
    requires spent >= Sum(packets)
    ensures Unspent(packets, spent) == []
    decreases |packets|
  {
    if packets != [] {
      SumOfFront(packets);
      EverythingSpent(packets[1..], spent - packets[0]);
    }
  }
}

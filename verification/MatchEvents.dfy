/** The coordinator retains its latest events, numbered without a gap. */
module MatchEvents {
  import opened Wrappers
  import opened InputQueues
  import opened MatchCoordination
  import opened MatchReplay

  /** Exactly the latest events are retained, up to the limit, and each took the next hole of the stream. */
  predicate RetainsLatest<P, A>(m: Match<P, A>) {
    && |m.events| == Least(m.eventSequence, MAX_RETAINED_EVENTS)
    && m.holeCursor == m.eventSequence
    && Numbered(m.events, m.eventSequence)
  }

  predicate Numbered(events: seq<Delivery>, last: nat) {
    && |events| <= last
    && forall i | 0 <= i < |events| :: events[i].eventSequence == last - |events| + 1 + i
  }

  lemma DeliveryRetainsLatest<P, A>(setup: Setup<P, A>, m: Match<P, A>, source: Seat, amount: nat)
    requires RetainsLatest(m) && Deliver(setup, m, source, amount).Some?
    ensures RetainsLatest(Deliver(setup, m, source, amount).value)
  {
  }

  lemma {:induction false} PacketsRetainLatest<P, A>(setup: Setup<P, A>, m: Match<P, A>, source: Seat, packets: seq<nat>)
    requires RetainsLatest(m) && QueuePackets(setup, m, source, packets).Some?
    ensures RetainsLatest(QueuePackets(setup, m, source, packets).value)
    decreases |packets|
  {
    if packets != [] {
      DeliveryRetainsLatest(setup, m, source, packets[0]);
      PacketsRetainLatest(setup, Deliver(setup, m, source, packets[0]).value, source, packets[1..]);
    }
  }

  lemma PlayRetainsLatest<P, A>(setup: Setup<P, A>, m: Match<P, A>, a: seq<A>, b: seq<A>)
    requires RetainsLatest(m) && Play(setup, m, a, b).Some?
    ensures RetainsLatest(Play(setup, m, a, b).value.0)
  {
    hide RetainsLatest;
    var x := setup.machine.advance(First, m.first, m.frame, a).value;
    var y := setup.machine.advance(Second, m.second, m.frame, b).value;
    var net := Net(x.outgoing, y.outgoing);
    var moved := m.(first := x.player, second := y.player);
    SameEvents(m, moved);
    PacketsRetainLatest(setup, moved, First, net.0);
    PacketsRetainLatest(setup, QueuePackets(setup, moved, First, net.0).value, Second, net.1);
  }

  lemma SameEvents<P, A>(m: Match<P, A>, t: Match<P, A>)
    requires RetainsLatest(m)
    requires t.events == m.events && t.eventSequence == m.eventSequence && t.holeCursor == m.holeCursor
    ensures RetainsLatest(t)
  {
  }

  lemma FrameRetainsLatest<P, A>(setup: Setup<P, A>, m: Match<P, A>)
    requires TwoPlayers(setup.participants) && RetainsLatest(m)
    ensures match AdvanceOneFrame(setup, m)
            case Ok(t) => RetainsLatest(t)
            case Err(t) => RetainsLatest(t)
  {
    hide RetainsLatest, Play;
    if m.ending.None? {
      var due := DueInputs(m);
      var a, b := Actions(due, setup.participants[0]), Actions(due, setup.participants[1]);
      SameEvents(m, Begin(m));
      if Play(setup, Begin(m), a, b).Some? {
        var (t, firstOut, secondOut) := Play(setup, Begin(m), a, b).value;
        PlayRetainsLatest(setup, Begin(m), a, b);
        SameEvents(t, Conclude(setup, t, firstOut, secondOut));
      }
    }
  }

  lemma OpRetainsLatest<P, A>(setup: Setup<P, A>, r: Recording<P, A>, op: MatchOp<A>)
    requires TwoPlayers(setup.participants) && RetainsLatest(r.m)
    ensures RetainsLatest(TakeOp(setup, r, op).m)
  {
    hide RetainsLatest, AdvanceOneFrame, Enqueued, Reset;
    var t := TakeOp(setup, r, op).m;
    if r.m.ending.None? && op.Advance? {
      FrameRetainsLatest(setup, r.m);
      if AdvanceOneFrame(setup, r.m).Err? {
        SameEvents(AdvanceOneFrame(setup, r.m).error, t);
      }
    } else {
      SameEvents(r.m, t);
    }
  }

  /** On every run the retained events are the latest, numbered consecutively up to the last one. */
  lemma {:induction false} RunsRetainLatest<P, A>(setup: Setup<P, A>, first: P, second: P, ops: seq<MatchOp<A>>)
    requires TwoPlayers(setup.participants)
    ensures RetainsLatest(RunMatch(setup, first, second, ops).m)
    decreases |ops|
  {
    if ops != [] {
      RunsRetainLatest(setup, first, second, ops[..|ops| - 1]);
      OpRetainsLatest(setup, RunMatch(setup, first, second, ops[..|ops| - 1]), ops[|ops| - 1]);
    }
  }
}

/**
 What the outbox keeps over every interleaving: bounded queues, waiters only when it is full, no lane left
 asleep, and each room's effects settled once each, in commit order, none skipped.
 */
module CommitOutboxLaws {
  import opened Wrappers
  import opened CommitOutbox

  // ---------------------------------------------------------------- one room's progress

  /** The settlements after `d` whole commits and the first `n` effects of the next. */
  function Progress(cs: seq<Commit>, d: nat, n: nat): seq<(nat, nat, Effect)>
    requires d <= |cs| && (n > 0 ==> d < |cs| && n <= |cs[d].effects|)
    decreases d, n
  {
    if n > 0 then Progress(cs, d, n - 1) + [(cs[d].revision, n - 1, cs[d].effects[n - 1])]
    else if d > 0 then Progress(cs, d - 1, |cs[d - 1].effects|)
    else []
  }

  function Places(settled: seq<Settled>): seq<(nat, nat, Effect)> {
    seq(|settled|, i requires 0 <= i < |settled| => (settled[i].revision, settled[i].index, settled[i].effect))
  }

  function NextOf(l: seq<Pending>): nat { if l == [] then 0 else l[0].next }

  /** A room's lane holds the last admitted commits, and what is settled is everything before its position. */
  ghost predicate Fits(admitted: seq<Commit>, lane: seq<Pending>, settled: seq<Settled>) {
    && |lane| <= |admitted|
    && (forall i | 0 <= i < |lane| :: lane[i].commit == admitted[|admitted| - |lane| + i])
    && (forall i | 0 < i < |lane| :: lane[i].next == 0)
    && (lane != [] ==> lane[0].next <= |lane[0].commit.effects|)
    && Places(settled) == Progress(admitted, |admitted| - |lane|, NextOf(lane))
  }

  lemma {:induction false} ProgressIsStable(cs: seq<Commit>, c: Commit, d: nat, n: nat)
    requires d <= |cs| && (n > 0 ==> d < |cs| && n <= |cs[d].effects|)
    ensures Progress(cs + [c], d, n) == Progress(cs, d, n)
    decreases d, n
  {
    if n > 0 {
      ProgressIsStable(cs, c, d, n - 1);
    } else if d > 0 {
      ProgressIsStable(cs, c, d - 1, |cs[d - 1].effects|);
    }
  }

  lemma AdmittingFits(admitted: seq<Commit>, lane: seq<Pending>, settled: seq<Settled>, c: Commit)
    requires Fits(admitted, lane, settled)
    ensures Fits(admitted + [c], lane + [Pending(c, 0, 1)], settled)
  {
    ProgressIsStable(admitted, c, |admitted| - |lane|, NextOf(lane));
  }

  lemma CompletingFits(admitted: seq<Commit>, lane: seq<Pending>, settled: seq<Settled>)
    requires Fits(admitted, lane, settled) && lane != [] && lane[0].next >= |lane[0].commit.effects|
    ensures Fits(admitted, lane[1..], settled)
  {
  }

  lemma SettlingFits(admitted: seq<Commit>, lane: seq<Pending>, settled: seq<Settled>, delivered: bool, attempt: nat)
    requires Fits(admitted, lane, settled) && lane != [] && lane[0].next < |lane[0].commit.effects|
    ensures var head := lane[0];
            Fits(admitted, [head.(next := head.next + 1, attempt := attempt)] + lane[1..],
                 settled + [Settled(head.commit.revision, head.next, head.commit.effects[head.next], delivered)])
  {
    var head := lane[0];
    var s := Settled(head.commit.revision, head.next, head.commit.effects[head.next], delivered);
    assert Places(settled + [s]) == Places(settled) + [(s.revision, s.index, s.effect)];
  }

  lemma RetryingFits(admitted: seq<Commit>, lane: seq<Pending>, settled: seq<Settled>, attempt: nat)
    requires Fits(admitted, lane, settled) && lane != []
    ensures Fits(admitted, [lane[0].(attempt := attempt)] + lane[1..], settled)
  {
  }

  // ---------------------------------------------------------------- a room inside the outbox

  ghost predicate RoomFits(o: Outbox, r: RoomId) { Fits(Log(o.admitted, r), Commits(o, r), Log(o.settled, r)) }

  /** One room's commits in a list. */
  function OfRoom(cs: seq<Commit>, r: RoomId): seq<Commit> {
    if cs == [] then []
    else if cs[0].room == r then [cs[0]] + OfRoom(cs[1..], r)
    else OfRoom(cs[1..], r)
  }

  predicate Increasing(cs: seq<Commit>) { forall i, j | 0 <= i < j < |cs| :: cs[i].revision < cs[j].revision }

  predicate HasRevision(cs: seq<Commit>, revision: nat) { exists i :: 0 <= i < |cs| && cs[i].revision == revision }

  /** Everything a room has pending or lately completed was admitted. */
  ghost predicate KnownWereAdmitted(o: Outbox, r: RoomId) {
    && (forall k | k in o.pending && k.room == r :: HasRevision(Log(o.admitted, r), k.revision))
    && (forall i | 0 <= i < |o.completed| && o.completed[i].key.room == r ::
          HasRevision(Log(o.admitted, r), o.completed[i].key.revision))
  }

  /** Nothing that arrived was lost or overtaken: the room's waiters follow its admitted commits. */
  ghost predicate Fifo(o: Outbox, r: RoomId) { Log(o.arrived, r) == Log(o.admitted, r) + OfRoom(o.waiting, r) }

  predicate Members(cs: seq<Commit>, r: RoomId) { forall i | 0 <= i < |cs| :: cs[i].room == r }

  ghost predicate RoomOk(o: Outbox, r: RoomId) {
    && RoomFits(o, r) && KnownWereAdmitted(o, r) && Fifo(o, r)
    && Increasing(Log(o.arrived, r)) && Members(Log(o.admitted, r), r)
    && (o.limits.maxAttempts.None? ==> AllDelivered(Log(o.settled, r)))
  }

  predicate AllDelivered(settled: seq<Settled>) { forall i | 0 <= i < |settled| :: settled[i].delivered }

  lemma {:induction false} FindIsThere(completed: seq<Completed>, key: Key)
    requires FindCompleted(completed, key).Some?
    ensures exists i :: 0 <= i < |completed| && completed[i].key == key
    decreases |completed|
  {
    if completed[|completed| - 1].key != key {
      FindIsThere(completed[..|completed| - 1], key);
    }
  }

  lemma {:induction false} ForgettingKeeps(completed: seq<Completed>, key: Key, i: nat)
    requires i < |Forget(completed, key)|
    ensures Forget(completed, key)[i] in completed
    decreases |completed|
  {
    if completed[|completed| - 1].key == key || i < |Forget(completed, key)| - 1 {
      ForgettingKeeps(completed[..|completed| - 1], key, i);
    }
  }

  lemma KnownKeepsKnown(o: Outbox, c: Commit, r: RoomId)
    requires KnownWereAdmitted(o, r)
    ensures KnownWereAdmitted(Known(o, c).0, r)
    ensures Known(o, c).0 == o.(completed := Known(o, c).0.completed)
  {
    var t := Known(o, c).0;
    if t.completed != o.completed {
      FindIsThere(o.completed, KeyOf(c));
      var kept := Forget(o.completed, KeyOf(c));
      forall i | 0 <= i < |t.completed| && t.completed[i].key.room == r
        ensures HasRevision(Log(t.admitted, r), t.completed[i].key.revision)
      {
        if i < |kept| {
          ForgettingKeeps(o.completed, KeyOf(c), i);
          assert kept[i] in o.completed;
        }
      }
    }
  }

  /** A commit whose revision the room has not admitted is unknown. */
  lemma NewRevisionsAreUnknown(o: Outbox, c: Commit)
    requires KnownWereAdmitted(o, c.room) && !HasRevision(Log(o.admitted, c.room), c.revision)
    ensures Known(o, c) == (o, Unknown)
  {
    if FindCompleted(o.completed, KeyOf(c)).Some? {
      FindIsThere(o.completed, KeyOf(c));
    }
  }

  lemma HasRevisionGrows(cs: seq<Commit>, c: Commit, revision: nat)
    requires HasRevision(cs, revision) || revision == c.revision
    ensures HasRevision(cs + [c], revision)
  {
    if HasRevision(cs, revision) {
      var i :| 0 <= i < |cs| && cs[i].revision == revision;
      assert (cs + [c])[i].revision == revision;
    } else {
      assert (cs + [c])[|cs|].revision == revision;
    }
  }

  lemma AdmitKeepsKnown(o: Outbox, c: Commit, r: RoomId)
    requires KnownWereAdmitted(o, r)
    ensures KnownWereAdmitted(Admit(o, c), r)
  {
    var t := Admit(o, c);
    if c.room == r {
      forall k | k in t.pending && k.room == r ensures HasRevision(Log(t.admitted, r), k.revision) {
        HasRevisionGrows(Log(o.admitted, r), c, k.revision);
      }
      forall i | 0 <= i < |t.completed| && t.completed[i].key.room == r
        ensures HasRevision(Log(t.admitted, r), t.completed[i].key.revision)
      {
        HasRevisionGrows(Log(o.admitted, r), c, t.completed[i].key.revision);
      }
    }
  }

  lemma AdmitKeepsFit(o: Outbox, c: Commit, r: RoomId)
    requires RoomFits(o, r)
    ensures RoomFits(Admit(o, c), r)
  {
    if c.room == r {
      AdmittingFits(Log(o.admitted, r), Commits(o, r), Log(o.settled, r), c);
    }
  }

  lemma AdmitMovesFifo(o: Outbox, c: Commit, rest: seq<Commit>, r: RoomId)
    requires Log(o.arrived, r) == Log(o.admitted, r) + OfRoom([c] + rest, r)
    ensures Fifo(Admit(o.(waiting := rest), c), r)
  {
    assert ([c] + rest)[1..] == rest;
    if c.room == r {
      assert Log(o.admitted, r) + ([c] + OfRoom(rest, r)) == (Log(o.admitted, r) + [c]) + OfRoom(rest, r);
    }
  }

  lemma WaitersAreUnknown(o: Outbox)
    requires o.waiting != [] && RoomOk(o, o.waiting[0].room)
    ensures var rest := o.(waiting := o.waiting[1..]); Known(rest, o.waiting[0]) == (rest, Unknown)
  {
    var c := o.waiting[0];
    var admitted := Log(o.admitted, c.room);
    var arrived := Log(o.arrived, c.room);
    assert arrived[|admitted|] == c;
    assert forall i | 0 <= i < |admitted| :: arrived[i] == admitted[i];
    NewRevisionsAreUnknown(o.(waiting := o.waiting[1..]), c);
  }

  /** One turn of the waiters' loop. */
  function AdmitNext(o: Outbox): Outbox
    requires o.waiting != []
  {
    var rest := o.(waiting := o.waiting[1..]);
    var known := Known(rest, o.waiting[0]);
    if known.1.Unknown? then Admit(rest, o.waiting[0]) else known.0
  }

  lemma AdmittedWaiterKeepsRoom(o: Outbox, rest: Outbox, r: RoomId)
    requires RoomOk(o, r) && o.waiting != [] && rest == o.(waiting := o.waiting[1..])
    ensures RoomOk(Admit(rest, o.waiting[0]), r)
  {
    hide Fits, KnownWereAdmitted, Increasing, HasRevision;
    var c := o.waiting[0];
    assert [c] + o.waiting[1..] == o.waiting;
    SameKnown(o, rest, r);
    AdmitKeepsFit(rest, c, r);
    AdmitKeepsKnown(rest, c, r);
    AdmitMovesFifo(o, c, o.waiting[1..], r);
    AdmitKeepsMembers(rest, c, r);
  }

  lemma SkippedWaiterKeepsRoom(o: Outbox, rest: Outbox, r: RoomId)
    requires RoomOk(o, r) && o.waiting != [] && rest == o.(waiting := o.waiting[1..]) && o.waiting[0].room != r
    ensures RoomOk(Known(rest, o.waiting[0]).0, r)
  {
    hide Fits, KnownWereAdmitted, Increasing, HasRevision, Known;
    SameKnown(o, rest, r);
    KnownKeepsKnown(rest, o.waiting[0], r);
  }

  lemma AdmitNextKeepsRoom(o: Outbox, r: RoomId)
    requires RoomOk(o, r) && o.waiting != []
    ensures RoomOk(AdmitNext(o), r)
  {
    var rest := o.(waiting := o.waiting[1..]);
    if o.waiting[0].room == r {
      WaitersAreUnknown(o);
    } else {
      SkippedWaiterKeepsRoom(o, rest, r);
    }
    AdmittedWaiterKeepsRoom(o, rest, r);
  }

  lemma SameKnown(o: Outbox, t: Outbox, r: RoomId)
    requires KnownWereAdmitted(o, r)
    requires t.pending == o.pending && t.completed == o.completed && t.admitted == o.admitted
    ensures KnownWereAdmitted(t, r)
  {
  }

  lemma AdmitKeepsMembers(o: Outbox, c: Commit, r: RoomId)
    requires Members(Log(o.admitted, r), r)
    ensures Members(Log(Admit(o, c).admitted, r), r)
  {
  }

  /** Admitting waiters keeps every room in order, and drops none of them. */
  lemma {:induction false} AdmitWaitingKeepsRoom(o: Outbox, r: RoomId)
    requires RoomOk(o, r)
    ensures RoomOk(AdmitWaiting(o), r)
    decreases |o.waiting|
  {
    hide RoomOk;
    if !o.disposed && |o.pending| < o.limits.capacity && o.waiting != [] {
      AdmitNextKeepsRoom(o, r);
      AdmitNextShrinks(o);
      AdmitWaitingKeepsRoom(AdmitNext(o), r);
    }
  }

  lemma AdmitNextShrinks(o: Outbox)
    requires o.waiting != []
    ensures AdmitNext(o).waiting == o.waiting[1..] && AdmitNext(o).limits == o.limits && AdmitNext(o).disposed == o.disposed
  {
  }

  lemma NewestAreKnown(completed: seq<Completed>, retention: nat, i: nat)
    requires i < |Newest(completed, retention)|
    ensures Newest(completed, retention)[i] in completed
  {
  }

  /** The state in which a finished commit has left its lane and the waiters have not moved yet. */
  function Retire(o: Outbox, r: RoomId): Outbox
    requires r in o.lanes && o.lanes[r].commits != []
  {
    var lane := o.lanes[r];
    var c := lane.commits[0].commit;
    o.(lanes := o.lanes[r := lane.(commits := lane.commits[1..])],
       pending := o.pending - {KeyOf(c)},
       completed := Newest(Forget(o.completed, KeyOf(c)) + [Completed(KeyOf(c), c.effects)], o.limits.retention))
  }

  predicate Finished(o: Outbox, r: RoomId) {
    r in o.lanes && o.lanes[r].commits != [] && o.lanes[r].commits[0].next >= |o.lanes[r].commits[0].commit.effects|
  }

  lemma RetireKeepsKnown(o: Outbox, at: RoomId, r: RoomId)
    requires Finished(o, at) && RoomOk(o, r) && RoomOk(o, at)
    ensures KnownWereAdmitted(Retire(o, at), r)
  {
    var c := o.lanes[at].commits[0].commit;
    var all := Forget(o.completed, KeyOf(c)) + [Completed(KeyOf(c), c.effects)];
    var t := Retire(o, at);
    forall i | 0 <= i < |t.completed| && t.completed[i].key.room == r
      ensures HasRevision(Log(o.admitted, r), t.completed[i].key.revision)
    {
      NewestAreKnown(all, o.limits.retention, i);
      if t.completed[i] in Forget(o.completed, KeyOf(c)) {
        var j :| 0 <= j < |Forget(o.completed, KeyOf(c))| && Forget(o.completed, KeyOf(c))[j] == t.completed[i];
        ForgettingKeeps(o.completed, KeyOf(c), j);
      } else {
        assert t.completed[i] == Completed(KeyOf(c), c.effects);
        assert Log(o.admitted, r)[|Log(o.admitted, r)| - |Commits(o, r)|] == c;
      }
    }
  }

  lemma RetireKeepsRoom(o: Outbox, at: RoomId, r: RoomId)
    requires Finished(o, at) && RoomOk(o, r) && RoomOk(o, at)
    ensures RoomOk(Retire(o, at), r)
  {
    RetireKeepsKnown(o, at, r);
    if r == at {
      CompletingFits(Log(o.admitted, r), Commits(o, r), Log(o.settled, r));
    }
  }

  // ---------------------------------------------------------------- lanes and bounds

  /** A lane holds work, and runs only with an effect in hand. */
  predicate LaneOk(o: Outbox, r: RoomId) {
    r in o.lanes ==>
      var lane := o.lanes[r];
      && lane.commits != []
      && (lane.running ==> !lane.timed && lane.commits[0].next < |lane.commits[0].commit.effects|)
  }

  predicate BoundsOk(o: Outbox) {
    && |o.pending| <= o.limits.capacity
    && |o.waiting| <= o.limits.waitingCapacity
    && (o.waiting != [] ==> |o.pending| == o.limits.capacity)
  }

  lemma AdmitNextKeepsLane(o: Outbox, r: RoomId)
    requires LaneOk(o, r) && o.waiting != []
    ensures LaneOk(AdmitNext(o), r)
  {
    hide Known;
    KnownOnlyTouches(o.(waiting := o.waiting[1..]), o.waiting[0]);
  }

  lemma {:induction false} AdmitWaitingKeepsLane(o: Outbox, r: RoomId)
    requires LaneOk(o, r)
    ensures LaneOk(AdmitWaiting(o), r)
    decreases |o.waiting|
  {
    hide LaneOk;
    if !o.disposed && |o.pending| < o.limits.capacity && o.waiting != [] {
      AdmitNextKeepsLane(o, r);
      AdmitNextShrinks(o);
      AdmitWaitingKeepsLane(AdmitNext(o), r);
    }
  }

  lemma AdmitNextKeepsMode(o: Outbox, r: RoomId)
    requires r in o.lanes && o.waiting != []
    ensures r in AdmitNext(o).lanes
    ensures AdmitNext(o).lanes[r].running == o.lanes[r].running && AdmitNext(o).lanes[r].timed == o.lanes[r].timed
  {
  }

  lemma AdmitWaitingUnfolds(o: Outbox)
    requires !o.disposed && |o.pending| < o.limits.capacity && o.waiting != []
    ensures AdmitWaiting(o) == AdmitWaiting(AdmitNext(o))
  {
  }

  /** Waiters only add commits to a lane. */
  lemma {:induction false} AdmitWaitingKeepsMode(o: Outbox, r: RoomId)
    requires r in o.lanes
    ensures r in AdmitWaiting(o).lanes
    ensures AdmitWaiting(o).lanes[r].running == o.lanes[r].running && AdmitWaiting(o).lanes[r].timed == o.lanes[r].timed
    ensures AdmitWaiting(o).disposed == o.disposed && AdmitWaiting(o).limits == o.limits
    decreases |o.waiting|
  {
    hide AdmitNext;
    if !o.disposed && |o.pending| < o.limits.capacity && o.waiting != [] {
      AdmitNextShrinks(o);
      AdmitNextKeepsMode(o, r);
      AdmitWaitingUnfolds(o);
      AdmitWaitingKeepsMode(AdmitNext(o), r);
    }
  }

  lemma {:induction false} AdmitWaitingFills(o: Outbox)
    requires !o.disposed && |o.pending| <= o.limits.capacity && |o.waiting| <= o.limits.waitingCapacity
    ensures BoundsOk(AdmitWaiting(o))
    decreases |o.waiting|
  {
    if |o.pending| < o.limits.capacity && o.waiting != [] {
      AdmitNextShrinks(o);
      AdmitNextGrowsByOne(o);
      AdmitWaitingFills(AdmitNext(o));
    }
  }

  lemma AdmitNextGrowsByOne(o: Outbox)
    requires o.waiting != []
    ensures |AdmitNext(o).pending| <= |o.pending| + 1
  {
  }

  lemma RetireShrinks(o: Outbox, r: RoomId)
    requires r in o.lanes && o.lanes[r].commits != []
    ensures |Retire(o, r).pending| <= |o.pending|
  {
    assert Retire(o, r).pending.Keys <= o.pending.Keys;
    KeysBound(Retire(o, r).pending.Keys, o.pending.Keys);
  }

  lemma KeysBound(a: set<Key>, b: set<Key>)
    requires a <= b
    ensures |a| <= |b|
  {
    assert b == a + (b - a);
  }

  ghost predicate RoomsOk(o: Outbox) { forall r {:trigger RoomOk(o, r)} :: RoomOk(o, r) }

  /** Every lane is in order, except perhaps the one at hand. */
  ghost predicate OtherLanesOk(o: Outbox, at: RoomId) { forall r {:trigger LaneOk(o, r)} | r != at :: LaneOk(o, r) }

  ghost predicate OutboxOk(o: Outbox) {
    && RoomsOk(o) && (forall r {:trigger LaneOk(o, r)} :: LaneOk(o, r)) && BoundsOk(o)
  }

  lemma CompleteKeepsOk(o: Outbox, at: RoomId)
    requires RoomsOk(o) && OtherLanesOk(o, at) && BoundsOk(o) && !o.disposed && Finished(o, at) && !o.lanes[at].timed
    ensures var t := Complete(o, at);
            && RoomsOk(t) && OtherLanesOk(t, at) && BoundsOk(t) && !t.disposed && at in t.lanes && !t.lanes[at].timed
  {
    var mid := Retire(o, at);
    assert Complete(o, at) == AdmitWaiting(mid);
    forall r ensures RoomOk(AdmitWaiting(mid), r) {
      assert RoomOk(o, r) && RoomOk(o, at);
      RetireKeepsRoom(o, at, r);
      AdmitWaitingKeepsRoom(mid, r);
    }
    forall r | r != at ensures LaneOk(AdmitWaiting(mid), r) {
      assert LaneOk(o, r);
      AdmitWaitingKeepsLane(mid, r);
    }
    AdmitWaitingKeepsMode(mid, at);
    RetireShrinks(o, at);
    AdmitWaitingFills(mid);
  }

  lemma {:induction false} PumpKeepsOk(o: Outbox, at: RoomId)
    requires RoomsOk(o) && OtherLanesOk(o, at) && BoundsOk(o) && !o.disposed && at in o.lanes && !o.lanes[at].timed
    ensures OutboxOk(Pump(o, at))
    decreases |o.waiting|, |Commits(o, at)|
  {
    var lane := o.lanes[at];
    if lane.commits == [] {
      CloseLaneKeepsOk(o, at);
    } else if Finished(o, at) {
      CompleteKeepsOk(o, at);
      AdmittingShrinksTheQueue(Retire(o, at));
      PumpKeepsOk(Complete(o, at), at);
    } else {
      CallKeepsOk(o, at);
    }
  }

  /** Changing one lane's flags, or dropping an empty lane, concerns no room's order. */
  lemma SameOrder(o: Outbox, t: Outbox, r: RoomId)
    requires RoomOk(o, r) && Commits(t, r) == Commits(o, r)
    requires t.pending == o.pending && t.waiting == o.waiting && t.completed == o.completed
    requires t.arrived == o.arrived && t.admitted == o.admitted && t.limits == o.limits
    requires Log(t.settled, r) == Log(o.settled, r)
    ensures RoomOk(t, r)
  {
  }

  lemma CloseLaneKeepsOk(o: Outbox, at: RoomId)
    requires RoomsOk(o) && OtherLanesOk(o, at) && BoundsOk(o) && at in o.lanes && o.lanes[at].commits == []
    ensures OutboxOk(o.(lanes := o.lanes - {at}))
  {
    var t := o.(lanes := o.lanes - {at});
    forall r ensures RoomOk(t, r) && LaneOk(t, r) {
      assert RoomOk(o, r) && (r != at ==> LaneOk(o, r));
      SameOrder(o, t, r);
    }
  }

  lemma CallKeepsOk(o: Outbox, at: RoomId)
    requires RoomsOk(o) && OtherLanesOk(o, at) && BoundsOk(o) && at in o.lanes && !o.lanes[at].timed
    requires o.lanes[at].commits != [] && o.lanes[at].commits[0].next < |o.lanes[at].commits[0].commit.effects|
    ensures OutboxOk(o.(lanes := o.lanes[at := o.lanes[at].(running := true)]))
  {
    var t := o.(lanes := o.lanes[at := o.lanes[at].(running := true)]);
    forall r ensures RoomOk(t, r) && LaneOk(t, r) {
      assert RoomOk(o, r) && (r != at ==> LaneOk(o, r));
      SameOrder(o, t, r);
    }
  }

  // ---------------------------------------------------------------- arrivals

  lemma {:induction false} OfRoomAppend(cs: seq<Commit>, c: Commit, r: RoomId)
    ensures OfRoom(cs + [c], r) == if c.room == r then OfRoom(cs, r) + [c] else OfRoom(cs, r)
    decreases |cs|
  {
    if cs == [] {
      assert cs + [c] == [c] && [c][1..] == [];
    } else {
      assert (cs + [c])[1..] == cs[1..] + [c];
      OfRoomAppend(cs[1..], c, r);
    }
  }

  lemma TouchingKeepsOk(o: Outbox, c: Commit)
    requires OutboxOk(o)
    ensures OutboxOk(Known(o, c).0)
  {
    var t := Known(o, c).0;
    forall r ensures RoomOk(t, r) && LaneOk(t, r) {
      assert RoomOk(o, r) && LaneOk(o, r);
      KnownKeepsKnown(o, c, r);
    }
    assert RoomOk(o, 0);
    KnownKeepsKnown(o, c, 0);
  }

  lemma AdmittedArrivalKeepsRoom(o: Outbox, c: Commit, r: RoomId)
    requires RoomOk(o, r) && o.waiting == []
    requires Increasing(Log(Arrive(o, c).arrived, r))
    ensures RoomOk(Admit(Arrive(o, c), c), r)
  {
    hide Fits, KnownWereAdmitted, Increasing, HasRevision;
    SameKnown(o, Arrive(o, c), r);
    AdmitKeepsFit(Arrive(o, c), c, r);
    AdmitKeepsKnown(Arrive(o, c), c, r);
    AdmitKeepsMembers(Arrive(o, c), c, r);
  }

  lemma AdmittedArrivalKeepsOk(o: Outbox, c: Commit)
    requires OutboxOk(o) && HasRoom(o) && !o.disposed
    requires forall r :: Increasing(Log(Arrive(o, c).arrived, r))
    ensures OutboxOk(Admit(Arrive(o, c), c))
  {
    var t := Admit(Arrive(o, c), c);
    forall r ensures RoomOk(t, r) && LaneOk(t, r) {
      assert RoomOk(o, r) && LaneOk(o, r);
      AdmittedArrivalKeepsRoom(o, c, r);
    }
  }

  lemma WaitingArrivalKeepsOk(o: Outbox, c: Commit)
    requires OutboxOk(o) && !HasRoom(o) && |o.waiting| < o.limits.waitingCapacity && !o.disposed
    requires forall r :: Increasing(Log(Arrive(o, c).arrived, r))
    ensures OutboxOk(Arrive(o, c).(waiting := o.waiting + [c]))
  {
    var t := Arrive(o, c).(waiting := o.waiting + [c]);
    forall r ensures RoomOk(t, r) && LaneOk(t, r) {
      assert RoomOk(o, r) && LaneOk(o, r);
      OfRoomAppend(o.waiting, c, r);
      if c.room == r {
        assert Log(o.admitted, r) + (OfRoom(o.waiting, r) + [c]) == (Log(o.admitted, r) + OfRoom(o.waiting, r)) + [c];
      }
    }
  }

  // ---------------------------------------------------------------- steps

  /** Moving a lane's head forward, with its settlement, keeps its room in order. */
  lemma HeadKeepsRoom(o: Outbox, t: Outbox, r: RoomId)
    requires RoomOk(o, r) && Fits(Log(o.admitted, r), Commits(t, r), Log(t.settled, r))
    requires t.pending == o.pending && t.waiting == o.waiting && t.completed == o.completed
    requires t.arrived == o.arrived && t.admitted == o.admitted && t.limits == o.limits
    requires o.limits.maxAttempts.None? ==> AllDelivered(Log(t.settled, r))
    ensures RoomOk(t, r)
  {
  }

  lemma SettleKeepsRoom(o: Outbox, at: RoomId, delivered: bool)
    requires RoomOk(o, at) && Calling(o, at) && (delivered || o.limits.maxAttempts.Some?)
    ensures RoomOk(Settle(o, at, delivered), at)
  {
    hide Fits, KnownWereAdmitted, Increasing;
    SettlingFits(Log(o.admitted, at), Commits(o, at), Log(o.settled, at), delivered, 1);
    HeadKeepsRoom(o, Settle(o, at, delivered), at);
  }

  lemma SettleKeepsOk(o: Outbox, at: RoomId, delivered: bool)
    requires OutboxOk(o) && Calling(o, at) && (delivered || o.limits.maxAttempts.Some?)
    ensures var t := Settle(o, at, delivered);
            RoomsOk(t) && OtherLanesOk(t, at) && BoundsOk(t) && !t.disposed && at in t.lanes && !t.lanes[at].timed
  {
    hide RoomOk;
    var t := Settle(o, at, delivered);
    assert LaneOk(o, at);
    forall r ensures RoomOk(t, r) {
      assert RoomOk(o, r);
      if r == at {
        SettleKeepsRoom(o, at, delivered);
      } else {
        SameOrder(o, t, r);
      }
    }
    forall r | r != at ensures LaneOk(t, r) {
      assert LaneOk(o, r);
    }
  }

  /** The state a failed call leaves, before its retry is scheduled. */
  function Failed(o: Outbox, at: RoomId): Outbox
    requires Calling(o, at)
  {
    var lane := o.lanes[at];
    var head := lane.commits[0];
    o.(lanes := o.lanes[at := lane.(commits := [head.(attempt := head.attempt + 1)] + lane.commits[1..], running := false)])
  }

  lemma FailedKeepsRoom(o: Outbox, at: RoomId)
    requires RoomOk(o, at) && Calling(o, at)
    ensures RoomOk(Failed(o, at), at)
  {
    hide Fits, KnownWereAdmitted, Increasing;
    RetryingFits(Log(o.admitted, at), Commits(o, at), Log(o.settled, at), o.lanes[at].commits[0].attempt + 1);
    HeadKeepsRoom(o, Failed(o, at), at);
  }

  lemma ScheduleKeepsLane(o: Outbox, at: RoomId, clockOk: bool, primary: Scheduling, recovery: Scheduling, r: RoomId)
    requires LaneOk(o, r) && LaneOk(o, at) && Calling(o, at)
    ensures LaneOk(Schedule(Failed(o, at), at, clockOk, primary, recovery), r)
  {
  }

  lemma RetryKeepsOk(o: Outbox, at: RoomId, clockOk: bool, primary: Scheduling, recovery: Scheduling)
    requires OutboxOk(o) && Calling(o, at) && !Exhausted(o, o.lanes[at].commits[0].attempt)
    ensures OutboxOk(HandlerFails(o, at, clockOk, primary, recovery))
  {
    var t := Schedule(Failed(o, at), at, clockOk, primary, recovery);
    assert HandlerFails(o, at, clockOk, primary, recovery) == t;
    hide RoomOk, LaneOk;
    forall r ensures RoomOk(t, r) && LaneOk(t, r) {
      assert RoomOk(o, r) && LaneOk(o, r) && LaneOk(o, at) && RoomOk(o, at);
      ScheduleKeepsLane(o, at, clockOk, primary, recovery, r);
      if r == at {
        FailedKeepsRoom(o, at);
        SameOrder(Failed(o, at), t, at);
      } else {
        SameOrder(o, t, r);
      }
    }
  }

  lemma WakingKeepsOk(o: Outbox, t: Outbox)
    requires OutboxOk(o) && t == o.(lanes := t.lanes, starts := t.starts)
    requires forall r :: Commits(t, r) == Commits(o, r)
    requires forall r {:trigger LaneOk(t, r)} :: LaneOk(t, r)
    ensures OutboxOk(t)
  {
    forall r ensures RoomOk(t, r) {
      assert RoomOk(o, r);
      SameOrder(o, t, r);
    }
  }

  lemma StartKeepsOk(o: Outbox, at: RoomId)
    requires OutboxOk(o) && !o.disposed
    ensures OutboxOk(StartLane(o, at))
  {
    var taken := o.(starts := o.starts - multiset{at});
    if at !in o.starts || at !in o.lanes || o.lanes[at].running || o.lanes[at].timed {
      forall r ensures LaneOk(taken, r) {
        assert LaneOk(o, r);
      }
      WakingKeepsOk(o, taken);
    } else {
      forall r ensures RoomOk(taken, r) && LaneOk(taken, r) {
        assert RoomOk(o, r) && LaneOk(o, r);
        SameOrder(o, taken, r);
      }
      PumpKeepsOk(taken, at);
    }
  }

  lemma FireKeepsOk(o: Outbox, at: RoomId)
    requires OutboxOk(o) && !o.disposed
    ensures OutboxOk(RetryFires(o, at))
  {
    var t := RetryFires(o, at);
    forall r ensures LaneOk(t, r) {
      assert LaneOk(o, r);
    }
    WakingKeepsOk(o, t);
  }

  /** Every arrival continues its room's numbering. */
  ghost predicate ArrivalsIncrease(o: Outbox) { forall r :: Increasing(Log(o.arrived, r)) }

  lemma OfferKeepsOk(o: Outbox, c: Commit)
    requires OutboxOk(o) && !o.disposed
    requires ArrivalsIncrease(Enqueue(o, c).0)
    ensures OutboxOk(Enqueue(o, c).0)
  {
    TouchingKeepsOk(o, c);
    if Enqueue(o, c).1.Admitted? {
      AdmittedArrivalKeepsOk(o, c);
    }
  }

  lemma OfferDurablyKeepsOk(o: Outbox, c: Commit)
    requires OutboxOk(o) && !o.disposed
    requires ArrivalsIncrease(EnqueueDurably(o, c).0)
    ensures OutboxOk(EnqueueDurably(o, c).0)
  {
    TouchingKeepsOk(o, c);
    var outcome := EnqueueDurably(o, c).1;
    if outcome.Admitted? {
      AdmittedArrivalKeepsOk(o, c);
    } else if outcome.Waits? {
      WaitingArrivalKeepsOk(o, c);
    }
  }

  lemma StepKeepsOk(o: Outbox, step: Step)
    requires OutboxOk(o) && !o.disposed && !step.Close? && ArrivalsIncrease(Take(o, step))
    ensures OutboxOk(Take(o, step))
  {
    match step
    case Offer(c) => OfferKeepsOk(o, c);
    case OfferDurably(c) => OfferDurablyKeepsOk(o, c);
    case Start(r) => StartKeepsOk(o, r);
    case Succeed(r) =>
      if Calling(o, r) {
        SettleKeepsOk(o, r, true);
        PumpKeepsOk(Settle(o, r, true), r);
      }
    case Fail(r, clockOk, primary, recovery) =>
      if Calling(o, r) {
        if Exhausted(o, o.lanes[r].commits[0].attempt) {
          SettleKeepsOk(o, r, false);
          PumpKeepsOk(Settle(o, r, false), r);
        } else {
          RetryKeepsOk(o, r, clockOk, primary, recovery);
        }
      }
    case Fire(r) => FireKeepsOk(o, r);
  }

  // ---------------------------------------------------------------- runs

  /** What a room has settled is exactly a stretch of its commits: whole ones, then the first effects of the next. */
  ghost predicate InOrder(o: Outbox, r: RoomId) {
    exists d: nat, n: nat ::
      && d <= |Log(o.admitted, r)| && (n > 0 ==> d < |Log(o.admitted, r)| && n <= |Log(o.admitted, r)[d].effects|)
      && Places(Log(o.settled, r)) == Progress(Log(o.admitted, r), d, n)
  }

  ghost predicate RoomDelivers(o: Outbox, r: RoomId) {
    && InOrder(o, r)
    && Log(o.admitted, r) <= Log(o.arrived, r)
    && (o.limits.maxAttempts.None? ==> AllDelivered(Log(o.settled, r)))
  }

  ghost predicate Delivers(o: Outbox) { forall r {:trigger RoomDelivers(o, r)} :: RoomDelivers(o, r) }

  lemma OkDelivers(o: Outbox, r: RoomId)
    requires RoomOk(o, r)
    ensures RoomDelivers(o, r)
  {
    var admitted, lane := Log(o.admitted, r), Commits(o, r);
    assert Places(Log(o.settled, r)) == Progress(admitted, |admitted| - |lane|, NextOf(lane));
  }

  lemma StepsOnlyAppend(o: Outbox, step: Step, r: RoomId)
    requires Increasing(Log(Take(o, step).arrived, r))
    ensures Increasing(Log(o.arrived, r))
  {
    ArrivalsGrow(o, step, r);
    var before, after := Log(o.arrived, r), Log(Take(o, step).arrived, r);
    assert forall i | 0 <= i < |before| :: before[i] == after[i];
  }

  lemma KnownOnlyTouches(o: Outbox, c: Commit)
    ensures Known(o, c).0 == o.(completed := Known(o, c).0.completed)
  {
  }

  /** A failed call and its retry touch neither the limits nor the records of what arrived. */
  lemma FailingKeepsRecords(o: Outbox, at: RoomId, clockOk: bool, primary: Scheduling, recovery: Scheduling)
    ensures HandlerFails(o, at, clockOk, primary, recovery).arrived == o.arrived
    ensures HandlerFails(o, at, clockOk, primary, recovery).limits == o.limits
  {
    hide Pump;
    if Calling(o, at) {
      PumpKeepsArrivals(Settle(o, at, false), at);
      PumpKeepsLimits(Settle(o, at, false), at);
    }
  }

  lemma ArrivalsGrow(o: Outbox, step: Step, r: RoomId)
    ensures Log(o.arrived, r) <= Log(Take(o, step).arrived, r)
  {
    hide Known, Queued, QueuedDifferently, Pump, HandlerFails;
    match step
    case Offer(c) => KnownOnlyTouches(o, c);
    case OfferDurably(c) => KnownOnlyTouches(o, c);
    case Start(at) => PumpKeepsArrivals(o.(starts := o.starts - multiset{at}), at);
    case Succeed(at) =>
      if Calling(o, at) {
        PumpKeepsArrivals(Settle(o, at, true), at);
      }
    case Fail(at, clockOk, primary, recovery) => FailingKeepsRecords(o, at, clockOk, primary, recovery);
    case Fire(at) =>
    case Close =>
  }

  lemma {:induction false} AdmittingKeepsArrivals(o: Outbox)
    ensures AdmitWaiting(o).arrived == o.arrived
    decreases |o.waiting|
  {
    if !o.disposed && |o.pending| < o.limits.capacity && o.waiting != [] {
      AdmitNextShrinks(o);
      AdmittingKeepsArrivals(AdmitNext(o));
    }
  }

  lemma {:induction false} PumpKeepsArrivals(o: Outbox, at: RoomId)
    ensures Pump(o, at).arrived == o.arrived
    decreases |o.waiting|, |Commits(o, at)|
  {
    if !o.disposed && Finished(o, at) {
      AdmittingKeepsArrivals(Retire(o, at));
      AdmittingShrinksTheQueue(Retire(o, at));
      PumpKeepsArrivals(Complete(o, at), at);
    }
  }

  lemma ClosedStaysPut(o: Outbox, step: Step)
    requires o.disposed
    ensures Take(o, step).disposed && Take(o, step).arrived == o.arrived
    ensures Take(o, step).admitted == o.admitted && Take(o, step).settled == o.settled && Take(o, step).limits == o.limits
  {
  }

  ghost predicate RunOk(o: Outbox) { Delivers(o) && (!o.disposed ==> OutboxOk(o)) }

  lemma StepKeepsRunOk(o: Outbox, step: Step)
    requires RunOk(o) && ArrivalsIncrease(Take(o, step))
    ensures RunOk(Take(o, step))
  {
    var t := Take(o, step);
    if o.disposed {
      ClosedStaysPut(o, step);
      forall r ensures RoomDelivers(t, r) {
        assert RoomDelivers(o, r);
      }
    } else if step.Close? {
      forall r ensures RoomDelivers(t, r) {
        assert RoomDelivers(o, r);
      }
    } else {
      StepKeepsOk(o, step);
      forall r ensures RoomDelivers(t, r) {
        assert RoomOk(t, r);
        OkDelivers(t, r);
      }
    }
  }

  lemma NewOutboxIsOk(limits: Limits)
    requires LimitsOk(limits)
    ensures RunOk(NewOutbox(limits))
  {
    var o := NewOutbox(limits);
    forall r ensures RoomOk(o, r) && LaneOk(o, r) && RoomDelivers(o, r) {
      OkDelivers(o, r);
    }
  }

  lemma {:induction false} RunsAreOk(limits: Limits, steps: seq<Step>)
    requires LimitsOk(limits) && ArrivalsIncrease(Run(limits, steps))
    ensures RunOk(Run(limits, steps))
    decreases |steps|
  {
    if steps == [] {
      NewOutboxIsOk(limits);
    } else {
      var m := |steps| - 1;
      forall r ensures Increasing(Log(Run(limits, steps[..m]).arrived, r)) {
        StepsOnlyAppend(Run(limits, steps[..m]), steps[m], r);
      }
      RunsAreOk(limits, steps[..m]);
      StepKeepsRunOk(Run(limits, steps[..m]), steps[m]);
    }
  }

  /** Revision first, then effect index. */
  predicate Before(a: (nat, nat, Effect), b: (nat, nat, Effect)) { a.0 < b.0 || (a.0 == b.0 && a.1 < b.1) }

  lemma {:induction false} ProgressIsBelow(cs: seq<Commit>, d: nat, n: nat, i: nat)
    requires d <= |cs| && (n > 0 ==> d < |cs| && n <= |cs[d].effects|) && Increasing(cs)
    requires i < |Progress(cs, d, n)|
    ensures if n > 0 then Progress(cs, d, n)[i].0 < cs[d].revision || (Progress(cs, d, n)[i].0 == cs[d].revision && Progress(cs, d, n)[i].1 < n)
            else d > 0 && Progress(cs, d, n)[i].0 <= cs[d - 1].revision
    decreases d, n
  {
    if n > 0 {
      if i < |Progress(cs, d, n - 1)| {
        ProgressIsBelow(cs, d, n - 1, i);
      }
    } else if d > 0 {
      ProgressIsBelow(cs, d - 1, |cs[d - 1].effects|, i);
    }
  }

  lemma {:induction false} ProgressIsSorted(cs: seq<Commit>, d: nat, n: nat, i: nat, j: nat)
    requires d <= |cs| && (n > 0 ==> d < |cs| && n <= |cs[d].effects|) && Increasing(cs)
    requires i < j < |Progress(cs, d, n)|
    ensures Before(Progress(cs, d, n)[i], Progress(cs, d, n)[j])
    decreases d, n
  {
    if n > 0 {
      if j < |Progress(cs, d, n - 1)| {
        ProgressIsSorted(cs, d, n - 1, i, j);
      } else {
        ProgressIsBelow(cs, d, n - 1, i);
      }
    } else if d > 0 {
      ProgressIsSorted(cs, d - 1, |cs[d - 1].effects|, i, j);
    }
  }

  /**
   Effect delivery: over every interleaving of offers, starts, handler outcomes and timers, what a room has settled
   is exactly its admitted commits in arrival order, effect by effect, none skipped and none repeated: strictly
   ascending in (revision, effect index). With unlimited attempts every one of them was handled successfully.
   */
  lemma EffectsAreDeliveredInOrder(limits: Limits, steps: seq<Step>, r: RoomId)
    requires LimitsOk(limits) && ArrivalsIncrease(Run(limits, steps))
    ensures var o := Run(limits, steps);
            && RoomDelivers(o, r)
            && (forall i, j | 0 <= i < j < |Log(o.settled, r)| :: Before(Places(Log(o.settled, r))[i], Places(Log(o.settled, r))[j]))
  {
    RunsAreOk(limits, steps);
    var o := Run(limits, steps);
    assert RoomDelivers(o, r);
    var admitted, arrived := Log(o.admitted, r), Log(o.arrived, r);
    assert forall i | 0 <= i < |admitted| :: admitted[i] == arrived[i];
    assert Increasing(arrived);
    var d: nat, n: nat :| && d <= |admitted| && (n > 0 ==> d < |admitted| && n <= |admitted[d].effects|)
                          && Places(Log(o.settled, r)) == Progress(admitted, d, n);
    forall i, j | 0 <= i < j < |Log(o.settled, r)|
      ensures Before(Places(Log(o.settled, r))[i], Places(Log(o.settled, r))[j])
    {
      ProgressIsSorted(admitted, d, n, i, j);
    }
  }

  lemma {:induction false} LimitsStay(limits: Limits, steps: seq<Step>)
    ensures Run(limits, steps).limits == limits
    decreases |steps|
  {
    if steps != [] {
      LimitsStay(limits, steps[..|steps| - 1]);
      StepKeepsLimits(Run(limits, steps[..|steps| - 1]), steps[|steps| - 1]);
    }
  }

  lemma StepKeepsLimits(o: Outbox, step: Step)
    ensures Take(o, step).limits == o.limits
  {
    hide Known, Queued, QueuedDifferently, Pump, HandlerFails;
    match step
    case Offer(c) => KnownOnlyTouches(o, c);
    case OfferDurably(c) => KnownOnlyTouches(o, c);
    case Start(at) => PumpKeepsLimits(o.(starts := o.starts - multiset{at}), at);
    case Succeed(at) =>
      if Calling(o, at) {
        PumpKeepsLimits(Settle(o, at, true), at);
      }
    case Fail(at, clockOk, primary, recovery) => FailingKeepsRecords(o, at, clockOk, primary, recovery);
    case _ =>
  }

  lemma {:induction false} PumpKeepsLimits(o: Outbox, at: RoomId)
    ensures Pump(o, at).limits == o.limits
    decreases |o.waiting|, |Commits(o, at)|
  {
    if !o.disposed && Finished(o, at) {
      AdmittingKeepsLimits(Retire(o, at));
      AdmittingShrinksTheQueue(Retire(o, at));
      PumpKeepsLimits(Complete(o, at), at);
    }
  }

  lemma {:induction false} AdmittingKeepsLimits(o: Outbox)
    ensures AdmitWaiting(o).limits == o.limits
    decreases |o.waiting|
  {
    if !o.disposed && |o.pending| < o.limits.capacity && o.waiting != [] {
      AdmitNextShrinks(o);
      AdmittingKeepsLimits(AdmitNext(o));
    }
  }

  // ---------------------------------------------------------------- lost wake-ups

  /** A lane that holds work and that nothing will pump. */
  predicate Asleep(o: Outbox, r: RoomId) {
    r in o.lanes && !o.lanes[r].running && !o.lanes[r].timed && r !in o.starts
  }

  /** A failed call of the room for whose retry the clock is invalid, or which both schedulers refuse. */
  predicate Unschedulable(step: Step, r: RoomId) {
    step.Fail? && step.room == r && (!step.clockOk || (step.primary.Throws? && step.recovery.Throws?))
  }

  /** The step is such a failure, with attempts left and no other start queued. */
  predicate LosesTheWake(o: Outbox, step: Step, r: RoomId) {
    Unschedulable(step, r) && Calling(o, r) && !Exhausted(o, o.lanes[r].commits[0].attempt) && r !in o.starts
  }

  /** A lane that calls its handler waits for no retry, and a closed outbox has no lanes. */
  predicate Orderly(o: Outbox, r: RoomId) {
    (r in o.lanes && o.lanes[r].running ==> !o.lanes[r].timed) && (o.disposed ==> r !in o.lanes)
  }

  /** Elsewhere nothing moves for a room, unless it is admitted and thereby awake. */
  predicate Bystander(o: Outbox, t: Outbox, r: RoomId) {
    (Orderly(o, r) ==> Orderly(t, r)) &&
    if Log(t.admitted, r) == Log(o.admitted, r)
    then (r in t.lanes <==> r in o.lanes) && (r in o.lanes ==> t.lanes[r] == o.lanes[r]) && t.starts[r] == o.starts[r]
    else |Log(t.admitted, r)| > |Log(o.admitted, r)| && r in t.starts
  }

  lemma BystanderTwice(o: Outbox, t: Outbox, u: Outbox, r: RoomId)
    requires Bystander(o, t, r) && Bystander(t, u, r) && (r in t.starts ==> r in u.starts)
    ensures Bystander(o, u, r)
  {
  }

  lemma AdmitNextIsBystander(o: Outbox, r: RoomId)
    requires o.waiting != [] && !o.disposed
    ensures Bystander(o, AdmitNext(o), r) && (r in o.starts ==> r in AdmitNext(o).starts)
  {
    hide Known;
    KnownOnlyTouches(o.(waiting := o.waiting[1..]), o.waiting[0]);
  }

  lemma {:induction false} AdmittingIsBystander(o: Outbox, r: RoomId)
    ensures Bystander(o, AdmitWaiting(o), r) && (r in o.starts ==> r in AdmitWaiting(o).starts)
    decreases |o.waiting|
  {
    if !o.disposed && |o.pending| < o.limits.capacity && o.waiting != [] {
      hide Bystander;
      AdmitNextIsBystander(o, r);
      AdmitNextShrinks(o);
      AdmittingIsBystander(AdmitNext(o), r);
      BystanderTwice(o, AdmitNext(o), AdmitWaiting(o), r);
    } else {
      assert AdmitWaiting(o) == o;
    }
  }

  lemma {:induction false} PumpIsBystander(o: Outbox, at: RoomId, r: RoomId)
    requires r != at
    ensures Bystander(o, Pump(o, at), r) && (r in o.starts ==> r in Pump(o, at).starts)
    decreases |o.waiting|, |Commits(o, at)|
  {
    if !o.disposed && Finished(o, at) {
      assert Bystander(o, Retire(o, at), r);
      AdmittingIsBystander(Retire(o, at), r);
      AdmittingShrinksTheQueue(Retire(o, at));
      PumpIsBystander(Complete(o, at), at, r);
      BystanderTwice(o, Retire(o, at), Complete(o, at), r);
      BystanderTwice(o, Complete(o, at), Pump(o, at), r);
    }
  }

  /** A pumped lane calls its handler or is gone. */
  lemma {:induction false} PumpedLanesRun(o: Outbox, at: RoomId)
    requires !o.disposed && at in o.lanes && !o.lanes[at].timed
    ensures at in Pump(o, at).lanes ==> Pump(o, at).lanes[at].running && !Pump(o, at).lanes[at].timed
    decreases |o.waiting|, |Commits(o, at)|
  {
    if Finished(o, at) {
      AdmittingShrinksTheQueue(Retire(o, at));
      AdmitWaitingKeepsMode(Retire(o, at), at);
      PumpedLanesRun(Complete(o, at), at);
    }
  }

  lemma BystandersSleepOn(o: Outbox, t: Outbox, r: RoomId)
    requires Bystander(o, t, r)
    ensures Asleep(t, r) <==> Asleep(o, r) && Log(t.admitted, r) == Log(o.admitted, r)
  {
  }

  lemma AdmittingOneIsBystander(o: Outbox, c: Commit, r: RoomId)
    requires !o.disposed
    ensures Bystander(o, Admit(Arrive(o, c), c), r)
  {
  }

  lemma OfferIsBystander(o: Outbox, c: Commit, r: RoomId)
    ensures Bystander(o, Enqueue(o, c).0, r)
  {
    hide Known, Queued, QueuedDifferently, Admit, Arrive;
    KnownOnlyTouches(o, c);
    if !o.disposed {
      AdmittingOneIsBystander(o, c, r);
    }
  }

  lemma DurableOfferIsBystander(o: Outbox, c: Commit, r: RoomId)
    ensures Bystander(o, EnqueueDurably(o, c).0, r)
  {
    hide Known, Queued, QueuedDifferently, Admit;
    KnownOnlyTouches(o, c);
    if !o.disposed {
      AdmittingOneIsBystander(o, c, r);
    }
  }

  predicate SleepsOn(o: Outbox, step: Step, r: RoomId) {
    Asleep(o, r) && !step.Close? && Log(Take(o, step).admitted, r) == Log(o.admitted, r)
  }

  predicate Untouched(o: Outbox, t: Outbox, r: RoomId) {
    && t.admitted == o.admitted && t.starts[r] == o.starts[r] && t.disposed == o.disposed
    && (r in t.lanes <==> r in o.lanes) && (r in o.lanes ==> t.lanes[r] == o.lanes[r])
  }

  lemma UntouchedIsBystander(o: Outbox, t: Outbox, r: RoomId)
    requires Untouched(o, t, r)
    ensures Bystander(o, t, r)
  {
  }

  lemma UntouchedThen(o: Outbox, t: Outbox, u: Outbox, r: RoomId)
    requires Untouched(o, t, r) && (Bystander(t, u, r) || u == t)
    ensures Bystander(o, u, r)
  {
  }

  lemma PumpingElsewhere(o: Outbox, t: Outbox, at: RoomId, r: RoomId)
    requires Untouched(o, t, r) && r != at
    ensures Bystander(o, Pump(t, at), r)
  {
    hide Bystander, Untouched, Pump;
    PumpIsBystander(t, at, r);
    UntouchedThen(o, t, Pump(t, at), r);
  }

  lemma FailingElsewhere(o: Outbox, at: RoomId, clockOk: bool, primary: Scheduling, recovery: Scheduling, r: RoomId)
    requires r != at
    ensures Bystander(o, HandlerFails(o, at, clockOk, primary, recovery), r)
  {
    hide Pump, Bystander;
    if !Calling(o, at) {
      UntouchedIsBystander(o, o, r);
    } else if Exhausted(o, o.lanes[at].commits[0].attempt) {
      PumpingElsewhere(o, Settle(o, at, false), at, r);
    } else {
      UntouchedIsBystander(o, Schedule(Failed(o, at), at, clockOk, primary, recovery), r);
    }
  }

  lemma StartingElsewhere(o: Outbox, at: RoomId, r: RoomId)
    requires r != at
    ensures Bystander(o, StartLane(o, at), r)
  {
    hide Pump, Bystander;
    var taken := o.(starts := o.starts - multiset{at});
    UntouchedIsBystander(o, taken, r);
    PumpingElsewhere(o, taken, at, r);
  }

  lemma SucceedingElsewhere(o: Outbox, at: RoomId, r: RoomId)
    requires r != at
    ensures Bystander(o, HandlerSucceeds(o, at), r)
  {
    hide Pump, Bystander;
    if Calling(o, at) {
      PumpingElsewhere(o, Settle(o, at, true), at, r);
    } else {
      UntouchedIsBystander(o, o, r);
    }
  }

  lemma OtherRoomsStepAside(o: Outbox, step: Step, r: RoomId)
    requires !step.Close? && (step.Start? || step.Succeed? || step.Fail? || step.Fire? ==> step.room != r)
    ensures Bystander(o, Take(o, step), r)
  {
    hide Bystander, Enqueue, EnqueueDurably, StartLane, HandlerSucceeds, HandlerFails;
    match step
    case Offer(c) => OfferIsBystander(o, c, r);
    case OfferDurably(c) => DurableOfferIsBystander(o, c, r);
    case Start(at) => StartingElsewhere(o, at, r);
    case Succeed(at) => SucceedingElsewhere(o, at, r);
    case Fail(at, clockOk, primary, recovery) => FailingElsewhere(o, at, clockOk, primary, recovery, r);
    case Fire(at) => UntouchedIsBystander(o, Take(o, step), r);
  }

  lemma OwnStartsWake(o: Outbox, r: RoomId)
    requires Orderly(o, r)
    ensures Asleep(StartLane(o, r), r) <==> Asleep(o, r)
    ensures Asleep(o, r) ==> Log(StartLane(o, r).admitted, r) == Log(o.admitted, r)
    ensures Orderly(StartLane(o, r), r)
  {
    hide Pump;
    var taken := o.(starts := o.starts - multiset{r});
    if r in o.starts && !o.disposed && r in o.lanes && !o.lanes[r].running && !o.lanes[r].timed {
      PumpedLanesRun(taken, r);
      PumpingStaysOpen(taken, r);
    }
  }

  lemma OwnCallsWake(o: Outbox, delivered: bool, r: RoomId)
    requires Orderly(o, r) && Calling(o, r)
    ensures var t := Pump(Settle(o, r, delivered), r); !Asleep(t, r) && Orderly(t, r)
  {
    hide Pump;
    PumpedLanesRun(Settle(o, r, delivered), r);
    PumpingStaysOpen(Settle(o, r, delivered), r);
  }

  lemma {:induction false} PumpingStaysOpen(o: Outbox, at: RoomId)
    ensures Pump(o, at).disposed == o.disposed
    decreases |o.waiting|, |Commits(o, at)|
  {
    if !o.disposed && Finished(o, at) {
      AdmittingShrinksTheQueue(Retire(o, at));
      AdmitWaitingKeepsMode(Retire(o, at), at);
      PumpingStaysOpen(Complete(o, at), at);
    }
  }

  lemma OwnRetriesWake(o: Outbox, r: RoomId, clockOk: bool, primary: Scheduling, recovery: Scheduling)
    requires Orderly(o, r) && Calling(o, r) && !Exhausted(o, o.lanes[r].commits[0].attempt)
    ensures var t := HandlerFails(o, r, clockOk, primary, recovery);
            && (Asleep(t, r) <==> LosesTheWake(o, Fail(r, clockOk, primary, recovery), r)) && Orderly(t, r)
  {
    hide Pump;
  }

  lemma OwnStepsWake(o: Outbox, step: Step, r: RoomId)
    requires (step.Start? || step.Succeed? || step.Fail? || step.Fire?) && step.room == r && Orderly(o, r)
    ensures Asleep(Take(o, step), r) <==> LosesTheWake(o, step, r) || SleepsOn(o, step, r)
    ensures Orderly(Take(o, step), r)
  {
    hide Pump, Settle, Schedule;
    match step
    case Start(_) =>
      hide StartLane, Orderly;
      OwnStartsWake(o, r);
    case Succeed(_) =>
      if Calling(o, r) {
        OwnCallsWake(o, true, r);
      }
    case Fail(_, clockOk, primary, recovery) =>
      if Calling(o, r) {
        if Exhausted(o, o.lanes[r].commits[0].attempt) {
          OwnCallsWake(o, false, r);
        } else {
          hide HandlerFails;
          OwnRetriesWake(o, r, clockOk, primary, recovery);
        }
      }
    case Fire(_) =>
  }

  lemma SleepStep(o: Outbox, step: Step, r: RoomId)
    requires Orderly(o, r)
    ensures Asleep(Take(o, step), r) <==> LosesTheWake(o, step, r) || SleepsOn(o, step, r)
    ensures Orderly(Take(o, step), r)
  {
    hide Calling, Exhausted;
    if (step.Start? || step.Succeed? || step.Fail? || step.Fire?) && step.room == r {
      OwnStepsWake(o, step, r);
    } else if !step.Close? {
      hide Take;
      OtherRoomsStepAside(o, step, r);
      BystandersSleepOn(o, Take(o, step), r);
    }
  }

  /** A retry of the room was lost, and since then nothing of the room was admitted and the outbox not closed. */
  predicate Dormant(limits: Limits, steps: seq<Step>, r: RoomId)
    decreases |steps|
  {
    steps != [] &&
    var o, step := Run(limits, steps[..|steps| - 1]), steps[|steps| - 1];
    || LosesTheWake(o, step, r)
    || (Dormant(limits, steps[..|steps| - 1], r) && !step.Close? && Log(Take(o, step).admitted, r) == Log(o.admitted, r))
  }

  /**
   On every run a lane is asleep exactly from a failed call whose retry neither the clock nor a scheduler took,
   with no other start queued, until the next commit of that room is admitted or the outbox closes.
   */
  lemma {:induction false} LanesSleepExactlyWhileDormant(limits: Limits, steps: seq<Step>, r: RoomId)
    ensures Asleep(Run(limits, steps), r) <==> Dormant(limits, steps, r)
    ensures Orderly(Run(limits, steps), r)
    decreases |steps|
  {
    if steps != [] {
      hide Take, LosesTheWake;
      LanesSleepExactlyWhileDormant(limits, steps[..|steps| - 1], r);
      SleepStep(Run(limits, steps[..|steps| - 1]), steps[|steps| - 1], r);
    }
  }

  /**
   Bounds and wake-ups: on every run of an open outbox the queues keep their bounds, waiters exist only while it is
   full, and every lane has work in hand and is running, timed for its retry or about to start, except exactly
   while it is dormant after a lost retry.
   */
  lemma LanesNeverSleep(limits: Limits, steps: seq<Step>, r: RoomId)
    requires LimitsOk(limits) && ArrivalsIncrease(Run(limits, steps)) && !Run(limits, steps).disposed
    ensures var o := Run(limits, steps);
            && |o.pending| <= limits.capacity && |o.waiting| <= limits.waitingCapacity
            && (o.waiting != [] ==> |o.pending| == limits.capacity)
            && (r in o.lanes ==>
                  && o.lanes[r].commits != []
                  && (o.lanes[r].running || o.lanes[r].timed || r in o.starts <==> !Dormant(limits, steps, r)))
  {
    hide Dormant;
    RunsAreOk(limits, steps);
    LimitsStay(limits, steps);
    LanesSleepExactlyWhileDormant(limits, steps, r);
    assert LaneOk(Run(limits, steps), r);
  }

  /** Where the clock is valid and a scheduler works at every failure of a room, none of its wake-ups is lost. */
  lemma {:induction false} SchedulableRetriesAreNeverLost(limits: Limits, steps: seq<Step>, r: RoomId)
    requires forall i | 0 <= i < |steps| :: !Unschedulable(steps[i], r)
    ensures !Dormant(limits, steps, r)
    ensures var o := Run(limits, steps); r in o.lanes ==> o.lanes[r].running || o.lanes[r].timed || r in o.starts
    decreases |steps|
  {
    LanesSleepExactlyWhileDormant(limits, steps, r);
    if steps != [] {
      SchedulableRetriesAreNeverLost(limits, steps[..|steps| - 1], r);
    }
  }

  lemma RunOneMore(limits: Limits, steps: seq<Step>, step: Step, r: RoomId)
    ensures Run(limits, steps + [step]) == Take(Run(limits, steps), step)
    ensures var o := Run(limits, steps);
            Dormant(limits, steps + [step], r) <==>
              || LosesTheWake(o, step, r)
              || (Dormant(limits, steps, r) && !step.Close? && Log(Take(o, step).admitted, r) == Log(o.admitted, r))
  {
    assert (steps + [step])[..|steps|] == steps;
  }

  function FirstCommit(): Commit { Commit(0, 1, [7]) }

  /** An outbox that holds only the first commit, in a lane that is running or not. */
  function Holding(limits: Limits, attempt: nat, running: bool, starts: multiset<RoomId>): Outbox {
    var c := FirstCommit();
    NewOutbox(limits).(lanes := map[0 := Lane([Pending(c, 0, attempt)], running, false)], pending := map[Key(0, 1) := [7]],
                       starts := starts, arrived := map[0 := [c]], admitted := map[0 := [c]])
  }

  lemma FirstOffer(limits: Limits)
    requires limits.capacity >= 1
    ensures Take(NewOutbox(limits), Offer(FirstCommit())) == Holding(limits, 1, false, multiset{0})
  {
    var o, c := NewOutbox(limits), FirstCommit();
    assert FindCompleted([], Key(0, 1)) == None;
    assert Known(o, c) == (o, Unknown) && !QueuedDifferently(o, c) && !Queued(o, c) && HasRoom(o);
    assert Take(o, Offer(c)) == Admit(Arrive(o, c), c);
    assert Log(o.arrived, 0) + [c] == [c] && Log(o.admitted, 0) + [c] == [c];
    assert LaneFor(o, 0).commits + [Pending(c, 0, 1)] == [Pending(c, 0, 1)];
    assert Admit(Arrive(o, c), c).starts == multiset{0};
  }

  lemma FirstStart(limits: Limits)
    ensures Take(Holding(limits, 1, false, multiset{0}), Start(0)) == Holding(limits, 1, true, multiset{})
  {
    assert multiset{0} - multiset{0} == multiset{};
  }

  lemma FirstFailure(limits: Limits)
    requires limits.maxAttempts.Some? ==> limits.maxAttempts.value >= 2
    ensures Take(Holding(limits, 1, true, multiset{}), Fail(0, false, Arms, Arms)) == Holding(limits, 2, false, multiset{})
    ensures LosesTheWake(Holding(limits, 1, true, multiset{}), Fail(0, false, Arms, Arms), 0)
  {
    var o, c := Holding(limits, 1, true, multiset{}), FirstCommit();
    assert Calling(o, 0) && !Exhausted(o, 1);
    assert o.lanes[0].commits[1..] == [];
    assert [Pending(c, 0, 2)] + o.lanes[0].commits[1..] == [Pending(c, 0, 2)];
    assert o.lanes[0 := Lane([Pending(c, 0, 2)], false, false)] == map[0 := Lane([Pending(c, 0, 2)], false, false)];
  }

  lemma NextCommitIsAdmitted(limits: Limits)
    requires limits.capacity >= 2
    ensures Enqueue(Holding(limits, 2, false, multiset{}), Commit(0, 2, [])).1.Admitted?
  {
    assert FindCompleted([], Key(0, 2)) == None;
    assert |Holding(limits, 2, false, multiset{}).pending| == 1;
  }

  /** A commit whose first call fails while the clock is invalid. */
  function LostRetry(): seq<Step> { [] + [Offer(FirstCommit())] + [Start(0)] + [Fail(0, false, Arms, Arms)] }

  /** A lost retry in the flesh: the lane sleeps, and the room's next commit wakes it. */
  lemma LostRetrySleeps(limits: Limits)
    requires LimitsOk(limits) && limits.capacity >= 2 && (limits.maxAttempts.Some? ==> limits.maxAttempts.value >= 2)
    ensures Dormant(limits, LostRetry(), 0)
    ensures !Dormant(limits, LostRetry() + [Offer(Commit(0, 2, []))], 0)
  {
    hide Take, LosesTheWake, Dormant, Holding;
    FirstOffer(limits);
    FirstStart(limits);
    FirstFailure(limits);
    RunOneMore(limits, [], Offer(FirstCommit()), 0);
    RunOneMore(limits, [] + [Offer(FirstCommit())], Start(0), 0);
    RunOneMore(limits, [] + [Offer(FirstCommit())] + [Start(0)], Fail(0, false, Arms, Arms), 0);
    RunOneMore(limits, LostRetry(), Offer(Commit(0, 2, [])), 0);
    NextCommitIsAdmitted(limits);
    OfferedCommitsAreLogged(Holding(limits, 2, false, multiset{}), Commit(0, 2, []));
  }

  lemma OfferedCommitsAreLogged(o: Outbox, c: Commit)
    requires Enqueue(o, c).1.Admitted?
    ensures Log(Take(o, Offer(c)).admitted, c.room) != Log(o.admitted, c.room)
    ensures !LosesTheWake(o, Offer(c), c.room)
  {
    assert |Log(Take(o, Offer(c)).admitted, c.room)| == |Log(o.admitted, c.room)| + 1;
  }

  // ---------------------------------------------------------------- duplicates

  predicate Retained(o: Outbox, key: Key) { exists i :: 0 <= i < |o.completed| && o.completed[i].key == key }

  lemma {:induction false} RetainedIsFound(completed: seq<Completed>, i: nat)
    requires i < |completed|
    ensures FindCompleted(completed, completed[i].key).Some?
    decreases |completed|
  {
    if i < |completed| - 1 {
      RetainedIsFound(completed[..|completed| - 1], i);
    }
  }

  lemma UnknownExactlyWhenForgotten(o: Outbox, c: Commit)
    ensures Known(o, c).1.Unknown? <==> KeyOf(c) !in o.pending && !Retained(o, KeyOf(c))
  {
    if Retained(o, KeyOf(c)) {
      var i :| 0 <= i < |o.completed| && o.completed[i].key == KeyOf(c);
      RetainedIsFound(o.completed, i);
    }
    if FindCompleted(o.completed, KeyOf(c)).Some? {
      FindIsThere(o.completed, KeyOf(c));
    }
  }

  /** Offers a commit again, starts its lane and lets its first call succeed. */
  function Reoffered(o: Outbox, c: Commit): Outbox { Take(Take(Take(o, Offer(c)), Start(c.room)), Succeed(c.room)) }

  /**
   Duplicates are recognised exactly as long as they are remembered: offered again to an idle room, a commit settles
   its first effect once more if and only if its key is neither pending nor among the retained completions.
   */
  lemma ReofferedCommitsSettleAgainExactlyWhenForgotten(o: Outbox, c: Commit)
    requires !o.disposed && HasRoom(o) && c.room !in o.lanes && c.revision >= 1 && c.effects != []
    ensures Log(Reoffered(o, c).settled, c.room)
            == (if KeyOf(c) !in o.pending && !Retained(o, KeyOf(c))
                then Log(o.settled, c.room) + [Settled(c.revision, 0, c.effects[0], true)]
                else Log(o.settled, c.room))
  {
    hide Known, Retained;
    UnknownExactlyWhenForgotten(o, c);
    KnownOnlyTouches(o, c);
    var offered := Take(o, Offer(c));
    var started := Take(offered, Start(c.room));
    if Known(o, c).1.Unknown? {
      assert !Queued(o, c) && !QueuedDifferently(o, c);
      assert offered.lanes[c.room] == Lane([Pending(c, 0, 1)], false, false) && c.room in offered.starts;
      assert started.lanes[c.room].running && Calling(started, c.room);
      SettlingOnce(started, c.room);
    } else {
      assert c.room !in offered.lanes && c.room !in started.lanes;
    }
  }

  lemma SettlingOnce(o: Outbox, r: RoomId)
    requires Calling(o, r)
    ensures Take(o, Succeed(r)).settled == Settle(o, r, true).settled
  {
    PumpKeepsSettled(Settle(o, r, true), r);
  }

  // ---------------------------------------------------------------- a duplicate that has been forgotten

  /** Nothing pending, waiting or queued. */
  predicate AtRest(o: Outbox) {
    !o.disposed && o.lanes == map[] && o.pending == map[] && o.waiting == [] && o.starts == multiset{}
  }

  lemma {:induction false} NothingToForget(completed: seq<Completed>, key: Key)
    requires forall i | 0 <= i < |completed| :: completed[i].key != key
    ensures Forget(completed, key) == completed
    decreases |completed|
  {
    if completed != [] {
      NothingToForget(completed[..|completed| - 1], key);
    }
  }

  lemma OfferedAtRest(o: Outbox, c: Commit)
    requires AtRest(o) && o.limits.capacity >= 1 && c.revision >= 1 && |c.effects| == 1 && !Retained(o, KeyOf(c))
    ensures var t := Take(Take(o, Offer(c)), Start(c.room));
            && Calling(t, c.room) && t.lanes == map[c.room := Lane([Pending(c, 0, 1)], true, false)]
            && t.pending == map[KeyOf(c) := c.effects] && t.waiting == [] && t.starts == multiset{}
            && t.completed == o.completed && t.settled == o.settled && t.limits == o.limits
  {
    hide Known;
    UnknownExactlyWhenForgotten(o, c);
    KnownOnlyTouches(o, c);
    assert !Queued(o, c) && !QueuedDifferently(o, c) && HasRoom(o);
    var offered := Admit(Arrive(o, c), c);
    assert Take(o, Offer(c)) == offered;
    assert LaneFor(o, c.room).commits + [Pending(c, 0, 1)] == [Pending(c, 0, 1)];
    assert offered.starts == multiset{c.room} && offered.starts - multiset{c.room} == multiset{};
    assert Take(offered, Start(c.room)) == Pump(offered.(starts := multiset{}), c.room);
  }

  /** A commit delivered to an outbox at rest is settled and remembered, and the outbox is at rest again. */
  lemma DeliveredAtRest(o: Outbox, c: Commit)
    requires AtRest(o) && o.limits.capacity >= 1 && c.revision >= 1 && |c.effects| == 1 && !Retained(o, KeyOf(c))
    ensures var t := Reoffered(o, c);
            && AtRest(t) && t.limits == o.limits
            && t.completed == Newest(o.completed + [Completed(KeyOf(c), c.effects)], o.limits.retention)
            && t.settled == Logged(o.settled, c.room, Settled(c.revision, 0, c.effects[0], true))
  {
    hide Take, Calling;
    OfferedAtRest(o, c);
    var t := Take(Take(o, Offer(c)), Start(c.room));
    SucceedingPumps(t, c.room);
    NothingToForget(o.completed, KeyOf(c));
    SettlingComesToRest(t, c);
  }

  lemma SettlingComesToRest(o: Outbox, c: Commit)
    requires Calling(o, c.room) && o.lanes == map[c.room := Lane([Pending(c, 0, 1)], true, false)]
    requires o.pending == map[KeyOf(c) := c.effects] && o.waiting == [] && o.starts == multiset{} && |c.effects| == 1
    requires Forget(o.completed, KeyOf(c)) == o.completed
    ensures var t := Pump(Settle(o, c.room, true), c.room);
            && AtRest(t) && t.limits == o.limits
            && t.completed == Newest(o.completed + [Completed(KeyOf(c), c.effects)], o.limits.retention)
            && t.settled == Logged(o.settled, c.room, Settled(c.revision, 0, c.effects[0], true))
  {
    hide Newest, Logged;
    var settled := Settle(o, c.room, true);
    assert [Pending(c, 1, 1)] + o.lanes[c.room].commits[1..] == [Pending(c, 1, 1)];
    assert settled.lanes == map[c.room := Lane([Pending(c, 1, 1)], false, false)];
    var done := settled.(
      lanes := map[c.room := Lane([], false, false)], pending := map[],
      completed := Newest(o.completed + [Completed(KeyOf(c), c.effects)], o.limits.retention));
    assert settled.lanes[c.room].commits[1..] == [];
    assert settled.lanes[c.room := Lane([], false, false)] == map[c.room := Lane([], false, false)];
    assert settled.pending - {KeyOf(c)} == map[];
    assert Complete(settled, c.room) == AdmitWaiting(done) == done;
    assert Pump(settled, c.room) == Pump(done, c.room);
    assert done.lanes - {c.room} == map[];
  }

  lemma SucceedingPumps(o: Outbox, r: RoomId)
    requires Calling(o, r)
    ensures Take(o, Succeed(r)) == Pump(Settle(o, r, true), r)
  {
  }

  function CommitNumber(n: nat): Commit { Commit(0, n, [7]) }

  function Delivery(n: nat): seq<Step> { [Offer(CommitNumber(n)), Start(0), Succeed(0)] }

  /** Commits 1 to `n` of a room, each delivered before the next one. */
  function Deliveries(n: nat): seq<Step> { if n == 0 then [] else Deliveries(n - 1) + Delivery(n) }

  function SettledNumber(n: nat): Settled { Settled(n, 0, 7, true) }

  function FirstSettled(n: nat): seq<Settled> { if n == 0 then [] else FirstSettled(n - 1) + [SettledNumber(n)] }

  lemma DeliveringRuns(limits: Limits, steps: seq<Step>, n: nat)
    ensures Run(limits, steps + Delivery(n)) == Reoffered(Run(limits, steps), CommitNumber(n))
  {
    hide Take;
    var d := Delivery(n);
    RunSnoc(limits, steps, d[0]);
    RunSnoc(limits, steps + [d[0]], d[1]);
    RunSnoc(limits, steps + [d[0]] + [d[1]], d[2]);
    assert steps + d == steps + [d[0]] + [d[1]] + [d[2]];
  }

  lemma RunSnoc(limits: Limits, steps: seq<Step>, step: Step)
    ensures Run(limits, steps + [step]) == Take(Run(limits, steps), step)
  {
    hide Take;
    assert (steps + [step])[..|steps|] == steps;
  }

  /** After `n` deliveries the outbox remembers the newest of them. */
  predicate RemembersNewest(o: Outbox, n: nat) {
    && |o.completed| == (if n < o.limits.retention then n else o.limits.retention)
    && forall i | 0 <= i < |o.completed| :: o.completed[i].key == Key(0, n - |o.completed| + 1 + i)
  }

  lemma {:induction false} DeliveriesSettleOnce(limits: Limits, n: nat)
    requires LimitsOk(limits)
    ensures var o := Run(limits, Deliveries(n));
            && AtRest(o) && o.limits == limits && RemembersNewest(o, n) && Log(o.settled, 0) == FirstSettled(n)
    decreases n
  {
    hide Reoffered, Newest, Retained, RemembersNewest, Run;
    if n == 0 {
      NothingRunYet(limits);
    } else {
      DeliveriesSettleOnce(limits, n - 1);
      DeliveringRuns(limits, Deliveries(n - 1), n);
      var o := Run(limits, Deliveries(n - 1));
      NewNumbersAreNotRetained(o, n);
      DeliveredAtRest(o, CommitNumber(n));
      OneMoreIsRemembered(o, Reoffered(o, CommitNumber(n)), n);
    }
  }

  lemma NothingRunYet(limits: Limits)
    ensures Run(limits, []) == NewOutbox(limits) && AtRest(NewOutbox(limits)) && RemembersNewest(NewOutbox(limits), 0)
  {
  }

  lemma NewNumbersAreNotRetained(o: Outbox, n: nat)
    requires n > 0 && RemembersNewest(o, n - 1)
    ensures !Retained(o, KeyOf(CommitNumber(n)))
  {
  }

  lemma OneMoreIsRemembered(o: Outbox, t: Outbox, n: nat)
    requires n > 0 && o.limits.retention >= 1 && t.limits == o.limits && RemembersNewest(o, n - 1)
    requires t.completed == Newest(o.completed + [Completed(Key(0, n), [7])], o.limits.retention)
    ensures RemembersNewest(t, n)
  {
  }

  /**
   Whatever the limits, a commit offered again after as many others as the outbox retains is settled a second time.
   */
  lemma ForgottenCommitsSettleTwice(limits: Limits)
    requires LimitsOk(limits)
    ensures var steps := Deliveries(limits.retention + 1) + Delivery(1);
            Log(Run(limits, steps).settled, 0) == FirstSettled(limits.retention + 1) + [SettledNumber(1)]
    ensures FirstSettled(limits.retention + 1)[0] == SettledNumber(1)
  {
    hide Reoffered, Run, Deliveries, FirstSettled;
    var n := limits.retention + 1;
    DeliveriesSettleOnce(limits, n);
    DeliveringRuns(limits, Deliveries(n), 1);
    DeliveredAtRest(Run(limits, Deliveries(n)), CommitNumber(1));
    FirstIsSettledFirst(n);
  }

  lemma {:induction false} FirstIsSettledFirst(n: nat)
    requires n >= 1
    ensures FirstSettled(n) != [] && FirstSettled(n)[0] == SettledNumber(1)
    decreases n
  {
    if n > 1 {
      FirstIsSettledFirst(n - 1);
    }
  }

  lemma {:induction false} AdmittingKeepsSettled(o: Outbox)
    ensures AdmitWaiting(o).settled == o.settled
    decreases |o.waiting|
  {
    if !o.disposed && |o.pending| < o.limits.capacity && o.waiting != [] {
      AdmitNextShrinks(o);
      AdmittingKeepsSettled(AdmitNext(o));
    }
  }

  lemma {:induction false} PumpKeepsSettled(o: Outbox, at: RoomId)
    ensures Pump(o, at).settled == o.settled
    decreases |o.waiting|, |Commits(o, at)|
  {
    if !o.disposed && Finished(o, at) {
      AdmittingKeepsSettled(Retire(o, at));
      AdmittingShrinksTheQueue(Retire(o, at));
      PumpKeepsSettled(Complete(o, at), at);
    }
  }
}

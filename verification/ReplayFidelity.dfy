/** The replay theorem: what the log of a run reconstructs. */
module ReplayFidelity {
  import opened Wrappers
  import opened InputQueues
  import opened InputQueueLaws
  import opened MatchCoordination
  import opened MatchReplay
  import opened MatchReplayLaws

  // ---------------------------------------------------------------- recorded inputs are accepted again

  /** `d` is `c` with more inputs queued for one player. */
  ghost predicate Fed<P, A>(setup: Setup<P, A>, c: Match<P, A>, d: Match<P, A>, id: PlayerId, ys: seq<Input<A>>) {
    && d == c.(queue := d.queue)
    && QueueReady(setup, c.queue, c.frame) && QueueReady(setup, d.queue, c.frame)
    && FedBy(setup, c, d, setup.participants[0], id, ys) && FedBy(setup, c, d, setup.participants[1], id, ys)
  }

  ghost predicate FedBy<P, A>(
    setup: Setup<P, A>, c: Match<P, A>, d: Match<P, A>, i: PlayerId, id: PlayerId, ys: seq<Input<A>>) {
    FedPlayer(c.queue, d.queue, c.frame, i, if i == id then ys else [])
  }

  ghost predicate FedPlayer<A>(q: Queue<A>, t: Queue<A>, frame: nat, id: PlayerId, ys: seq<Input<A>>) {
    && id in q.players && id in t.players
    && Of(Upcoming(t, frame), id) == Joined(Of(Upcoming(q, frame), id), ys)
    && t.players[id].epoch == q.players[id].epoch
    && t.players[id].next == q.players[id].next + |ys|
  }

  lemma FedPlayerTwice<A>(q: Queue<A>, t: Queue<A>, u: Queue<A>, frame: nat, id: PlayerId, xs: seq<Input<A>>, ys: seq<Input<A>>)
    requires FedPlayer(q, t, frame, id, xs) && FedPlayer(t, u, frame, id, ys)
    ensures FedPlayer(q, u, frame, id, Joined(xs, ys))
  {
    JoinedTwice(Of(Upcoming(q, frame), id), xs, ys);
  }

  lemma JoinedTwice<T>(a: seq<T>, b: seq<T>, c: seq<T>)
    ensures Joined(Joined(a, b), c) == Joined(a, Joined(b, c))
  {
    assert (a + b) + c == a + (b + c);
  }

  lemma FedTwice<P, A>(
    setup: Setup<P, A>, c: Match<P, A>, d: Match<P, A>, e: Match<P, A>, id: PlayerId, xs: seq<Input<A>>, ys: seq<Input<A>>)
    requires Fed(setup, c, d, id, xs) && Fed(setup, d, e, id, ys)
    ensures Fed(setup, c, e, id, Joined(xs, ys))
  {
    forall i | Plays(setup.participants, i) ensures FedBy(setup, c, e, i, id, Joined(xs, ys)) {
      var xs', ys' := if i == id then xs else [], if i == id then ys else [];
      assert FedPlayer(c.queue, d.queue, c.frame, i, xs') && FedPlayer(d.queue, e.queue, c.frame, i, ys');
      FedPlayerTwice(c.queue, d.queue, e.queue, c.frame, i, xs', ys');
    }
  }

  /** A player's next inputs: consecutive sequences of its current epoch, with one to sixteen actions each. */
  predicate NextInputs<A>(q: Queue<A>, id: PlayerId, xs: seq<Input<A>>, k: nat) {
    && id in q.players && k <= |xs|
    && AllOf(xs, id, q.players[id].epoch)
    && q.players[id].next >= k && NumberedFrom(xs, q.players[id].next - k)
    && (forall i | 0 <= i < |xs| :: 1 <= |xs[i].actions| <= 16)
  }

  function Again<A>(x: Input<A>, frame: nat): Envelope<A> {
    Envelope(x.playerId, x.inputEpoch, x.sequence, frame, x.actions)
  }

  lemma FeedOne<P, A>(setup: Setup<P, A>, c: Match<P, A>, id: PlayerId, xs: seq<Input<A>>, k: nat)
    requires QueueReady(setup, c.queue, c.frame) && Plays(setup.participants, id)
    requires NextInputs(c.queue, id, xs, k) && k < |xs|
    ensures var r := EnqueueInput(c, Again(xs[k], c.frame));
            r.1.Scheduled? && Fed(setup, c, r.0, id, [Retimed(xs[k], c.frame)]) && NextInputs(r.0.queue, id, xs, k + 1)
  {
    var x := Retimed(xs[k], c.frame);
    var d := EnqueueInput(c, Again(xs[k], c.frame)).0;
    assert Answer(c.queue, Again(xs[k], c.frame), c.frame).None?;
    assert d.queue == Accept(c.queue, x);
    AcceptKeepsReady(setup, c.queue, c.frame, x);
    forall i | Plays(setup.participants, i) ensures FedBy(setup, c, d, i, id, [x]) {
      assert PlayerReady(c.queue, c.frame, i);
    }
  }

  /** The one group the recorder writes for a player's inputs. */
  function GroupOf<A>(id: PlayerId, xs: seq<Input<A>>): PlayerActions<A> {
    PlayerActions(id, Flat(xs), Sequences(xs), Sources(xs))
  }

  lemma SourceStep<P, A>(c: Match<P, A>, id: PlayerId, xs: seq<Input<A>>, k: nat)
    requires k < |xs| && xs[k].playerId == id
    requires EnqueueInput(c, Again(xs[k], c.frame)).1.Scheduled?
    ensures ReplaySources(c, GroupOf(id, xs), k, |Flat(xs[..k])|)
         == ReplaySources(EnqueueInput(c, Again(xs[k], c.frame)).0, GroupOf(id, xs), k + 1, |Flat(xs[..k + 1])|)
  {
    SlicesAreInputs(xs, k);
  }

  lemma FeedNothing<P, A>(setup: Setup<P, A>, c: Match<P, A>, id: PlayerId)
    requires QueueReady(setup, c.queue, c.frame)
    ensures Fed(setup, c, c, id, [])
  {
    forall i | Plays(setup.participants, i) ensures FedBy(setup, c, c, i, id, []) {
      assert PlayerReady(c.queue, c.frame, i);
    }
  }

  lemma {:induction false} FeedSources<P, A>(setup: Setup<P, A>, c: Match<P, A>, id: PlayerId, xs: seq<Input<A>>, k: nat)
    requires QueueReady(setup, c.queue, c.frame) && Plays(setup.participants, id)
    requires NextInputs(c.queue, id, xs, k)
    ensures var r := ReplaySources(c, GroupOf(id, xs), k, |Flat(xs[..k])|);
            r.Ok? && Fed(setup, c, r.value, id, RetimedAll(xs[k..], c.frame))
    decreases |xs| - k
  {
    var G := GroupOf(id, xs);
    if k == |xs| {
      assert ReplaySources(c, G, k, |Flat(xs[..k])|) == Ok(c) by {
        assert xs[..k] == xs;
      }
      FeedNothing(setup, c, id);
      assert RetimedAll(xs[k..], c.frame) == [];
    } else {
      var d := EnqueueInput(c, Again(xs[k], c.frame)).0;
      FeedOne(setup, c, id, xs, k);
      FeedSources(setup, d, id, xs, k + 1);
      assert ReplaySources(c, G, k, |Flat(xs[..k])|) == ReplaySources(d, G, k + 1, |Flat(xs[..k + 1])|) by {
        SourceStep(c, id, xs, k);
      }
      RetimedCons(xs, k, c.frame);
      FedTwice(setup, c, d, ReplaySources(d, G, k + 1, |Flat(xs[..k + 1])|).value, id,
               [Retimed(xs[k], c.frame)], RetimedAll(xs[k + 1..], c.frame));
    }
  }

  lemma RetimedCons<A>(xs: seq<Input<A>>, k: nat, frame: nat)
    requires k < |xs|
    ensures Joined([Retimed(xs[k], frame)], RetimedAll(xs[k + 1..], frame)) == RetimedAll(xs[k..], frame)
  {
    assert [Retimed(xs[k], frame)] + RetimedAll(xs[k + 1..], frame) == RetimedAll(xs[k..], frame);
  }

  lemma FeedGroup<P, A>(
    setup: Setup<P, A>, m: Match<P, A>, ps: seq<PlayerActions<A>>, c: Match<P, A>, id: PlayerId, xs: seq<Input<A>>)
    requires ReplayPlayers(m, ps) == Ok(c)
    requires QueueReady(setup, c.queue, c.frame) && Plays(setup.participants, id) && NextInputs(c.queue, id, xs, 0)
    ensures var r := ReplayPlayers(m, ps + Group(id, xs)); r.Ok? && Fed(setup, c, r.value, id, RetimedAll(xs, c.frame))
  {
    assert xs[0..] == xs && xs[..0] == [];
    FeedSources(setup, c, id, xs, 0);
    if xs == [] {
      assert ps + Group(id, xs) == ps;
      assert ReplaySources(c, GroupOf(id, xs), 0, 0) == Ok(c);
    } else {
      assert (ps + Group(id, xs))[..|ps + Group(id, xs)| - 1] == ps;
    }
  }

  lemma StaysNext<P, A>(
    setup: Setup<P, A>, c: Match<P, A>, d: Match<P, A>, id: PlayerId, other: PlayerId, xs: seq<Input<A>>, ys: seq<Input<A>>)
    requires Fed(setup, c, d, id, xs) && other != id && Plays(setup.participants, other)
    requires NextInputs(c.queue, other, ys, 0)
    ensures NextInputs(d.queue, other, ys, 0)
  {
    assert FedPlayer(c.queue, d.queue, c.frame, other, []);
  }

  lemma FeedBoth<P, A>(setup: Setup<P, A>, c: Match<P, A>, xs: seq<Input<A>>, ys: seq<Input<A>>)
    returns (d: Match<P, A>, e: Match<P, A>)
    requires QueueReady(setup, c.queue, c.frame)
    requires NextInputs(c.queue, setup.participants[0], xs, 0) && NextInputs(c.queue, setup.participants[1], ys, 0)
    ensures ReplayPlayers(c, Group(setup.participants[0], xs) + Group(setup.participants[1], ys)) == Ok(e)
    ensures Fed(setup, c, d, setup.participants[0], RetimedAll(xs, c.frame))
    ensures Fed(setup, d, e, setup.participants[1], RetimedAll(ys, c.frame))
  {
    var p0, p1 := setup.participants[0], setup.participants[1];
    var g0, g1 := Group(p0, xs), Group(p1, ys);
    FeedGroup(setup, c, [], c, p0, xs);
    assert [] + g0 == g0;
    d := ReplayPlayers(c, g0).value;
    StaysNext(setup, c, d, p0, p1, RetimedAll(xs, c.frame), ys);
    FeedGroup(setup, c, g0, d, p1, ys);
    e := ReplayPlayers(c, g0 + g1).value;
  }

  /** `due` holds each player's upcoming inputs. */
  ghost predicate IsDue<P, A>(setup: Setup<P, A>, m: Match<P, A>, due: seq<Input<A>>) {
    && TwoPlayers(setup.participants)
    && Of(due, setup.participants[0]) == Of(Upcoming(m.queue, m.frame), setup.participants[0])
    && Of(due, setup.participants[1]) == Of(Upcoming(m.queue, m.frame), setup.participants[1])
  }

  /** Feeding back what a frame drained leaves the reconstruction with the same upcoming actions. */
  lemma FeedFrame<P, A>(setup: Setup<P, A>, m: Match<P, A>, c: Match<P, A>, due: seq<Input<A>>)
    requires Level(setup, m, c) && m.ending.None?
    requires IsDue(setup, m, due)
    ensures var r := ReplayPlayers(c, Grouped(setup.participants, due));
            && r.Ok? && Same(m, r.value) && r.value.ending.None?
            && SameUpcoming(setup, m.queue, r.value.queue, m.frame)
  {
    var p0, p1 := setup.participants[0], setup.participants[1];
    var xs, ys := Of(due, p0), Of(due, p1);
    UpcomingAreNext(setup, m.queue, c.queue, m.frame, p0);
    UpcomingAreNext(setup, m.queue, c.queue, m.frame, p1);
    var d, e := FeedBoth(setup, c, xs, ys);
    FedIsSame(setup, m, c, d, e, xs, ys);
  }

  lemma UpcomingAreNext<P, A>(setup: Setup<P, A>, q: Queue<A>, t: Queue<A>, frame: nat, id: PlayerId)
    requires QueueReady(setup, q, frame) && Mirrors(setup, q, t, frame) && Plays(setup.participants, id)
    ensures NextInputs(t, id, Of(Upcoming(q, frame), id), 0)
  {
    var mine := Of(Upcoming(q, frame), id);
    assert PlayerReady(q, frame, id);
    OfKeepsGood(setup.participants, Upcoming(q, frame), id, frame + 1);
  }

  lemma {:induction false} OfKeepsGood<A>(order: seq<PlayerId>, xs: seq<Input<A>>, id: PlayerId, frame: nat)
    requires AllGood(order, xs, frame)
    ensures AllGood(order, Of(xs, id), frame)
    decreases |xs|
  {
    if xs != [] {
      OfKeepsGood(order, xs[..|xs| - 1], id, frame);
    }
  }

  lemma FedIsSame<P, A>(
    setup: Setup<P, A>, m: Match<P, A>, c: Match<P, A>, d: Match<P, A>, e: Match<P, A>, xs: seq<Input<A>>, ys: seq<Input<A>>)
    requires Level(setup, m, c) && m.ending.None?
    requires xs == Of(Upcoming(m.queue, m.frame), setup.participants[0])
    requires ys == Of(Upcoming(m.queue, m.frame), setup.participants[1])
    requires Fed(setup, c, d, setup.participants[0], RetimedAll(xs, c.frame))
    requires Fed(setup, d, e, setup.participants[1], RetimedAll(ys, c.frame))
    ensures SameUpcoming(setup, m.queue, e.queue, m.frame) && Same(m, e) && e.ending.None?
  {
    forall id | Plays(setup.participants, id) ensures SamePlayer(m.queue, e.queue, m.frame, id) {
      var p0, p1 := setup.participants[0], setup.participants[1];
      assert PlayerReady(m.queue, m.frame, id);
      FedOnce(m.queue, c.queue, d.queue, e.queue, m.frame, id, if id == p0 then RetimedAll(xs, c.frame) else [],
              if id == p1 then RetimedAll(ys, c.frame) else []);
    }
  }

  lemma FedOnce<A>(
    q: Queue<A>, t: Queue<A>, u: Queue<A>, v: Queue<A>, frame: nat, id: PlayerId, xs: seq<Input<A>>, ys: seq<Input<A>>)
    requires t.scheduled == map[] && id in q.players && id in t.players
    requires t.players[id].epoch == q.players[id].epoch && t.players[id].next == Taken(q, frame, id)
    requires FedPlayer(t, u, frame, id, xs) && FedPlayer(u, v, frame, id, ys)
    requires xs + ys == RetimedAll(Of(Upcoming(q, frame), id), frame)
    ensures SamePlayer(q, v, frame, id)
  {
    assert Of(Upcoming(t, frame), id) == [];
    assert Of(Upcoming(v, frame), id) == xs + ys;
    assert |xs| + |ys| == |Of(Upcoming(q, frame), id)|;
    RetimedIsFlat(Of(Upcoming(q, frame), id), frame);
  }

  // ---------------------------------------------------------------- the log keeps up with the run

  lemma {:induction false} AdvanceOnce<P, A>(setup: Setup<P, A>, x: Match<P, A>, n: nat)
    requires TwoPlayers(setup.participants)
    requires AdvanceTo(setup, x, n).Ok? && AdvanceTo(setup, x, n).value.ending.None?
    ensures var c := AdvanceTo(setup, x, n).value;
            AdvanceTo(setup, x, n + 1)
            == match AdvanceOneFrame(setup, c) { case Err(_) => Err(StepThrew) case Ok(t) => Ok(t) }
    decreases n - x.frame
  {
    FramesCount(setup, x);
    if x.frame < n {
      AdvanceOnce(setup, AdvanceOneFrame(setup, x).value, n);
    }
  }

  lemma {:induction false} AdvanceArrives<P, A>(setup: Setup<P, A>, x: Match<P, A>, n: nat)
    requires TwoPlayers(setup.participants) && AdvanceTo(setup, x, n).Ok?
    ensures AdvanceTo(setup, x, n).value.frame == n
    ensures AdvanceTo(setup, AdvanceTo(setup, x, n).value, n) == AdvanceTo(setup, x, n)
    decreases n - x.frame
  {
    if x.frame < n {
      FramesCount(setup, x);
      AdvanceArrives(setup, AdvanceOneFrame(setup, x).value, n);
    }
  }

  lemma EntriesSnoc<P, A>(setup: Setup<P, A>, m: Match<P, A>, entries: seq<Entry<A>>, e: Entry<A>)
    requires TwoPlayers(setup.participants)
    ensures ReplayEntries(setup, m, entries + [e])
         == match ReplayEntries(setup, m, entries) { case Err(x) => Err(x) case Ok(t) => ApplyEntry(setup, t, e) }
  {
    assert (entries + [e])[..|entries|] == entries;
  }

  /** Replaying one more control entry applies it where the reconstruction had got to. */
  lemma ControlEntry<P, A>(
    setup: Setup<P, A>, first: P, second: P, entries: seq<Entry<A>>, n: nat, control: Control, c: Match<P, A>)
    requires TwoPlayers(setup.participants) && CaughtUp(setup, first, second, entries, n) == Ok(c)
    requires ApplyControl(setup, c, control).Ok? && ApplyControl(setup, c, control).value.frame == n
    ensures CaughtUp(setup, first, second, entries + [Controls(n, [control])], n) == ApplyControl(setup, c, control)
  {
    EntriesSnoc(setup, NewMatch(setup, first, second), entries, Controls(n, [control]));
    assert [control][..0] == [];
    assert ApplyControls(setup, c, [control]) == ApplyControl(setup, c, control);
  }

  /** Replaying one more frame of inputs feeds them where the reconstruction had got to, and steps once. */
  lemma AppliedEntry<P, A>(
    setup: Setup<P, A>, first: P, second: P, entries: seq<Entry<A>>, n: nat, groups: seq<PlayerActions<A>>,
    c: Match<P, A>, d: Match<P, A>)
    requires TwoPlayers(setup.participants) && CaughtUp(setup, first, second, entries, n) == Ok(c)
    requires ReplayPlayers(c, groups) == Ok(d) && d.frame == n && d.ending.None?
    ensures CaughtUp(setup, first, second, entries + [AppliedInputs(n + 1, groups)], n + 1)
         == match AdvanceOneFrame(setup, d) { case Err(_) => Err(StepThrew) case Ok(t) => Ok(t) }
  {
    EntriesSnoc(setup, NewMatch(setup, first, second), entries, AppliedInputs(n + 1, groups));
    FramesCount(setup, d);
  }

  /** An unfinished run and its log: the log is sound, and the reconstruction catches up with the run. */
  ghost predicate Following<P, A>(setup: Setup<P, A>, first: P, second: P, r: Recording<P, A>, c: Match<P, A>) {
    && TwoPlayers(setup.participants)
    && r.m.ending.None? && !r.threw && r.log.Ok?
    && r.log.value.lastApplied <= r.m.frame && r.log.value.lastRecorded <= r.m.frame
    && CaughtUp(ReplaySetup(setup), first, second, r.log.value.entries, r.m.frame) == Ok(c)
    && Level(setup, r.m, c)
  }

  /** A finished run reconstructs to itself, unless one of its steps raised an error. */
  ghost predicate Reproduced<P, A>(setup: Setup<P, A>, first: P, second: P, r: Recording<P, A>) {
    && TwoPlayers(setup.participants)
    && r.m.ending.Some? && r.log.Ok?
    && var replayed := Reconstruct(setup, first, second, r.log.value.entries, r.m.ending.value);
       && (replayed.Ok? <==> !r.threw)
       && (replayed.Ok? ==> Same(r.m, replayed.value) && replayed.value.ending == r.m.ending)
  }

  ghost predicate Faithful<P, A>(setup: Setup<P, A>, first: P, second: P, r: Recording<P, A>) {
    && TwoPlayers(setup.participants)
    && r.log.Ok?
    && var caught := CaughtUp(ReplaySetup(setup), first, second, r.log.value.entries, r.m.frame);
       (caught.Ok? && Following(setup, first, second, r, caught.value)) || Reproduced(setup, first, second, r)
  }

  lemma StartFollows<P, A>(setup: Setup<P, A>, first: P, second: P)
    requires TwoPlayers(setup.participants)
    ensures Following(setup, first, second, RunMatch(setup, first, second, []), NewMatch(setup, first, second))
  {
    NewQueueIsReady(setup);
  }

  lemma SubmitFollows<P, A>(
    setup: Setup<P, A>, first: P, second: P, r: Recording<P, A>, c: Match<P, A>, envelope: Envelope<A>)
    requires Following(setup, first, second, r, c)
    ensures Following(setup, first, second, TakeOp(setup, r, SubmitInput(envelope)), c)
  {
    EnqueueKeepsReady(setup, r.m.queue, r.m.frame, envelope);
  }

  lemma ReleaseFollows<P, A>(setup: Setup<P, A>, first: P, second: P, r: Recording<P, A>, c: Match<P, A>, id: PlayerId)
    requires Following(setup, first, second, r, c) && SeatOf(setup, id).Some?
    ensures Following(setup, first, second, TakeOp(setup, r, Release(id)),
                      MatchCoordination.ClearHeldInput(ReplaySetup(setup), c, SeatOf(setup, id).value))
  {
    var seat := SeatOf(setup, id).value;
    ControlEntry(ReplaySetup(setup), first, second, r.log.value.entries, r.m.frame, ClearHeld(id), c);
    ControlIsRecorded(setup, first, second, r, c, MatchCoordination.ClearHeldInput(setup, r.m, seat),
                      MatchCoordination.ClearHeldInput(ReplaySetup(setup), c, seat), ClearHeld(id));
  }

  lemma ResetLevels<P, A>(setup: Setup<P, A>, m: Match<P, A>, c: Match<P, A>, seat: Seat)
    requires Level(setup, m, c) && m.ending.None?
    ensures IdAt(setup, seat) in m.queue.players && IdAt(setup, seat) in c.queue.players
    ensures Level(setup, MatchCoordination.ResetInput(setup, m, seat), MatchCoordination.ResetInput(ReplaySetup(setup), c, seat))
    ensures m.queue.players[IdAt(setup, seat)].epoch == c.queue.players[IdAt(setup, seat)].epoch
  {
    var id := IdAt(setup, seat);
    ResetKeepsReady(setup, m.queue, m.frame, id);
    ResetKeepsReady(setup, c.queue, c.frame, id);
    assert Reset(c.queue, id).scheduled == map[];
    assert Plays(setup.participants, id);
  }

  lemma ResetFollows<P, A>(setup: Setup<P, A>, first: P, second: P, r: Recording<P, A>, c: Match<P, A>, id: PlayerId)
    requires Following(setup, first, second, r, c) && SeatOf(setup, id).Some?
    ensures Faithful(setup, first, second, TakeOp(setup, r, RestartInput(id)))
  {
    var seat := SeatOf(setup, id).value;
    ResetLevels(setup, r.m, c, seat);
    var m, d := MatchCoordination.ResetInput(setup, r.m, seat), MatchCoordination.ResetInput(ReplaySetup(setup), c, seat);
    var control := ResetTo(id, m.queue.players[id].epoch);
    assert ApplyControl(ReplaySetup(setup), c, control) == Ok(d);
    ControlEntry(ReplaySetup(setup), first, second, r.log.value.entries, r.m.frame, control, c);
    assert TakeOp(setup, r, RestartInput(id)) == Controlled(setup, r, m, control);
    ControlIsRecorded(setup, first, second, r, c, m, d, control);
  }

  lemma ControlIsRecorded<P, A>(
    setup: Setup<P, A>, first: P, second: P, r: Recording<P, A>, c: Match<P, A>, m: Match<P, A>, d: Match<P, A>,
    control: Control)
    requires Following(setup, first, second, r, c) && SeatOf(setup, control.playerId).Some?
    requires Level(setup, m, d) && m.ending.None? && m.frame == r.m.frame
    requires CaughtUp(ReplaySetup(setup), first, second, r.log.value.entries + [Controls(r.m.frame, [control])], r.m.frame)
          == Ok(d)
    ensures Following(setup, first, second, Controlled(setup, r, m, control), d)
  {
  }

  lemma RecordingApplied<P, A>(setup: Setup<P, A>, log: Log<A>, frame: nat, drained: seq<Input<A>>)
    requires TwoPlayers(setup.participants) && log.lastApplied < frame && log.lastRecorded < frame
    requires AllGood(setup.participants, drained, frame)
    ensures var groups := Grouped(setup.participants, drained);
            RecordApplied(setup.participants, log, frame, drained)
            == Ok(if groups == [] then log.(lastApplied := frame)
                  else Log(log.entries + [AppliedInputs(frame, groups)], frame, frame))
  {
  }

  /** What one recorded frame adds: nothing when idle, its grouped inputs otherwise. */
  function EntriesAfter<P, A>(setup: Setup<P, A>, due: seq<Input<A>>, frame: nat, entries: seq<Entry<A>>): seq<Entry<A>>
    requires TwoPlayers(setup.participants)
  {
    var groups := Grouped(setup.participants, due);
    if groups == [] then entries else entries + [AppliedInputs(frame + 1, groups)]
  }

  lemma NobodyActs<P, A>(setup: Setup<P, A>, m: Match<P, A>, c: Match<P, A>)
    requires Level(setup, m, c) && m.ending.None?
    requires forall id | Plays(setup.participants, id) :: Of(Upcoming(m.queue, m.frame), id) == []
    ensures SameUpcoming(setup, m.queue, c.queue, m.frame)
  {
    forall id | Plays(setup.participants, id) ensures SamePlayer(m.queue, c.queue, m.frame, id) {
      assert Upcoming(c.queue, m.frame) == [] && Of<A>([], id) == [];
    }
  }

  lemma GroupsOfNobody<A>(participants: seq<PlayerId>, due: seq<Input<A>>, id: PlayerId)
    requires TwoPlayers(participants) && Plays(participants, id) && Grouped(participants, due) == []
    ensures Of(due, id) == []
  {
    assert |Grouped(participants, due)| ==
           |Group(participants[0], Of(due, participants[0]))| + |Group(participants[1], Of(due, participants[1]))|;
  }

  lemma DueIsUpcoming<P, A>(setup: Setup<P, A>, m: Match<P, A>)
    requires QueueReady(setup, m.queue, m.frame)
    ensures IsDue(setup, m, DueInputs(m))
  {
    DrainGivesUpcoming(setup, m.queue, m.frame, setup.participants[0]);
    DrainGivesUpcoming(setup, m.queue, m.frame, setup.participants[1]);
  }

  lemma IdleFrame<P, A>(setup: Setup<P, A>, m: Match<P, A>, c: Match<P, A>, due: seq<Input<A>>)
    requires Level(setup, m, c) && m.ending.None? && Grouped(setup.participants, due) == []
    requires IsDue(setup, m, due)
    ensures LevelStep(setup, AdvanceOneFrame(setup, m), AdvanceOneFrame(ReplaySetup(setup), c))
  {
    forall id | Plays(setup.participants, id) ensures Of(Upcoming(m.queue, m.frame), id) == [] {
      GroupsOfNobody(setup.participants, due, id);
    }
    NobodyActs(setup, m, c);
    FramesAgree(setup, m, c);
  }

  lemma RecordedFrame<P, A>(setup: Setup<P, A>, m: Match<P, A>, c: Match<P, A>, due: seq<Input<A>>)
    requires Level(setup, m, c) && m.ending.None?
    requires IsDue(setup, m, due)
    ensures var r := ReplayPlayers(c, Grouped(setup.participants, due));
            && r.Ok? && r.value.frame == m.frame && r.value.ending.None?
            && LevelStep(setup, AdvanceOneFrame(setup, m), AdvanceOneFrame(ReplaySetup(setup), r.value))
  {
    FeedFrame(setup, m, c, due);
    FramesAgree(setup, m, ReplayPlayers(c, Grouped(setup.participants, due)).value);
  }

  lemma RecordedStep<P, A>(
    setup: Setup<P, A>, first: P, second: P, entries: seq<Entry<A>>, m: Match<P, A>, c: Match<P, A>, due: seq<Input<A>>)
    returns (step: Result<Match<P, A>, Match<P, A>>)
    requires Level(setup, m, c) && m.ending.None?
    requires CaughtUp(ReplaySetup(setup), first, second, entries, m.frame) == Ok(c)
    requires IsDue(setup, m, due)
    ensures CaughtUp(ReplaySetup(setup), first, second,
                     entries + [AppliedInputs(m.frame + 1, Grouped(setup.participants, due))], m.frame + 1)
         == match step { case Err(_) => Err(StepThrew) case Ok(t) => Ok(t) }
    ensures LevelStep(setup, AdvanceOneFrame(setup, m), step)
  {
    hide CaughtUp, QueueReady, Mirrors, AdvanceOneFrame;
    RecordedFrame(setup, m, c, due);
    var d := ReplayPlayers(c, Grouped(setup.participants, due)).value;
    step := AdvanceOneFrame(ReplaySetup(setup), d);
    AppliedEntry(ReplaySetup(setup), first, second, entries, m.frame, Grouped(setup.participants, due), c, d);
  }

  lemma IdleFollows<P, A>(
    setup: Setup<P, A>, first: P, second: P, entries: seq<Entry<A>>, m: Match<P, A>, c: Match<P, A>, due: seq<Input<A>>)
    returns (step: Result<Match<P, A>, Match<P, A>>)
    requires Level(setup, m, c) && m.ending.None?
    requires CaughtUp(ReplaySetup(setup), first, second, entries, m.frame) == Ok(c)
    requires IsDue(setup, m, due) && Grouped(setup.participants, due) == []
    ensures CaughtUp(ReplaySetup(setup), first, second, entries, m.frame + 1)
         == match step { case Err(_) => Err(StepThrew) case Ok(t) => Ok(t) }
    ensures LevelStep(setup, AdvanceOneFrame(setup, m), step)
  {
    hide CaughtUp, QueueReady, Mirrors, AdvanceOneFrame;
    IdleFrame(setup, m, c, due);
    step := AdvanceOneFrame(ReplaySetup(setup), c);
    IdleStep(ReplaySetup(setup), first, second, entries, m.frame, c);
  }

  /** After a frame, recorded or idle, the reconstruction has taken the same step. */
  lemma FrameFollows<P, A>(
    setup: Setup<P, A>, first: P, second: P, entries: seq<Entry<A>>, m: Match<P, A>, c: Match<P, A>, due: seq<Input<A>>)
    returns (step: Result<Match<P, A>, Match<P, A>>)
    requires Level(setup, m, c) && m.ending.None?
    requires CaughtUp(ReplaySetup(setup), first, second, entries, m.frame) == Ok(c)
    requires IsDue(setup, m, due)
    ensures CaughtUp(ReplaySetup(setup), first, second, EntriesAfter(setup, due, m.frame, entries), m.frame + 1)
         == match step { case Err(_) => Err(StepThrew) case Ok(t) => Ok(t) }
    ensures LevelStep(setup, AdvanceOneFrame(setup, m), step)
  {
    hide CaughtUp, QueueReady, Mirrors, AdvanceOneFrame;
    if Grouped(setup.participants, due) == [] {
      step := IdleFollows(setup, first, second, entries, m, c, due);
    } else {
      step := RecordedStep(setup, first, second, entries, m, c, due);
    }
  }

  lemma IdleStep<P, A>(setup: Setup<P, A>, first: P, second: P, entries: seq<Entry<A>>, n: nat, c: Match<P, A>)
    requires TwoPlayers(setup.participants) && CaughtUp(setup, first, second, entries, n) == Ok(c) && c.ending.None?
    ensures CaughtUp(setup, first, second, entries, n + 1)
         == match AdvanceOneFrame(setup, c) { case Err(_) => Err(StepThrew) case Ok(t) => Ok(t) }
  {
    AdvanceOnce(setup, ReplayEntries(setup, NewMatch(setup, first, second), entries).value, n);
  }

  lemma StepIsRecorded<P, A>(setup: Setup<P, A>, r: Recording<P, A>)
    requires TwoPlayers(setup.participants) && QueueReady(setup, r.m.queue, r.m.frame) && r.log.Ok?
    requires r.log.value.lastApplied <= r.m.frame && r.log.value.lastRecorded <= r.m.frame
    ensures var log := RecordApplied(setup.participants, r.log.value, r.m.frame + 1, DueInputs(r.m));
            && log.Ok? && log.value.entries == EntriesAfter(setup, DueInputs(r.m), r.m.frame, r.log.value.entries)
            && log.value.lastApplied <= r.m.frame + 1 && log.value.lastRecorded <= r.m.frame + 1
  {
    DrainedInputsAreGood(setup, r.m.queue, r.m.frame);
    RecordingApplied(setup, r.log.value, r.m.frame + 1, DueInputs(r.m));
  }

  lemma StepIsFaithful<P, A>(setup: Setup<P, A>, first: P, second: P, r: Recording<P, A>, c: Match<P, A>)
    requires Following(setup, first, second, r, c)
    ensures Faithful(setup, first, second, StepMatch(setup, r))
  {
    DueIsUpcoming(setup, r.m);
    StepIsRecorded(setup, r);
    var log := RecordApplied(setup.participants, r.log.value, r.m.frame + 1, DueInputs(r.m));
    var step := FrameFollows(setup, first, second, r.log.value.entries, r.m, c, DueInputs(r.m));
    FramesCount(setup, r.m);
    EndsWhereItStands(setup, r.m);
    StepOutcome(setup, first, second, AdvanceOneFrame(setup, r.m), step, log, r.m.frame + 1);
  }

  /** The recording a step leaves behind. */
  function Outcome<P, A>(
    setup: Setup<P, A>, a: Result<Match<P, A>, Match<P, A>>, log: Result<Log<A>, RecordError>): Recording<P, A> {
    match a
    case Ok(t) => Recording(t, log, false)
    case Err(t) => Recording(ForceDraw(setup, t), log, true)
  }

  lemma StepOutcome<P, A>(
    setup: Setup<P, A>, first: P, second: P, a: Result<Match<P, A>, Match<P, A>>, step: Result<Match<P, A>, Match<P, A>>,
    log: Result<Log<A>, RecordError>, n: nat)
    requires TwoPlayers(setup.participants) && LevelStep(setup, a, step)
    requires log.Ok? && log.value.lastApplied <= n && log.value.lastRecorded <= n
    requires CaughtUp(ReplaySetup(setup), first, second, log.value.entries, n)
          == match step { case Err(_) => Err(StepThrew) case Ok(t) => Ok(t) }
    requires var m := Outcome(setup, a, log).m; m.frame == n && (m.ending.Some? ==> m.ending.value.frame == n)
    requires a.Err? ==> a.error.ending.None?
    ensures Faithful(setup, first, second, Outcome(setup, a, log))
  {
    var r := Outcome(setup, a, log);
    StepEnds(setup, first, second, a, step, log.value.entries, n);
    if r.m.ending.None? {
      assert Following(setup, first, second, r, step.value);
    } else {
      assert Reproduced(setup, first, second, r);
    }
  }

  lemma StepEnds<P, A>(
    setup: Setup<P, A>, first: P, second: P, a: Result<Match<P, A>, Match<P, A>>, step: Result<Match<P, A>, Match<P, A>>,
    entries: seq<Entry<A>>, n: nat)
    requires TwoPlayers(setup.participants) && LevelStep(setup, a, step)
    requires CaughtUp(ReplaySetup(setup), first, second, entries, n)
          == match step { case Err(_) => Err(StepThrew) case Ok(t) => Ok(t) }
    ensures a.Err? ==> forall end: Ending | end.frame == n :: Reconstruct(setup, first, second, entries, end).Err?
    ensures a.Ok? && a.value.ending.Some? && a.value.ending.value.frame == n ==>
              Reconstruct(setup, first, second, entries, a.value.ending.value) == Ok(step.value)
  {
  }

  lemma EndsWhereItStands<P, A>(setup: Setup<P, A>, m: Match<P, A>)
    requires TwoPlayers(setup.participants) && m.ending.None?
    ensures var r := AdvanceOneFrame(setup, m);
            && (r.Ok? && r.value.ending.Some? ==> r.value.ending.value.frame == m.frame + 1)
            && (r.Err? ==> ForceDraw(setup, r.error).ending.value.frame == m.frame + 1)
  {
    var due := DueInputs(m);
    PlayLeavesTheRest(setup, Begin(m), Actions(due, setup.participants[0]), Actions(due, setup.participants[1]));
  }

  lemma ForcedEndIsReproduced<P, A>(
    setup: Setup<P, A>, first: P, second: P, r: Recording<P, A>, c: Match<P, A>, winner: Option<Seat>, reason: Reason)
    requires Following(setup, first, second, r, c)
    requires (reason.Draw? && winner.None?) || ((reason.Forfeit? || reason.DisconnectTimeout?) && winner.Some?)
    ensures Reproduced(setup, first, second, r.(m := Finish(setup, r.m, winner, reason)))
  {
    var s := ReplaySetup(setup);
    var m := Finish(setup, r.m, winner, reason);
    var end := m.ending.value;
    var d := Finish(s, c, winner, reason);
    assert end == d.ending.value;
    assert winner.Some? ==> Opposite(if winner == Some(First) then Second else First) == winner.value;
    assert ForceRecordedEnd(s, c, end) == Ok(d);
    assert CaughtUp(s, first, second, r.log.value.entries, end.frame) == Ok(c);
    assert Reconstruct(setup, first, second, r.log.value.entries, end) == Ok(d);
  }

  lemma OpIsFaithful<P, A>(setup: Setup<P, A>, first: P, second: P, r: Recording<P, A>, op: MatchOp<A>)
    requires TwoPlayers(setup.participants) && Faithful(setup, first, second, r)
    ensures Faithful(setup, first, second, TakeOp(setup, r, op))
  {
    if r.m.ending.None? {
      var c := CaughtUp(ReplaySetup(setup), first, second, r.log.value.entries, r.m.frame).value;
      match op
      case SubmitInput(envelope) => SubmitFollows(setup, first, second, r, c, envelope);
      case Release(id) =>
        if SeatOf(setup, id).Some? {
          ReleaseFollows(setup, first, second, r, c, id);
        }
      case RestartInput(id) =>
        if SeatOf(setup, id).Some? {
          ResetFollows(setup, first, second, r, c, id);
        }
      case Advance => StepIsFaithful(setup, first, second, r, c);
      case Forfeited(loser, reason) =>
        if SeatOf(setup, loser).Some? && (reason.Forfeit? || reason.DisconnectTimeout?) {
          ForcedEndIsReproduced(setup, first, second, r, c, Some(Opposite(SeatOf(setup, loser).value)), reason);
        }
      case Abort => ForcedEndIsReproduced(setup, first, second, r, c, None, Draw);
    }
  }

  lemma {:induction false} RunsAreFaithful<P, A>(setup: Setup<P, A>, first: P, second: P, ops: seq<MatchOp<A>>)
    requires TwoPlayers(setup.participants)
    ensures Faithful(setup, first, second, RunMatch(setup, first, second, ops))
    decreases |ops|
  {
    if ops == [] {
      StartFollows(setup, first, second);
    } else {
      RunsAreFaithful(setup, first, second, ops[..|ops| - 1]);
      OpIsFaithful(setup, first, second, RunMatch(setup, first, second, ops[..|ops| - 1]), ops[|ops| - 1]);
    }
  }

  /**
   Replay fidelity: whatever was submitted, released, reset, advanced or forced, the recorder accepts every
   frame of a run; and once the run has ended, reconstructing its log succeeds if and only if no step raised
   an error, and then reaches the same players, garbage counters, events, frame, winner, reason and hashes.
   */
  lemma ReplaysReproduceTheMatch<P, A>(setup: Setup<P, A>, first: P, second: P, ops: seq<MatchOp<A>>)
    requires TwoPlayers(setup.participants)
    ensures var r := RunMatch(setup, first, second, ops);
            && r.log.Ok?
            && (r.m.ending.Some? ==>
                  var replayed := Reconstruct(setup, first, second, r.log.value.entries, r.m.ending.value);
                  && (replayed.Ok? <==> !r.threw)
                  && (replayed.Ok? ==> Same(r.m, replayed.value) && replayed.value.ending == r.m.ending))
  {
    RunsAreFaithful(setup, first, second, ops);
  }
}

/**
 Soundness of delta synchronisation over a channel that may lose, repeat and reorder: whatever the client
 accepts is exactly the state the server projected for that message, with exactly the events it was missing.
 */
module DeltaSoundness {
  import opened Wrappers
  import opened StateDelta
  import opened MatchDelta

  /** What really happened in each match, event by event. */
  type History = (MatchId, nat) -> MatchEvent

  ghost predicate InjectiveHash(h: Encoding) {
    forall a, b {:trigger h.publicHash(a), h.publicHash(b)} :: h.publicHash(a) == h.publicHash(b) ==> a == b
  }

  /** Distinct players with full-height boards. */
  predicate PlayersOk(players: seq<PlayerSnapshot>) {
    && DistinctPlayers(players)
    && forall i | 0 <= i < |players| :: |players[i].boardRows| == BOARD_HEIGHT == |players[i].garbageRows|
  }

  /** The retained events are the latest ones, consecutively numbered, as they happened. */
  predicate EventsOk(v: ServerView, past: History) {
    && |v.events| <= v.lastEventSequence
    && forall i | 0 <= i < |v.events| ::
         var n := v.lastEventSequence - |v.events| + 1 + i;
         v.events[i].eventSequence == n && v.events[i] == past(v.matchId, n)
  }

  predicate ViewOk(v: ServerView, past: History) { PlayersOk(v.players) && EventsOk(v, past) }

  // ---------------------------------------------------------------- events

  lemma {:induction false} LaterEventsAreTheTail(events: seq<MatchEvent>, first: nat, eventSequence: nat)
    requires forall i | 0 <= i < |events| :: events[i].eventSequence == first + i
    ensures LaterEvents(events, eventSequence)
         == if eventSequence < first then events
            else if eventSequence - first >= |events| then [] else events[eventSequence - first + 1..]
    decreases |events|
  {
    if events != [] {
      var before, last := events[..|events| - 1], events[|events| - 1];
      LaterEventsAreTheTail(before, first, eventSequence);
      assert events == before + [last];
      if first <= eventSequence && eventSequence - first < |before| {
        assert events[eventSequence - first + 1..] == before[eventSequence - first + 1..] + [last];
      }
    }
  }

  /** An event as a viewer may see it: everything it says, but the hole of queued garbage only if it is the viewer's own. */
  predicate ShownTo(shown: MatchEvent, happened: MatchEvent, viewer: PlayerId) {
    match happened
    case GarbageQueued(n, packet, target, hole) =>
      && shown.GarbageQueued? && shown.eventSequence == n && shown.packet == packet && shown.target == target
      && (viewer == target ==> shown.hole == hole)
      && (viewer != target ==> shown.hole.None?)
    case GarbageApplied(_, _, _, _) => shown == happened
    case KnockedOut(_, _) => shown == happened
  }

  /** The delta's events are exactly those that happened between two sequence numbers, as the viewer may see them. */
  predicate MissingEvents(events: seq<MatchEvent>, past: History, matchId: MatchId, viewer: PlayerId, from: nat, to: nat) {
    && from <= to && |events| == to - from
    && forall i | 0 <= i < |events| :: ShownTo(events[i], past(matchId, from + 1 + i), viewer)
                                       && events[i].eventSequence == from + 1 + i
  }

  /** The tail of the retained events from one sequence number on. */
  lemma TailIsMissing(v: ServerView, viewer: PlayerId, from: nat, past: History)
    requires EventsOk(v, past) && v.lastEventSequence - |v.events| <= from <= v.lastEventSequence
    ensures MissingEvents(VisibleEvents(v.events[from - (v.lastEventSequence - |v.events|)..], viewer), past, v.matchId,
                          viewer, from, v.lastEventSequence)
  {
    var skip := from - (v.lastEventSequence - |v.events|);
    var events := VisibleEvents(v.events[skip..], viewer);
    forall i | 0 <= i < |events|
      ensures ShownTo(events[i], past(v.matchId, from + 1 + i), viewer) && events[i].eventSequence == from + 1 + i
    {
      assert events[i] == VisibleEvent(v.events[skip + i], viewer);
    }
  }

  lemma RetainedEventsAreHandedOver(v: ServerView, viewer: PlayerId, eventSequence: nat, past: History)
    requires EventsOk(v, past) && v.lastEventSequence - |v.events| <= eventSequence < v.lastEventSequence
    ensures EventsAfter(v, viewer, eventSequence)
         == Some(VisibleEvents(v.events[eventSequence - (v.lastEventSequence - |v.events|)..], viewer))
  {
    hide VisibleEvents, LaterEvents;
    var first := v.lastEventSequence - |v.events| + 1;
    var skip := eventSequence - (first - 1);
    LaterEventsAreTheTail(v.events, first, eventSequence);
    assert LaterEvents(v.events, eventSequence) == v.events[skip..];
    TailEnds(v.events, skip);
  }

  lemma ForgottenEventsAreRefused(v: ServerView, viewer: PlayerId, eventSequence: nat, past: History)
    requires EventsOk(v, past) && eventSequence < v.lastEventSequence - |v.events|
    ensures EventsAfter(v, viewer, eventSequence).None?
  {
    hide VisibleEvents, LaterEvents;
    var first := v.lastEventSequence - |v.events| + 1;
    LaterEventsAreTheTail(v.events, first, eventSequence);
    assert v.events != [] ==> v.events[0].eventSequence == first;
  }

  /** The server hands over the missing events if and only if it still retains them all. */
  lemma EventsAfterAreTheMissing(v: ServerView, viewer: PlayerId, eventSequence: nat, past: History)
    requires EventsOk(v, past)
    ensures EventsAfter(v, viewer, eventSequence).Some?
            <==> v.lastEventSequence - |v.events| <= eventSequence <= v.lastEventSequence
    ensures EventsAfter(v, viewer, eventSequence).Some? ==>
              MissingEvents(EventsAfter(v, viewer, eventSequence).value, past, v.matchId, viewer, eventSequence, v.lastEventSequence)
  {
    hide MissingEvents, VisibleEvents, LaterEvents;
    if eventSequence < v.lastEventSequence - |v.events| {
      ForgottenEventsAreRefused(v, viewer, eventSequence, past);
    } else if eventSequence < v.lastEventSequence {
      RetainedEventsAreHandedOver(v, viewer, eventSequence, past);
      TailIsMissing(v, viewer, eventSequence, past);
    } else if eventSequence == v.lastEventSequence {
      NothingMissing(past, v.matchId, viewer, eventSequence);
    }
  }

  lemma NothingMissing(past: History, matchId: MatchId, viewer: PlayerId, at: nat)
    ensures MissingEvents([], past, matchId, viewer, at, at)
  {
  }

  lemma TailEnds(events: seq<MatchEvent>, skip: nat)
    requires skip < |events|
    ensures events[skip..][0] == events[skip] && events[skip..][|events[skip..]| - 1] == events[|events| - 1]
  {
  }

  // ---------------------------------------------------------------- one message

  /** A snapshot as the server projects it. */
  ghost predicate Genuine(h: Encoding, s: Snapshot) { s.publicHash == h.publicHash(s.players) && PlayersOk(s.players) }

  /** A message with the full state it stands for and, for a delta, the state it was made against. */
  datatype Sent = Sent(message: Message, full: Snapshot, base: Option<Snapshot>)

  ghost predicate SentOk(h: Encoding, past: History, viewer: PlayerId, t: Sent) {
    && Genuine(h, t.full)
    && match t.message
       case Full(s) => s == t.full
       case Partial(d) =>
         && t.base.Some? && Genuine(h, t.base.value)
         && CreatePlayerPatches(t.base.value.players, t.full.players).Some?
         && d == DeltaOf(t.base.value, t.full, CreatePlayerPatches(t.base.value.players, t.full.players).value, d.events)
         && MissingEvents(d.events, past, t.full.matchId, viewer, t.base.value.lastEventSequence, t.full.lastEventSequence)
  }

  function SendUpdate(h: Encoding, v: ServerView, viewer: PlayerId, baseline: Option<Snapshot>): Sent {
    Sent(ProjectUpdate(h, v, viewer, baseline), ProjectSnapshot(h, v, viewer), baseline)
  }

  lemma UpdatesAreOk(h: Encoding, past: History, v: ServerView, viewer: PlayerId, baseline: Option<Snapshot>)
    requires ViewOk(v, past) && (baseline.Some? ==> Genuine(h, baseline.value))
    ensures SentOk(h, past, viewer, SendUpdate(h, v, viewer, baseline))
  {
    if baseline.Some? {
      EventsAfterAreTheMissing(v, viewer, baseline.value.lastEventSequence, past);
    }
  }

  lemma PatchesReach(base: seq<PlayerSnapshot>, full: seq<PlayerSnapshot>)
    requires PlayersOk(base) && PlayersOk(full) && CreatePlayerPatches(base, full).Some?
    ensures ApplyPlayerPatches(base, CreatePlayerPatches(base, full).value) == Ok(full)
  {
    PatchesRoundTrip(base, full);
  }

  /**
   One message, however late or repeated: if the client takes it, it ends with exactly the full state the
   server projected for that message; and the events of a delta it takes are exactly the ones it had missed.
   */
  lemma AcceptedIsTheProjection(h: Encoding, past: History, viewer: PlayerId, r: Receiver, t: Sent)
    requires InjectiveHash(h) && SentOk(h, past, viewer, t)
    requires r.snapshot.Some? ==> Genuine(h, r.snapshot.value)
    ensures var (next, received) := Receive(r, t.message);
            && (received.snapshot.Some? ==> next.snapshot == received.snapshot == Some(t.full))
            && (received.snapshot.None? ==> next.snapshot == r.snapshot)
            && (received.snapshot.Some? && t.message.Partial? ==>
                  && r.snapshot.Some?
                  && MissingEvents(t.message.delta.events, past, t.full.matchId, viewer,
                                   r.snapshot.value.lastEventSequence, t.full.lastEventSequence))
  {
    if t.message.Partial? && r.snapshot.Some? && t.message.delta.basePublicHash == r.snapshot.value.publicHash {
      var base := t.base.value;
      assert h.publicHash(base.players) == h.publicHash(r.snapshot.value.players);
      PatchesReach(base.players, t.full.players);
      if ContiguousEvents(r.snapshot.value, t.message.delta) {
        SameStart(base, r.snapshot.value, t.message.delta, past, viewer, t.full);
      }
    }
  }

  /** A delta whose events fit the client was made from a state with the client's event sequence. */
  lemma SameStart(base: Snapshot, held: Snapshot, d: Delta, past: History, viewer: PlayerId, full: Snapshot)
    requires ContiguousEvents(held, d) && d.lastEventSequence == full.lastEventSequence
    requires MissingEvents(d.events, past, full.matchId, viewer, base.lastEventSequence, full.lastEventSequence)
    ensures base.lastEventSequence == held.lastEventSequence
  {
  }

  // ---------------------------------------------------------------- the lossy channel

  /** One viewer: its client, the baseline the server keeps for its connection, and everything ever sent to it. */
  datatype World = World(receiver: Receiver, baseline: Option<Snapshot>, sent: seq<Sent>)

  /** Messages are delivered by index: any number of times, in any order, or never. */
  datatype Step =
    | Begin(matchId: MatchId)
    | Publish(view: ServerView, accepted: bool)
    | SendFull(view: ServerView, accepted: bool)
    | NewConnection
    | Deliver(k: nat)

  function Next(h: Encoding, viewer: PlayerId, w: World, step: Step): World {
    match step
    case Begin(matchId) => w.(receiver := StartMatch(matchId))
    case Publish(v, accepted) =>
      w.(baseline := if accepted then Some(ProjectSnapshot(h, v, viewer)) else None,
         sent := w.sent + [SendUpdate(h, v, viewer, w.baseline)])
    case SendFull(v, accepted) =>
      w.(baseline := if accepted then Some(ProjectSnapshot(h, v, viewer)) else None,
         sent := w.sent + [SendUpdate(h, v, viewer, None)])
    case NewConnection => w.(baseline := None)
    case Deliver(k) => if k < |w.sent| then w.(receiver := Receive(w.receiver, w.sent[k].message).0) else w
  }

  function Run(h: Encoding, viewer: PlayerId, steps: seq<Step>): World {
    if steps == [] then World(Receiver(None, None, false), None, [])
    else Next(h, viewer, Run(h, viewer, steps[..|steps| - 1]), steps[|steps| - 1])
  }

  predicate StepOk(step: Step, past: History) { step.Publish? || step.SendFull? ==> ViewOk(step.view, past) }

  predicate StepsOk(steps: seq<Step>, past: History) { forall i | 0 <= i < |steps| :: StepOk(steps[i], past) }

  /** The client holds nothing, or the full state of some message that was really sent. */
  predicate HoldsSent(w: World) {
    w.receiver.snapshot.Some? ==> exists k :: 0 <= k < |w.sent| && w.receiver.snapshot == Some(w.sent[k].full)
  }

  ghost predicate Sound(h: Encoding, past: History, viewer: PlayerId, w: World) {
    && (w.baseline.Some? ==> Genuine(h, w.baseline.value))
    && (forall k | 0 <= k < |w.sent| :: SentOk(h, past, viewer, w.sent[k]))
    && HoldsSent(w)
  }

  lemma HeldIsGenuine(h: Encoding, past: History, viewer: PlayerId, w: World)
    requires Sound(h, past, viewer, w)
    ensures w.receiver.snapshot.Some? ==> Genuine(h, w.receiver.snapshot.value)
  {
    if w.receiver.snapshot.Some? {
      var k :| 0 <= k < |w.sent| && w.receiver.snapshot == Some(w.sent[k].full);
      assert SentOk(h, past, viewer, w.sent[k]);
    }
  }

  lemma SendingKeepsHolding(w: World, t: Sent, baseline: Option<Snapshot>)
    requires HoldsSent(w)
    ensures HoldsSent(w.(baseline := baseline, sent := w.sent + [t]))
  {
    if w.receiver.snapshot.Some? {
      var k :| 0 <= k < |w.sent| && w.receiver.snapshot == Some(w.sent[k].full);
      assert (w.sent + [t])[k] == w.sent[k];
    }
  }

  lemma StepIsSound(h: Encoding, past: History, viewer: PlayerId, w: World, step: Step)
    requires InjectiveHash(h) && Sound(h, past, viewer, w) && StepOk(step, past)
    ensures Sound(h, past, viewer, Next(h, viewer, w, step))
  {
    match step
    case Begin(_) =>
    case NewConnection =>
    case Publish(v, accepted) =>
      UpdatesAreOk(h, past, v, viewer, w.baseline);
      SendingKeepsHolding(w, SendUpdate(h, v, viewer, w.baseline), Next(h, viewer, w, step).baseline);
    case SendFull(v, accepted) =>
      UpdatesAreOk(h, past, v, viewer, None);
      SendingKeepsHolding(w, SendUpdate(h, v, viewer, None), Next(h, viewer, w, step).baseline);
    case Deliver(k) =>
      if k < |w.sent| {
        HeldIsGenuine(h, past, viewer, w);
        AcceptedIsTheProjection(h, past, viewer, w.receiver, w.sent[k]);
      }
  }

  lemma {:induction false} RunsAreSound(h: Encoding, past: History, viewer: PlayerId, steps: seq<Step>)
    requires InjectiveHash(h) && StepsOk(steps, past)
    ensures Sound(h, past, viewer, Run(h, viewer, steps))
    decreases |steps|
  {
    if steps != [] {
      var m := |steps| - 1;
      RunsAreSound(h, past, viewer, steps[..m]);
      StepIsSound(h, past, viewer, Run(h, viewer, steps[..m]), steps[m]);
    }
  }

  /**
   Delta soundness: under any loss, duplication and reordering, every message the client accepts leaves it with
   exactly the full state the server projected for that message, and every delta it accepts carries exactly the
   events it had missed; so the client only ever holds states the server really projected.
   */
  lemma DeltasAreSound(h: Encoding, past: History, viewer: PlayerId, steps: seq<Step>, k: nat)
    requires InjectiveHash(h) && StepsOk(steps, past)
    ensures var w := Run(h, viewer, steps);
            && HoldsSent(w)
            && (k < |w.sent| ==>
                  var (next, received) := Receive(w.receiver, w.sent[k].message);
                  && (received.snapshot.Some? ==> received.snapshot == next.snapshot == Some(w.sent[k].full))
                  && (received.snapshot.None? ==> next.snapshot == w.receiver.snapshot)
                  && (received.snapshot.Some? && w.sent[k].message.Partial? ==>
                        && w.receiver.snapshot.Some?
                        && MissingEvents(w.sent[k].message.delta.events, past, w.sent[k].full.matchId, viewer,
                                         w.receiver.snapshot.value.lastEventSequence, w.sent[k].full.lastEventSequence)))
  {
    RunsAreSound(h, past, viewer, steps);
    var w := Run(h, viewer, steps);
    if k < |w.sent| {
      HeldIsGenuine(h, past, viewer, w);
      AcceptedIsTheProjection(h, past, viewer, w.receiver, w.sent[k]);
    }
  }

  /**
   Completeness: a client that holds the server's baseline takes the next update, whichever form it has, and
   then holds the server's new state, without asking for a resync.
   */
  lemma SynchronisedClientsStayInSync(h: Encoding, past: History, viewer: PlayerId, r: Receiver, v: ServerView)
    requires ViewOk(v, past)
    requires r.snapshot.Some? && Genuine(h, r.snapshot.value)
    requires r.matchId == Some(v.matchId) && r.snapshot.value.matchId == v.matchId
    requires r.snapshot.value.stateSequence < v.stateSequence
    ensures var (next, received) := Receive(r, ProjectUpdate(h, v, viewer, r.snapshot));
            next.snapshot == received.snapshot == Some(ProjectSnapshot(h, v, viewer)) && received.resync.None?
  {
    var base, full := r.snapshot.value, ProjectSnapshot(h, v, viewer);
    EventsAfterAreTheMissing(v, viewer, base.lastEventSequence, past);
    if CreatePlayerPatches(base.players, full.players).Some? {
      PatchesReach(base.players, full.players);
    }
  }

  // ---------------------------------------------------------------- progress of a run

  /** What the server has sent of a match so far is no later than this view of it. */
  predicate SentUpTo(steps: seq<Step>, v: ServerView) { forall i | 0 <= i < |steps| :: StepUpTo(steps[i], v) }

  predicate StepUpTo(step: Step, v: ServerView) {
    (step.Publish? || step.SendFull?) && step.view.matchId == v.matchId ==> step.view.stateSequence <= v.stateSequence
  }

  predicate FullUpTo(t: Sent, v: ServerView) {
    t.full.matchId == v.matchId ==> t.full.stateSequence <= v.stateSequence
  }

  lemma {:induction false} SentIsBounded(h: Encoding, viewer: PlayerId, steps: seq<Step>, v: ServerView)
    requires SentUpTo(steps, v)
    ensures forall k | 0 <= k < |Run(h, viewer, steps).sent| :: FullUpTo(Run(h, viewer, steps).sent[k], v)
    decreases |steps|
  {
    if steps != [] {
      var before, step := steps[..|steps| - 1], steps[|steps| - 1];
      assert StepUpTo(step, v);
      SentIsBounded(h, viewer, before, v);
      var w := Run(h, viewer, before);
      assert Run(h, viewer, steps) == Next(h, viewer, w, step);
      match step
      case Publish(view, _) => assert FullUpTo(SendUpdate(h, view, viewer, w.baseline), v);
      case SendFull(view, _) => assert FullUpTo(SendUpdate(h, view, viewer, None), v);
      case _ =>
    }
  }

  predicate OfItsMatch(r: Receiver) { r.snapshot.Some? ==> r.matchId == Some(r.snapshot.value.matchId) }

  lemma ReceivingKeepsItsMatch(r: Receiver, m: Message)
    requires OfItsMatch(r)
    ensures OfItsMatch(Receive(r, m).0)
  {
  }

  lemma {:induction false} HoldsItsMatch(h: Encoding, viewer: PlayerId, steps: seq<Step>)
    ensures OfItsMatch(Run(h, viewer, steps).receiver)
    decreases |steps|
  {
    if steps != [] {
      HoldsItsMatch(h, viewer, steps[..|steps| - 1]);
      var w, step := Run(h, viewer, steps[..|steps| - 1]), steps[|steps| - 1];
      if step.Deliver? && step.k < |w.sent| {
        ReceivingKeepsItsMatch(w.receiver, w.sent[step.k].message);
      }
    }
  }

  lemma OneMore(h: Encoding, viewer: PlayerId, steps: seq<Step>, step: Step)
    ensures Run(h, viewer, steps + [step]) == Next(h, viewer, Run(h, viewer, steps), step)
  {
    assert (steps + [step])[..|steps|] == steps;
  }

  /**
   Resynchronisation: after any run, if the client is waiting for a full state of the match and the server, whose
   states never fall, sends one, then its delivery leaves the client with exactly the server's state and no request
   open, even when nothing has changed since.
   */
  lemma ResyncsAreAnswered(h: Encoding, past: History, viewer: PlayerId, steps: seq<Step>, v: ServerView, accepted: bool)
    requires InjectiveHash(h) && StepsOk(steps, past) && SentUpTo(steps, v)
    requires var r := Run(h, viewer, steps).receiver; r.matchId == Some(v.matchId) && r.resyncRequested
    ensures var answer := |Run(h, viewer, steps).sent|;
            Run(h, viewer, steps + [SendFull(v, accepted)] + [Deliver(answer)]).receiver
            == Receiver(Some(v.matchId), Some(ProjectSnapshot(h, v, viewer)), false)
  {
    var w, answer := Run(h, viewer, steps), |Run(h, viewer, steps).sent|;
    RunsAreSound(h, past, viewer, steps);
    HoldsItsMatch(h, viewer, steps);
    SentIsBounded(h, viewer, steps, v);
    OneMore(h, viewer, steps, SendFull(v, accepted));
    OneMore(h, viewer, steps + [SendFull(v, accepted)], Deliver(answer));
  }

  lemma ReceivingNeverGoesBack(r: Receiver, m: Message)
    requires r.snapshot.Some?
    ensures var next := Receive(r, m).0;
            && next.matchId == r.matchId && next.snapshot.Some?
            && next.snapshot.value.stateSequence >= r.snapshot.value.stateSequence
  {
  }

  /** Under any loss, duplication and reordering, the client never goes back to an earlier state of its match. */
  lemma {:induction false} StatesNeverGoBack(h: Encoding, viewer: PlayerId, steps: seq<Step>, m: nat)
    requires m <= |steps| && (forall i | m <= i < |steps| :: !steps[i].Begin?)
    requires Run(h, viewer, steps[..m]).receiver.snapshot.Some?
    ensures var earlier, later := Run(h, viewer, steps[..m]).receiver, Run(h, viewer, steps).receiver;
            && later.matchId == earlier.matchId && later.snapshot.Some?
            && later.snapshot.value.stateSequence >= earlier.snapshot.value.stateSequence
    decreases |steps|
  {
    if m == |steps| {
      assert steps[..m] == steps;
    } else {
      var before := steps[..|steps| - 1];
      assert before[..m] == steps[..m];
      StatesNeverGoBack(h, viewer, before, m);
      var w, step := Run(h, viewer, before), steps[|steps| - 1];
      if step.Deliver? && step.k < |w.sent| {
        ReceivingNeverGoesBack(w.receiver, w.sent[step.k].message);
      }
    }
  }
}

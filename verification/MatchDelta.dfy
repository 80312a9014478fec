/**
 Delta synchronisation: the server sends each viewer either a full snapshot or a patch against the last
 state it knows the viewer's connection took, and the client checks every patch against what it holds.
 */
module MatchDelta {
  import opened Wrappers
  import opened Pieces
  import opened StateDelta

  const BOARD_HEIGHT: nat := 40

  type MatchId = nat

  datatype PrivateSnapshot = PrivateSnapshot(
    playerId: PlayerId, pieceCursor: int, pieceWindow: seq<Kind>, heldInputMask: int, dasFrames: int, arrFrames: int,
    gravity256: int, lockFrames: int, lockResets: int, canHold: bool, pendingHoles: seq<int>)

  datatype MatchEvent =
    | GarbageQueued(eventSequence: nat, packet: PublicPacket, target: PlayerId, hole: Option<int>)
    | GarbageApplied(eventSequence: nat, packetId: string, target: PlayerId, holes: seq<int>)
    | KnockedOut(eventSequence: nat, loser: PlayerId)

  datatype Snapshot = Snapshot(
    matchId: MatchId, stateSequence: nat, lastEventSequence: nat, serverFrame: nat, publicHash: int,
    selfHash: Option<int>, players: seq<PlayerSnapshot>, self: Option<PrivateSnapshot>)

  datatype Delta = Delta(
    matchId: MatchId, stateSequence: nat, baseStateSequence: nat, basePublicHash: int, lastEventSequence: nat,
    serverFrame: nat, publicHash: int, selfHash: Option<int>, patches: seq<PlayerPatch>, events: seq<MatchEvent>,
    self: Option<PrivateSnapshot>)

  datatype Message = Full(snapshot: Snapshot) | Partial(delta: Delta)

  /** The server's match state, with the events it still retains. */
  datatype ServerView = ServerView(
    matchId: MatchId, stateSequence: nat, lastEventSequence: nat, serverFrame: nat, players: seq<PlayerSnapshot>,
    privates: map<PlayerId, PrivateSnapshot>, events: seq<MatchEvent>)

  /** The hashes and the message size, which are all the protocol takes from the encoding. */
  datatype Encoding = Encoding(
    publicHash: seq<PlayerSnapshot> -> int, selfHash: (nat, PlayerId, PrivateSnapshot) -> int, bytes: Message -> nat)

  // ---------------------------------------------------------------- the server

  function ProjectSnapshot(h: Encoding, v: ServerView, viewer: PlayerId): Snapshot {
    var self := if viewer in v.privates then Some(v.privates[viewer]) else None;
    Snapshot(v.matchId, v.stateSequence, v.lastEventSequence, v.serverFrame, h.publicHash(v.players),
             if self.None? then None else Some(h.selfHash(v.serverFrame, viewer, self.value)), v.players, self)
  }

  /** Only its target is told where queued garbage will open. */
  function VisibleEvent(e: MatchEvent, viewer: PlayerId): MatchEvent {
    if e.GarbageQueued? && e.target != viewer then e.(hole := None) else e
  }

  function VisibleEvents(events: seq<MatchEvent>, viewer: PlayerId): seq<MatchEvent> {
    seq(|events|, i requires 0 <= i < |events| => VisibleEvent(events[i], viewer))
  }

  function LaterEvents(events: seq<MatchEvent>, eventSequence: nat): seq<MatchEvent> {
    if events == [] then []
    else if events[|events| - 1].eventSequence > eventSequence then
      LaterEvents(events[..|events| - 1], eventSequence) + [events[|events| - 1]]
    else LaterEvents(events[..|events| - 1], eventSequence)
  }

  /** The events after a sequence number, or `None` when the server no longer retains them all. */
  function EventsAfter(v: ServerView, viewer: PlayerId, eventSequence: nat): Option<seq<MatchEvent>> {
    if eventSequence == v.lastEventSequence then Some([])
    else if eventSequence > v.lastEventSequence then None
    else
      var events := LaterEvents(v.events, eventSequence);
      if events == [] || events[0].eventSequence != eventSequence + 1
         || events[|events| - 1].eventSequence != v.lastEventSequence then None
      else Some(VisibleEvents(events, viewer))
  }

  function DeltaOf(base: Snapshot, full: Snapshot, patches: seq<PlayerPatch>, events: seq<MatchEvent>): Delta {
    Delta(full.matchId, full.stateSequence, base.stateSequence, base.publicHash, full.lastEventSequence, full.serverFrame,
          full.publicHash, full.selfHash, patches, events, full.self)
  }

  /** A delta against the baseline when one exists, reaches the state, and is smaller; the full state otherwise. */
  function ProjectUpdate(h: Encoding, v: ServerView, viewer: PlayerId, baseline: Option<Snapshot>): Message {
    var full := ProjectSnapshot(h, v, viewer);
    if baseline.None? || baseline.value.matchId != full.matchId || baseline.value.stateSequence >= full.stateSequence
    then Full(full)
    else
      var base := baseline.value;
      var patches := CreatePlayerPatches(base.players, full.players);
      var events := EventsAfter(v, viewer, base.lastEventSequence);
      if patches.None? || events.None? then Full(full)
      else
        var delta := Partial(DeltaOf(base, full, patches.value, events.value));
        if h.bytes(delta) < h.bytes(Full(full)) then delta else Full(full)
  }

  // ---------------------------------------------------------------- the client

  /** A delta's events carry on exactly where the baseline's stop. */
  predicate ContiguousEvents(base: Snapshot, d: Delta) {
    && d.lastEventSequence == base.lastEventSequence + |d.events|
    && forall i | 0 <= i < |d.events| :: d.events[i].eventSequence == base.lastEventSequence + 1 + i
  }

  /** The counting loop. */
  method HasContiguousEvents(base: Snapshot, d: Delta) returns (ok: bool)
    ensures ok <==> ContiguousEvents(base, d)
  {
    if d.lastEventSequence < base.lastEventSequence {
      return false;
    }
    if d.lastEventSequence == base.lastEventSequence {
      return |d.events| == 0;
    }
    var expected := base.lastEventSequence + 1;
    for i := 0 to |d.events|
      invariant expected == base.lastEventSequence + 1 + i
      invariant forall j | 0 <= j < i :: d.events[j].eventSequence == base.lastEventSequence + 1 + j
    {
      if d.events[i].eventSequence != expected {
        return false;
      }
      expected := expected + 1;
    }
    return expected - 1 == d.lastEventSequence;
  }

  datatype Reduction = Accepted(snapshot: Snapshot) | Stale | Resync

  function ReduceDelta(baseline: Option<Snapshot>, d: Delta): Reduction {
    if baseline.Some? && d.stateSequence <= baseline.value.stateSequence then Stale
    else if baseline.None? || d.matchId != baseline.value.matchId
         || d.baseStateSequence != baseline.value.stateSequence
         || d.basePublicHash != baseline.value.publicHash
         || !ContiguousEvents(baseline.value, d) then Resync
    else match ApplyPlayerPatches(baseline.value.players, d.patches)
      case Err(_) => Resync
      case Ok(players) =>
        Accepted(Snapshot(d.matchId, d.stateSequence, d.lastEventSequence, d.serverFrame, d.publicHash, d.selfHash,
                          players, d.self))
  }

  datatype Receiver = Receiver(matchId: Option<MatchId>, snapshot: Option<Snapshot>, resyncRequested: bool)

  datatype ResyncRequest = ResyncRequest(matchId: MatchId, lastStateSequence: nat, lastEventSequence: nat)

  datatype Received = Received(snapshot: Option<Snapshot>, resync: Option<ResyncRequest>)

  function StartMatch(matchId: MatchId): Receiver { Receiver(Some(matchId), None, false) }

  predicate TakesSnapshot(r: Receiver, s: Snapshot) {
    && r.matchId == Some(s.matchId)
    && (r.snapshot.Some? ==>
          && s.stateSequence >= r.snapshot.value.stateSequence
          && (s.stateSequence == r.snapshot.value.stateSequence ==> r.resyncRequested))
  }

  function AcceptSnapshot(r: Receiver, s: Snapshot): (Receiver, Received) {
    if TakesSnapshot(r, s) then (r.(snapshot := Some(s), resyncRequested := false), Received(Some(s), None))
    else (r, Received(None, None))
  }

  function AcceptDelta(r: Receiver, d: Delta): (Receiver, Received) {
    if r.matchId != Some(d.matchId) then (r, Received(None, None))
    else match ReduceDelta(r.snapshot, d)
      case Stale => (r, Received(None, None))
      case Accepted(s) => (r.(snapshot := Some(s), resyncRequested := false), Received(Some(s), None))
      case Resync =>
        if r.resyncRequested then (r, Received(None, None))
        else
          (r.(resyncRequested := true),
           Received(None, Some(ResyncRequest(
             d.matchId,
             if r.snapshot.Some? then r.snapshot.value.stateSequence else 0,
             if r.snapshot.Some? then r.snapshot.value.lastEventSequence else 0))))
  }

  function Receive(r: Receiver, m: Message): (Receiver, Received) {
    match m
    case Full(s) => AcceptSnapshot(r, s)
    case Partial(d) => AcceptDelta(r, d)
  }

  /** The client object. */
  class MatchDeltaReceiver {
    var matchId: Option<MatchId>
    var snapshot: Option<Snapshot>
    var resyncRequested: bool

    function View(): Receiver
      reads this
    {
      Receiver(matchId, snapshot, resyncRequested)
    }

    constructor ()
      ensures View() == Receiver(None, None, false)
    {
      matchId, snapshot, resyncRequested := None, None, false;
    }

    method Start(id: MatchId)
      modifies this
      ensures View() == StartMatch(id)
    {
      matchId, snapshot, resyncRequested := Some(id), None, false;
    }

    method TakeSnapshot(message: Snapshot) returns (taken: Option<Snapshot>)
      modifies this
      ensures (View(), Received(taken, None)) == AcceptSnapshot(old(View()), message)
    {
      if matchId != Some(message.matchId) {
        return None;
      }
      if snapshot.Some? {
        if message.stateSequence < snapshot.value.stateSequence {
          return None;
        }
        if message.stateSequence == snapshot.value.stateSequence && !resyncRequested {
          return None;
        }
      }
      snapshot := Some(message);
      resyncRequested := false;
      return Some(message);
    }

    method TakeDelta(message: Delta) returns (r: Received)
      modifies this
      ensures (View(), r) == AcceptDelta(old(View()), message)
    {
      if matchId != Some(message.matchId) {
        return Received(None, None);
      }
      var reduced := ReduceDelta(snapshot, message);
      if reduced.Stale? {
        return Received(None, None);
      }
      if reduced.Accepted? {
        snapshot := Some(reduced.snapshot);
        resyncRequested := false;
        return Received(Some(reduced.snapshot), None);
      }
      if resyncRequested {
        return Received(None, None);
      }
      resyncRequested := true;
      var last := if snapshot.Some? then snapshot.value.stateSequence else 0;
      var event := if snapshot.Some? then snapshot.value.lastEventSequence else 0;
      return Received(None, Some(ResyncRequest(message.matchId, last, event)));
    }
  }

  // ---------------------------------------------------------------- the server's baselines

  datatype ViewerBaseline = ViewerBaseline(connectionGeneration: nat, snapshot: Snapshot)

  type Baselines = map<MatchId, map<PlayerId, ViewerBaseline>>

  /** The baseline kept for a viewer of a match. */
  function Kept(m: Baselines, matchId: MatchId, viewer: PlayerId): Option<ViewerBaseline> {
    if matchId in m && viewer in m[matchId] then Some(m[matchId][viewer]) else None
  }

  class MatchDeliveryBaselines {
    var matches: Baselines

    /** No match is kept without a viewer. */
    predicate Valid()
      reads this
    {
      forall id | id in matches :: matches[id] != map[]
    }

    constructor ()
      ensures Valid() && forall m, p :: Kept(matches, m, p).None?
    {
      matches := map[];
    }

    /** The baseline of this very connection; one of an older generation is dropped. */
    method Get(matchId: MatchId, viewer: PlayerId, generation: nat) returns (s: Option<Snapshot>)
      requires Valid()
      modifies this
      ensures Valid()
      ensures s.Some? <==> Kept(old(matches), matchId, viewer).Some?
                           && Kept(old(matches), matchId, viewer).value.connectionGeneration == generation
      ensures s.Some? ==> Kept(old(matches), matchId, viewer) == Some(ViewerBaseline(generation, s.value))
      ensures s.Some? ==> matches == old(matches)
      ensures forall m, p :: Kept(matches, m, p)
                          == if s.None? && m == matchId && p == viewer then None else Kept(old(matches), m, p)
    {
      if matchId !in matches || viewer !in matches[matchId] {
        return None;
      }
      var baseline := matches[matchId][viewer];
      if baseline.connectionGeneration == generation {
        return Some(baseline.snapshot);
      }
      Drop(matchId, viewer);
      return None;
    }

    method Drop(matchId: MatchId, viewer: PlayerId)
      requires Valid() && matchId in matches
      modifies this
      ensures Valid()
      ensures forall m, p :: Kept(matches, m, p) == if m == matchId && p == viewer then None else Kept(old(matches), m, p)
    {
      var viewers := matches[matchId] - {viewer};
      if |viewers| == 0 {
        matches := matches - {matchId};
      } else {
        matches := matches[matchId := viewers];
      }
    }

    method Accept(matchId: MatchId, viewer: PlayerId, generation: nat, snapshot: Snapshot)
      requires Valid()
      modifies this
      ensures Valid()
      ensures forall m, p :: Kept(matches, m, p) == if m == matchId && p == viewer
                                                    then Some(ViewerBaseline(generation, snapshot))
                                                    else Kept(old(matches), m, p)
    {
      var viewers := if matchId in matches then matches[matchId] else map[];
      matches := matches[matchId := viewers[viewer := ViewerBaseline(generation, snapshot)]];
      assert viewer in matches[matchId];
    }

    method Reject(matchId: MatchId, viewer: PlayerId)
      requires Valid()
      modifies this
      ensures Valid()
      ensures forall m, p :: Kept(matches, m, p) == if m == matchId && p == viewer then None else Kept(old(matches), m, p)
    {
      if matchId in matches {
        Drop(matchId, viewer);
      }
    }

    method ClearMatch(matchId: MatchId)
      requires Valid()
      modifies this
      ensures Valid()
      ensures forall m, p :: Kept(matches, m, p) == if m == matchId then None else Kept(old(matches), m, p)
    {
      matches := matches - {matchId};
    }
  }
}

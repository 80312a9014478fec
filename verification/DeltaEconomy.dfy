/** What a delta leaves out: unchanged players, fields and rows; anything larger than the full state; other players' secrets. */
module DeltaEconomy {
  import opened Wrappers
  import opened StateDelta
  import opened MatchDelta
  import opened DeltaSoundness

  // ---------------------------------------------------------------- patches name exactly the changes

  predicate Names(rows: seq<RowChange>, y: int) { exists i :: 0 <= i < |rows| && rows[i].y == y }

  /** The rows a patch carries: exactly those that differ, bottom up, each with its new content. */
  predicate NamesTheChanges(before: PlayerSnapshot, after: PlayerSnapshot, rows: seq<RowChange>, n: nat)
    requires n <= |before.boardRows| == |after.boardRows| && Aligned(before) && Aligned(after)
  {
    && (forall i | 0 <= i < |rows| ::
          0 <= rows[i].y < n && rows[i].bits == after.boardRows[rows[i].y] && rows[i].garbage == after.garbageRows[rows[i].y])
    && (forall i, j | 0 <= i < j < |rows| :: rows[i].y < rows[j].y)
    && (forall y | 0 <= y < n ::
          Names(rows, y) <==> before.boardRows[y] != after.boardRows[y] || before.garbageRows[y] != after.garbageRows[y])
  }

  lemma {:induction false} ChangedRowsNameTheChanges(before: PlayerSnapshot, after: PlayerSnapshot, n: nat)
    requires n <= |before.boardRows| == |after.boardRows| && Aligned(before) && Aligned(after)
    ensures NamesTheChanges(before, after, ChangedRows(before, after, n), n)
    decreases n
  {
    if n > 0 {
      ChangedRowsNameTheChanges(before, after, n - 1);
      var rows := ChangedRows(before, after, n - 1);
      var all := ChangedRows(before, after, n);
      forall y | 0 <= y < n
        ensures Names(all, y) <==> before.boardRows[y] != after.boardRows[y] || before.garbageRows[y] != after.garbageRows[y]
      {
        if y < n - 1 {
          NamingOneMore(rows, all, n - 1, y);
        } else {
          assert !Names(rows, y);
          assert all != rows ==> all[|rows|].y == y;
        }
      }
    }
  }

  lemma NamingOneMore(rows: seq<RowChange>, all: seq<RowChange>, last: int, y: int)
    requires all == rows || (|all| == |rows| + 1 && all[..|rows|] == rows && all[|rows|].y == last)
    requires y != last
    ensures Names(all, y) <==> Names(rows, y)
  {
    if Names(rows, y) {
      var i :| 0 <= i < |rows| && rows[i].y == y;
      assert all[i] == rows[i];
    }
    if Names(all, y) {
      var i :| 0 <= i < |all| && all[i].y == y;
      assert i < |rows| ==> rows[i] == all[i];
    }
  }

  predicate NamesIfChanged<T(==)>(field: Option<T>, before: T, after: T) {
    (field.Some? <==> before != after) && (field.Some? ==> field.value == after)
  }

  /**
   A player's patch names exactly what changed: each field if and only if it has a new value, and each row if and only if
   it looks different or is flagged differently. A player of whom nothing changed has no patch, and no one else lacks one.
   */
  lemma PatchesNameExactlyTheChanges(before: PlayerSnapshot, after: PlayerSnapshot)
    requires before.playerId == after.playerId && |before.boardRows| == |after.boardRows|
    requires Aligned(before) && Aligned(after)
    ensures PatchPlayer(before, after).None? <==> before == after
    ensures PatchPlayer(before, after).Some? ==>
              var p := PatchPlayer(before, after).value;
              && p.playerId == after.playerId
              && NamesTheChanges(before, after, p.changedRows.GetOr([]), |after.boardRows|)
              && (p.changedRows.Some? ==> p.changedRows.value != [])
              && NamesIfChanged(p.active, before.active, after.active) && NamesIfChanged(p.hold, before.hold, after.hold)
              && NamesIfChanged(p.next, before.next, after.next) && NamesIfChanged(p.combo, before.combo, after.combo)
              && NamesIfChanged(p.backToBack, before.backToBack, after.backToBack)
              && NamesIfChanged(p.piecesPlaced, before.piecesPlaced, after.piecesPlaced)
              && NamesIfChanged(p.totalAttackSent, before.totalAttackSent, after.totalAttackSent)
              && NamesIfChanged(p.pendingGarbage, before.pendingGarbage, after.pendingGarbage)
              && NamesIfChanged(p.toppedOut, before.toppedOut, after.toppedOut)
  {
    var n := |after.boardRows|;
    var rows := ChangedRows(before, after, n);
    ChangedRowsNameTheChanges(before, after, n);
    hide ChangedRows;
    if rows == [] {
      forall y | 0 <= y < n
        ensures before.boardRows[y] == after.boardRows[y] && before.garbageRows[y] == after.garbageRows[y]
      {
        assert !Names(rows, y);
      }
      assert before.boardRows == after.boardRows && before.garbageRows == after.garbageRows;
    } else {
      assert Names(rows, rows[0].y);
    }
  }

  // ---------------------------------------------------------------- when a delta is sent

  /** Can the viewer's state be brought up to date by a delta at all? */
  predicate CanPatch(v: ServerView, base: Snapshot) {
    && base.matchId == v.matchId && base.stateSequence < v.stateSequence
    && SameRoster(base.players, v.players)
    && v.lastEventSequence - |v.events| <= base.lastEventSequence <= v.lastEventSequence
  }

  /** The only delta there is to send: the changes since the baseline, with the events since. */
  function TheDelta(h: Encoding, v: ServerView, viewer: PlayerId, base: Snapshot): Message
    requires SameRoster(base.players, v.players)
  {
    Partial(DeltaOf(base, ProjectSnapshot(h, v, viewer), PatchAll(base.players, v.players, |v.players|),
                    EventsAfter(v, viewer, base.lastEventSequence).GetOr([])))
  }

  /**
   An update is a delta if and only if the baseline can be patched (same match, an earlier state, the same players, all
   events since still retained) and the delta is the smaller message; so no update is larger than the full state.
   */
  lemma DeltasAreSentExactlyWhenSmaller(h: Encoding, past: History, v: ServerView, viewer: PlayerId, baseline: Option<Snapshot>)
    requires EventsOk(v, past)
    ensures var m, full := ProjectUpdate(h, v, viewer, baseline), Full(ProjectSnapshot(h, v, viewer));
            && (m == full || m.Partial?)
            && (m.Partial? <==> baseline.Some? && CanPatch(v, baseline.value)
                                && h.bytes(TheDelta(h, v, viewer, baseline.value)) < h.bytes(full))
            && (m.Partial? ==> m == TheDelta(h, v, viewer, baseline.value))
            && h.bytes(m) <= h.bytes(full)
  {
    if baseline.Some? {
      EventsAfterAreTheMissing(v, viewer, baseline.value.lastEventSequence, past);
    }
  }

  // ---------------------------------------------------------------- secrets

  function SelfOf(m: Message): Option<PrivateSnapshot> {
    match m
    case Full(s) => s.self
    case Partial(d) => d.self
  }

  /** Does the message say where garbage queued for somebody else will open? */
  predicate TellsAnothersHole(m: Message, viewer: PlayerId) {
    m.Partial? && exists e :: e in m.delta.events && e.GarbageQueued? && e.target != viewer && e.hole.Some?
  }

  predicate KeepsSecrets(v: ServerView, viewer: PlayerId, m: Message) {
    && SelfOf(m) == (if viewer in v.privates then Some(v.privates[viewer]) else None)
    && !TellsAnothersHole(m, viewer)
  }

  /**
   Every update, in either form, carries the private state of its viewer and of nobody else, none for a spectator, and
   never the hole of garbage that is on its way to another player.
   */
  lemma UpdatesKeepSecrets(h: Encoding, past: History, v: ServerView, viewer: PlayerId, baseline: Option<Snapshot>)
    requires EventsOk(v, past)
    ensures KeepsSecrets(v, viewer, ProjectUpdate(h, v, viewer, baseline))
  {
    if baseline.Some? {
      EventsAfterAreTheMissing(v, viewer, baseline.value.lastEventSequence, past);
    }
  }

  function PublicHashOf(m: Message): int {
    match m
    case Full(s) => s.publicHash
    case Partial(d) => d.publicHash
  }

  function SelfHashOf(m: Message): Option<int> {
    match m
    case Full(s) => s.selfHash
    case Partial(d) => d.selfHash
  }

  /** Every update, in either form, carries the hashes of the server's present state: the public one, and the viewer's own. */
  lemma UpdatesCarryThePresentHashes(h: Encoding, v: ServerView, viewer: PlayerId, baseline: Option<Snapshot>)
    ensures var m := ProjectUpdate(h, v, viewer, baseline);
            && PublicHashOf(m) == h.publicHash(v.players)
            && SelfHashOf(m) == if viewer in v.privates then Some(h.selfHash(v.serverFrame, viewer, v.privates[viewer])) else None
  {
  }

  // ---------------------------------------------------------------- resync requests

  /** The delta was made from the very state that is held, and brings it up to date. */
  predicate FitsTheHeld(held: Snapshot, d: Delta) {
    && d.matchId == held.matchId && d.baseStateSequence == held.stateSequence && d.basePublicHash == held.publicHash
    && d.lastEventSequence == held.lastEventSequence + |d.events|
    && (forall i | 0 <= i < |d.events| :: d.events[i].eventSequence == held.lastEventSequence + 1 + i)
    && ApplyPlayerPatches(held.players, d.patches).Ok?
  }

  /** Is the delta of the client's match, newer than what it holds, and yet of no use to it? */
  predicate IsUseless(r: Receiver, d: Delta) {
    && r.matchId == Some(d.matchId)
    && (r.snapshot.Some? ==> d.stateSequence > r.snapshot.value.stateSequence && !FitsTheHeld(r.snapshot.value, d))
  }

  /**
   Resync requests: the client asks for a full state exactly when a delta of its match that is newer than what it holds does
   not fit, and it has not asked already. It names the state and the events it has reached, or zero if it holds nothing, and
   asks no more until a message it takes closes the request.
   */
  lemma ResyncsAreAskedOnce(r: Receiver, d: Delta)
    ensures var (next, received) := Receive(r, Partial(d));
            && (received.resync.Some? <==> IsUseless(r, d) && !r.resyncRequested)
            && (received.resync.Some? ==>
                received.resync.value == match r.snapshot
                                         case None => ResyncRequest(d.matchId, 0, 0)
                                         case Some(s) => ResyncRequest(d.matchId, s.stateSequence, s.lastEventSequence))
            && (next.resyncRequested <==>
                IsUseless(r, d) || (r.resyncRequested && received.snapshot.None?))
  {
  }

  /** A message that comes again right after itself, taken or not, changes nothing, is not reported, and asks for nothing. */
  lemma RepeatsChangeNothing(r: Receiver, m: Message)
    ensures var next := Receive(r, m).0; Receive(next, m) == (next, Received(None, None))
  {
    hide ContiguousEvents, ApplyPlayerPatches;
  }
}

/** Patches between two public match states: creating one and applying it gives the later state back. */
module StateDelta {
  import opened Wrappers
  import opened Pieces

  type PlayerId = nat

  datatype PublicPacket = PublicPacket(packetId: string, source: PlayerId, amount: int, appliesAtFrame: int)

  datatype PlayerSnapshot = PlayerSnapshot(
    playerId: PlayerId,
    boardRows: seq<int>,
    garbageRows: seq<bool>,
    active: Option<Piece>,
    hold: Option<Kind>,
    next: seq<Kind>,
    combo: int,
    backToBack: int,
    piecesPlaced: int,
    totalAttackSent: int,
    pendingGarbage: seq<PublicPacket>,
    toppedOut: bool)

  datatype RowChange = RowChange(y: int, bits: int, garbage: bool)

  /** The fields that changed; an absent field keeps its value. */
  datatype PlayerPatch = PlayerPatch(
    playerId: PlayerId,
    changedRows: Option<seq<RowChange>>,
    active: Option<Option<Piece>>,
    hold: Option<Option<Kind>>,
    next: Option<seq<Kind>>,
    combo: Option<int>,
    backToBack: Option<int>,
    piecesPlaced: Option<int>,
    totalAttackSent: Option<int>,
    pendingGarbage: Option<seq<PublicPacket>>,
    toppedOut: Option<bool>)

  datatype PatchError = InvalidRow | InvalidPlayer

  // ---------------------------------------------------------------- creating

  function Changed<T(==)>(before: T, after: T): Option<T> { if before == after then None else Some(after) }

  function GarbageAt(p: PlayerSnapshot, y: nat): Option<bool> {
    if y < |p.garbageRows| then Some(p.garbageRows[y]) else None
  }

  predicate RowDiffers(before: PlayerSnapshot, after: PlayerSnapshot, y: nat)
    requires y < |before.boardRows| && y < |after.boardRows|
  {
    before.boardRows[y] != after.boardRows[y] || GarbageAt(before, y) != GarbageAt(after, y)
  }

  /** The rows below `n` that differ, bottom up. */
  function ChangedRows(before: PlayerSnapshot, after: PlayerSnapshot, n: nat): seq<RowChange>
    requires n <= |before.boardRows| == |after.boardRows|
  {
    if n == 0 then []
    else if RowDiffers(before, after, n - 1) then
      ChangedRows(before, after, n - 1) + [RowChange(n - 1, after.boardRows[n - 1], GarbageAt(after, n - 1).GetOr(false))]
    else ChangedRows(before, after, n - 1)
  }

  function FieldPatch(before: PlayerSnapshot, after: PlayerSnapshot): PlayerPatch
    requires |before.boardRows| == |after.boardRows|
  {
    var rows := ChangedRows(before, after, |after.boardRows|);
    PlayerPatch(
      after.playerId,
      if rows == [] then None else Some(rows),
      Changed(before.active, after.active),
      Changed(before.hold, after.hold),
      Changed(before.next, after.next),
      Changed(before.combo, after.combo),
      Changed(before.backToBack, after.backToBack),
      Changed(before.piecesPlaced, after.piecesPlaced),
      Changed(before.totalAttackSent, after.totalAttackSent),
      Changed(before.pendingGarbage, after.pendingGarbage),
      Changed(before.toppedOut, after.toppedOut))
  }

  function EmptyPatch(id: PlayerId): PlayerPatch {
    PlayerPatch(id, None, None, None, None, None, None, None, None, None, None)
  }

  /** `None` for an unchanged player, and for two players that cannot be compared row by row. */
  function PatchPlayer(before: PlayerSnapshot, after: PlayerSnapshot): Option<PlayerPatch> {
    if before.playerId != after.playerId
       || |before.boardRows| != |after.boardRows|
       || |before.garbageRows| != |after.garbageRows| then None
    else
      var patch := FieldPatch(before, after);
      if patch == EmptyPatch(after.playerId) then None else Some(patch)
  }

  predicate SameRoster(before: seq<PlayerSnapshot>, after: seq<PlayerSnapshot>) {
    |before| == |after| && forall i | 0 <= i < |before| :: before[i].playerId == after[i].playerId
  }

  function PatchAll(before: seq<PlayerSnapshot>, after: seq<PlayerSnapshot>, n: nat): seq<PlayerPatch>
    requires n <= |before| == |after|
  {
    if n == 0 then []
    else match PatchPlayer(before[n - 1], after[n - 1])
      case None => PatchAll(before, after, n - 1)
      case Some(patch) => PatchAll(before, after, n - 1) + [patch]
  }

  function CreatePlayerPatches(before: seq<PlayerSnapshot>, after: seq<PlayerSnapshot>): Option<seq<PlayerPatch>> {
    if SameRoster(before, after) then Some(PatchAll(before, after, |after|)) else None
  }

  // ---------------------------------------------------------------- applying

  datatype Rows = Rows(bits: seq<int>, garbage: seq<bool>)

  /** Writing a garbage flag beyond the end of the flags extends them, as an array assignment does. */
  function SetFlag(flags: seq<bool>, y: nat, flag: bool): seq<bool> {
    if y < |flags| then flags[y := flag] else flags + seq(y - |flags|, _ => false) + [flag]
  }

  function WriteRows(rows: Rows, changes: seq<RowChange>): Result<Rows, PatchError>
    decreases |changes|
  {
    if changes == [] then Ok(rows)
    else match WriteRows(rows, changes[..|changes| - 1])
      case Err(e) => Err(e)
      case Ok(r) =>
        var c := changes[|changes| - 1];
        if c.y < 0 || c.y >= |rows.bits| || c.y >= |r.bits| then Err(InvalidRow)
        else Ok(Rows(r.bits[c.y := c.bits], SetFlag(r.garbage, c.y, c.garbage)))
  }

  /** The row loop over copied arrays. */
  method WriteRowsByLoop(before: Rows, changes: seq<RowChange>) returns (r: Result<Rows, PatchError>)
    ensures r == WriteRows(before, changes)
  {
    var bits, garbage := before.bits, before.garbage;
    for k := 0 to |changes|
      invariant WriteRows(before, changes[..k]) == Ok(Rows(bits, garbage)) && |bits| == |before.bits|
    {
      var row := changes[k];
      assert changes[..k + 1][..k] == changes[..k];
      if row.y < 0 || row.y >= |before.bits| {
        WritingStopsAtTheFirstError(before, changes, k + 1);
        return Err(InvalidRow);
      }
      bits := bits[row.y := row.bits];
      garbage := SetFlag(garbage, row.y, row.garbage);
    }
    assert changes[..|changes|] == changes;
    return Ok(Rows(bits, garbage));
  }

  lemma {:induction false} WritingStopsAtTheFirstError(rows: Rows, changes: seq<RowChange>, k: nat)
    requires k <= |changes| && WriteRows(rows, changes[..k]) == Err(InvalidRow)
    ensures WriteRows(rows, changes) == Err(InvalidRow)
    decreases |changes| - k
  {
    if k == |changes| {
      assert changes[..k] == changes;
    } else {
      assert changes[..k + 1][..k] == changes[..k];
      WritingStopsAtTheFirstError(rows, changes, k + 1);
    }
  }

  function ApplyPatch(before: PlayerSnapshot, patch: PlayerPatch): Result<PlayerSnapshot, PatchError> {
    match WriteRows(Rows(before.boardRows, before.garbageRows), patch.changedRows.GetOr([]))
    case Err(e) => Err(e)
    case Ok(rows) =>
      Ok(PlayerSnapshot(
           before.playerId, rows.bits, rows.garbage, patch.active.GetOr(before.active), patch.hold.GetOr(before.hold),
           patch.next.GetOr(before.next), patch.combo.GetOr(before.combo), patch.backToBack.GetOr(before.backToBack),
           patch.piecesPlaced.GetOr(before.piecesPlaced), patch.totalAttackSent.GetOr(before.totalAttackSent),
           patch.pendingGarbage.GetOr(before.pendingGarbage), patch.toppedOut.GetOr(before.toppedOut)))
  }

  function Find(patches: seq<PlayerPatch>, id: PlayerId): Option<PlayerPatch> {
    if patches == [] then None
    else if patches[|patches| - 1].playerId == id then Some(patches[|patches| - 1])
    else Find(patches[..|patches| - 1], id)
  }

  predicate DistinctPatches(patches: seq<PlayerPatch>) {
    forall i, j | 0 <= i < j < |patches| :: patches[i].playerId != patches[j].playerId
  }

  predicate HasPlayer(players: seq<PlayerSnapshot>, id: PlayerId) {
    exists i :: 0 <= i < |players| && players[i].playerId == id
  }

  predicate PatchesFit(players: seq<PlayerSnapshot>, patches: seq<PlayerPatch>) {
    DistinctPatches(patches) && forall k | 0 <= k < |patches| :: HasPlayer(players, patches[k].playerId)
  }

  function ApplyTo(players: seq<PlayerSnapshot>, patches: seq<PlayerPatch>): Result<seq<PlayerSnapshot>, PatchError> {
    if players == [] then Ok([])
    else
      var m := |players| - 1;
      match ApplyTo(players[..m], patches)
      case Err(e) => Err(e)
      case Ok(front) =>
        match Find(patches, players[m].playerId)
        case None => Ok(front + [players[m]])
        case Some(patch) =>
          match ApplyPatch(players[m], patch)
          case Err(e) => Err(e)
          case Ok(p) => Ok(front + [p])
  }

  function ApplyPlayerPatches(players: seq<PlayerSnapshot>, patches: seq<PlayerPatch>): Result<seq<PlayerSnapshot>, PatchError> {
    if PatchesFit(players, patches) then ApplyTo(players, patches) else Err(InvalidPlayer)
  }

  // ---------------------------------------------------------------- the round trip

  /** Every row of a snapshot has its garbage flag. */
  predicate Aligned(p: PlayerSnapshot) { |p.boardRows| == |p.garbageRows| }

  predicate DistinctPlayers(players: seq<PlayerSnapshot>) {
    forall i, j | 0 <= i < j < |players| :: players[i].playerId != players[j].playerId
  }

  /** The later rows below `n`, the earlier ones from there on. */
  function Spliced<T>(after: seq<T>, before: seq<T>, n: nat): seq<T>
    requires n <= |before| == |after|
  {
    after[..n] + before[n..]
  }

  lemma SpliceOneMore<T>(after: seq<T>, before: seq<T>, n: nat)
    requires n < |before| == |after|
    ensures Spliced(after, before, n + 1) == Spliced(after, before, n)[n := after[n]]
    ensures after[n] == before[n] ==> Spliced(after, before, n + 1) == Spliced(after, before, n)
  {
  }

  lemma SpliceEnds<T>(after: seq<T>, before: seq<T>)
    requires |before| == |after|
    ensures Spliced(after, before, 0) == before && Spliced(after, before, |after|) == after
  {
  }

  lemma {:induction false} RowsRoundTrip(before: PlayerSnapshot, after: PlayerSnapshot, n: nat)
    requires Aligned(before) && Aligned(after) && n <= |before.boardRows| == |after.boardRows|
    ensures WriteRows(Rows(before.boardRows, before.garbageRows), ChangedRows(before, after, n))
         == Ok(Rows(Spliced(after.boardRows, before.boardRows, n), Spliced(after.garbageRows, before.garbageRows, n)))
    decreases n
  {
    hide Spliced;
    if n == 0 {
      SpliceEnds(after.boardRows, before.boardRows);
      SpliceEnds(after.garbageRows, before.garbageRows);
    } else {
      var changes := ChangedRows(before, after, n);
      RowsRoundTrip(before, after, n - 1);
      SpliceOneMore(after.boardRows, before.boardRows, n - 1);
      SpliceOneMore(after.garbageRows, before.garbageRows, n - 1);
      SplicedHas(after.boardRows, before.boardRows, n - 1);
      SplicedHas(after.garbageRows, before.garbageRows, n - 1);
      if RowDiffers(before, after, n - 1) {
        assert changes[..|changes| - 1] == ChangedRows(before, after, n - 1);
      }
    }
  }

  lemma SplicedHas<T>(after: seq<T>, before: seq<T>, n: nat)
    requires n <= |before| == |after|
    ensures |Spliced(after, before, n)| == |after|
  {
  }

  lemma PlayerRoundTrip(before: PlayerSnapshot, after: PlayerSnapshot)
    requires Aligned(before) && Aligned(after) && before.playerId == after.playerId
    requires |before.boardRows| == |after.boardRows|
    ensures match PatchPlayer(before, after)
            case None => before == after
            case Some(patch) => patch.playerId == after.playerId && ApplyPatch(before, patch) == Ok(after)
  {
    hide Spliced;
    var n := |after.boardRows|;
    RowsRoundTrip(before, after, n);
    SpliceEnds(after.boardRows, before.boardRows);
    SpliceEnds(after.garbageRows, before.garbageRows);
  }

  lemma {:induction false} PatchesCome(before: seq<PlayerSnapshot>, after: seq<PlayerSnapshot>, n: nat, patch: PlayerPatch)
    requires SameRoster(before, after) && n <= |after| && patch in PatchAll(before, after, n)
    ensures exists i :: 0 <= i < n && PatchPlayer(before[i], after[i]) == Some(patch) && patch.playerId == after[i].playerId
    decreases n
  {
    if PatchPlayer(before[n - 1], after[n - 1]) != Some(patch) {
      PatchesCome(before, after, n - 1, patch);
    }
  }

  lemma {:induction false} PatchesAreDistinct(before: seq<PlayerSnapshot>, after: seq<PlayerSnapshot>, n: nat)
    requires SameRoster(before, after) && DistinctPlayers(after) && n <= |after|
    ensures PatchesFit(before, PatchAll(before, after, n))
    decreases n
  {
    if n > 0 {
      PatchesAreDistinct(before, after, n - 1);
      var front, all := PatchAll(before, after, n - 1), PatchAll(before, after, n);
      forall k | 0 <= k < |front| ensures front[k].playerId != after[n - 1].playerId {
        PatchesCome(before, after, n - 1, front[k]);
      }
      forall k | 0 <= k < |all| ensures HasPlayer(before, all[k].playerId) {
        if k < |front| {
          assert all[k] == front[k];
        } else {
          assert all[k].playerId == before[n - 1].playerId;
        }
      }
    }
  }

  lemma {:induction false} FindMissing(before: seq<PlayerSnapshot>, after: seq<PlayerSnapshot>, n: nat, i: nat)
    requires SameRoster(before, after) && DistinctPlayers(after) && n <= |after| && i < |after|
    ensures Find(PatchAll(before, after, n), after[i].playerId)
         == if i < n then PatchPlayer(before[i], after[i]) else None
    decreases n
  {
    if n > 0 {
      FindMissing(before, after, n - 1, i);
      var front, all := PatchAll(before, after, n - 1), PatchAll(before, after, n);
      if PatchPlayer(before[n - 1], after[n - 1]).Some? {
        assert all[..|all| - 1] == front;
        assert i != n - 1 ==> after[i].playerId != after[n - 1].playerId;
      }
    }
  }

  /** The players each either carry over or follow their patch. */
  lemma {:induction false} ApplyingPiecewise(before: seq<PlayerSnapshot>, patches: seq<PlayerPatch>, after: seq<PlayerSnapshot>)
    requires |before| == |after|
    requires forall i | 0 <= i < |before| ::
               match Find(patches, before[i].playerId)
               case None => before[i] == after[i]
               case Some(patch) => ApplyPatch(before[i], patch) == Ok(after[i])
    ensures ApplyTo(before, patches) == Ok(after)
    decreases |before|
  {
    if before != [] {
      var m := |before| - 1;
      ApplyingPiecewise(before[..m], patches, after[..m]);
      assert after[..m] + [after[m]] == after;
    }
  }

  predicate SameHeights(before: seq<PlayerSnapshot>, after: seq<PlayerSnapshot>) {
    |before| == |after| && forall i | 0 <= i < |before| :: |before[i].boardRows| == |after[i].boardRows|
  }

  lemma RoundTripHolds(before: seq<PlayerSnapshot>, after: seq<PlayerSnapshot>)
    requires SameRoster(before, after) && DistinctPlayers(after) && SameHeights(before, after)
    requires forall i | 0 <= i < |before| :: Aligned(before[i]) && Aligned(after[i])
    ensures ApplyPlayerPatches(before, PatchAll(before, after, |after|)) == Ok(after)
  {
    PatchesAreDistinct(before, after, |after|);
    var patches := PatchAll(before, after, |after|);
    forall i | 0 <= i < |before|
      ensures match Find(patches, before[i].playerId)
              case None => before[i] == after[i]
              case Some(patch) => ApplyPatch(before[i], patch) == Ok(after[i])
    {
      FindMissing(before, after, |after|, i);
      PlayerRoundTrip(before[i], after[i]);
    }
    ApplyingPiecewise(before, patches, after);
  }

  lemma {:induction false} ApplyingKeepsHeights(before: seq<PlayerSnapshot>, patches: seq<PlayerPatch>)
    requires ApplyTo(before, patches).Ok?
    ensures SameHeights(before, ApplyTo(before, patches).value)
    decreases |before|
  {
    if before != [] {
      var m := |before| - 1;
      ApplyingKeepsHeights(before[..m], patches);
      if Find(patches, before[m].playerId).Some? {
        WritingKeepsHeight(Rows(before[m].boardRows, before[m].garbageRows),
                           Find(patches, before[m].playerId).value.changedRows.GetOr([]));
      }
    }
  }

  lemma {:induction false} WritingKeepsHeight(rows: Rows, changes: seq<RowChange>)
    requires WriteRows(rows, changes).Ok?
    ensures |WriteRows(rows, changes).value.bits| == |rows.bits|
    decreases |changes|
  {
    if changes != [] {
      WritingKeepsHeight(rows, changes[..|changes| - 1]);
    }
  }

  /**
   The patch round trip: between two states of distinct players with a garbage flag for every row, whenever
   patches exist at all, applying them gives the later state exactly, if and only if no board changed height.
   A player whose board changed height is silently carried over unchanged.
   */
  lemma PatchesRoundTrip(before: seq<PlayerSnapshot>, after: seq<PlayerSnapshot>)
    requires CreatePlayerPatches(before, after).Some? && DistinctPlayers(after)
    requires forall i | 0 <= i < |before| :: Aligned(before[i]) && Aligned(after[i])
    ensures ApplyPlayerPatches(before, CreatePlayerPatches(before, after).value) == Ok(after) <==> SameHeights(before, after)
  {
    if SameHeights(before, after) {
      RoundTripHolds(before, after);
    } else if ApplyPlayerPatches(before, CreatePlayerPatches(before, after).value) == Ok(after) {
      ApplyingKeepsHeights(before, CreatePlayerPatches(before, after).value);
    }
  }

  /** A player whose board grew by an empty row: no patch says so, and the old state is carried over. */
  lemma GrownBoardsAreCarriedOver(p: PlayerSnapshot)
    requires Aligned(p)
    ensures var grown := p.(boardRows := p.boardRows + [0], garbageRows := p.garbageRows + [false]);
            && Aligned(grown) && CreatePlayerPatches([p], [grown]) == Some([])
            && ApplyPlayerPatches([p], []) == Ok([p]) && [p] != [grown]
  {
    var grown := p.(boardRows := p.boardRows + [0], garbageRows := p.garbageRows + [false]);
    assert PatchAll([p], [grown], 0) == [] && PatchPlayer(p, grown) == None;
    PatchesRoundTrip([p], [p]);
    assert PatchAll([p], [p], 0) == [] && PatchAll([p], [p], 1) == [] by { UnchangedNeedNoPatch(p); }
    assert |grown.boardRows| != |p.boardRows|;
  }

  lemma {:induction false} NoRowsChanged(p: PlayerSnapshot, n: nat)
    requires n <= |p.boardRows|
    ensures ChangedRows(p, p, n) == []
    decreases n
  {
    if n > 0 {
      NoRowsChanged(p, n - 1);
    }
  }

  lemma UnchangedNeedNoPatch(p: PlayerSnapshot)
    ensures PatchPlayer(p, p) == None
  {
    NoRowsChanged(p, |p.boardRows|);
  }
}

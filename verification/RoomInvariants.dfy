/**
 The run-time invariant that every commit asserts, stated declaratively, and the
 assertion procedure itself with its member loop.
 */
module RoomInvariants {
  import opened Wrappers
  import opened RoomModel

  predicate IdentityOk(v: Syntax, s: RoomState) {
    && v.safeId(s.roomId)
    && v.roomCode(s.roomCode)
    && 1 <= s.revision <= MAX_SAFE
    && s.revision <= s.presenceSequence <= MAX_SAFE
  }

  predicate TimestampsOk(s: RoomState) {
    && IsSafeTime(s.createdAtMs)
    && IsSafeTime(s.updatedAtMs)
    && IsSafeTime(s.expiresAtMs)
    && IsSafeTime(s.absoluteExpiresAtMs)
    && s.createdAtMs <= s.updatedAtMs
    && s.createdAtMs <= s.absoluteExpiresAtMs
  }

  predicate MemberOk(v: Syntax, id: Id, m: Member) {
    && id == m.player.playerId
    && IsValidPlayer(v, m.player)
    && 1 <= m.joinedOrdinal <= MAX_SAFE
    && 0 <= m.connection.epoch <= MAX_SAFE
    && match m.connection
       case Connected(connectionId, _) => v.safeId(connectionId)
       case Disconnected(_, deadline, _) => IsSafeTime(deadline)
  }

  predicate SameConnection(m: Member, n: Member) {
    && m.connection.Connected? && n.connection.Connected?
    && m.connection.connectionId == n.connection.connectionId
  }

  predicate Clash(m: Member, n: Member) {
    m.joinedOrdinal == n.joinedOrdinal || SameConnection(m, n)
  }

  predicate MembersOk(v: Syntax, members: Members) {
    && (forall id {:trigger MemberOk(v, id, members[id])} | id in members :: MemberOk(v, id, members[id]))
    && (forall id, other {:trigger Clash(members[id], members[other])} | id in members && other in members :: id != other ==> !Clash(members[id], members[other]))
  }

  predicate SeatsOk(s: RoomState) {
    && (s.seats.first.Some? ==> s.seats.first.value in s.members)
    && (s.seats.second.Some? ==> s.seats.second.value in s.members)
    && (s.seats.first.Some? ==> s.seats.first != s.seats.second)
  }

  predicate HostOk(s: RoomState) {
    && (s.host.Some? ==> s.host.value in s.members)
    && (AnyConnected(s.members) && !s.phase.Closed? ==> s.host.Some?)
  }

  predicate ReadySeatOk(s: RoomState, seat: Seat) {
    s.ready.At(seat) ==> s.seats.At(seat).Some? && IsConnected(s.members, s.seats.At(seat).value)
  }

  predicate DeniedOk(v: Syntax, s: RoomState) {
    && |s.denied| <= MAX_DENIED_PLAYER_IDS
    && (forall i, j | 0 <= i < j < |s.denied| :: s.denied[i] != s.denied[j])
    && (forall i | 0 <= i < |s.denied| :: v.safeId(s.denied[i]) && s.denied[i] !in s.members)
  }

  predicate SeriesOk(series: Series) {
    && series.roster.first != series.roster.second
    && IsTargetWins(series.targetWins)
    && 0 <= series.wins.first <= MAX_SAFE
    && 0 <= series.wins.second <= MAX_SAFE
    && series.wins.first + series.wins.second <= series.gamesPlayed <= MAX_SAFE
    && (series.completed <==>
        series.wins.first >= series.targetWins || series.wins.second >= series.targetWins)
    && (series.completed <==> series.winnerPlayerId.Some?)
    && (series.winnerPlayerId.Some? ==>
        series.winnerPlayerId.value == series.roster.first || series.winnerPlayerId.value == series.roster.second)
  }

  predicate ShapeOk(s: RoomState) {
    match s.phase
    case Lobby =>
      s.rulesStatus.Draft? && s.countdown.None? && s.series.None? && s.activeMatch.None?
    case Countdown =>
      && s.rulesStatus.Locked? && s.countdown.Some? && s.series.Some? && s.activeMatch.None?
      && s.ready == Pair(true, true)
      && s.seats == Pair(Some(s.series.value.roster.first), Some(s.series.value.roster.second))
    case Playing =>
      && s.rulesStatus.Locked? && s.countdown.None? && s.series.Some? && s.activeMatch.Some?
      && s.ready == Pair(false, false)
      && s.activeMatch.value.participants == s.series.value.roster
    case BetweenGames =>
      && s.rulesStatus.Locked? && s.countdown.None? && s.series.Some? && !s.series.value.completed
      && s.activeMatch.None?
    case SeriesComplete =>
      && s.rulesStatus.Draft? && s.countdown.None? && s.series.Some? && s.series.value.completed
      && s.activeMatch.None? && s.ready == Pair(false, false)
    case Closed =>
      && s.members == map[] && s.host.None? && s.seats == Pair(None, None)
      && s.countdown.None? && s.series.None? && s.activeMatch.None? && s.closedReason.Some?
  }

  /** What the reducer asserts at the end of every commit. */
  predicate RoomInvariant(v: Syntax, s: RoomState) {
    && IdentityOk(v, s)
    && TimestampsOk(s)
    && MembersOk(v, s.members)
    && SeatsOk(s)
    && HostOk(s)
    && ReadySeatOk(s, First) && ReadySeatOk(s, Second)
    && IsTargetWins(s.settings.targetWins)
    && DeniedOk(v, s)
    && (s.series.Some? ==> SeriesOk(s.series.value))
    && ShapeOk(s)
  }

  /** The members in `seen` are well formed, do not clash, and have exactly these ordinals and connection ids. */
  ghost predicate Scanned(v: Syntax, members: Members, seen: set<Id>, ordinals: set<int>, connectionIds: set<Id>) {
    && seen <= members.Keys
    && MembersOk(v, map id | id in seen :: members[id])
    && (forall n :: n in ordinals <==> exists id | id in seen :: members[id].joinedOrdinal == n)
    && (forall c :: c in connectionIds <==>
        exists id | id in seen :: members[id].connection.Connected? && members[id].connection.connectionId == c)
  }

  /** A new member clashes with a scanned one exactly when its ordinal or live connection id was recorded. */
  lemma ScanDetectsClash(v: Syntax, members: Members, seen: set<Id>, ordinals: set<int>, connectionIds: set<Id>, id: Id)
    requires Scanned(v, members, seen, ordinals, connectionIds)
    requires id in members && id !in seen
    ensures (exists other | other in seen :: Clash(members[id], members[other])) <==>
            members[id].joinedOrdinal in ordinals ||
            (members[id].connection.Connected? && members[id].connection.connectionId in connectionIds)
  {
  }

  lemma ScanExtends(v: Syntax, members: Members, seen: set<Id>, id: Id)
    requires id in members && seen <= members.Keys && id !in seen
    requires MembersOk(v, map i | i in seen :: members[i])
    requires MemberOk(v, id, members[id])
    requires forall other | other in seen :: !Clash(members[id], members[other])
    ensures MembersOk(v, map i | i in seen + {id} :: members[i])
  {
    var before := map i | i in seen :: members[i];
    var after := map i | i in seen + {id} :: members[i];
    forall i, j | i in after && j in after && i != j
      ensures !Clash(after[i], after[j])
    {
      if i != id && j != id {
        assert i in before && j in before;
        assert !Clash(before[i], before[j]);
      } else if i == id {
        assert !Clash(members[id], members[j]);
      } else {
        assert !Clash(members[id], members[i]);
      }
    }
    forall i | i in after
      ensures MemberOk(v, i, after[i])
    {
      if i != id {
        assert MemberOk(v, i, before[i]);
      }
    }
  }

  /**
   The member loop of the assertion: one pass that remembers the ordinals and the
   connection ids seen so far. It finds a fault exactly when two members clash or a
   member is malformed, in whatever order the members are visited.
   */
  method AssertMembers(v: Syntax, members: Members) returns (ok: bool)
    ensures ok <==> MembersOk(v, members)
  {
    var pending := members.Keys;
    var ordinals: set<int> := {};
    var connectionIds: set<Id> := {};
    ghost var seen: set<Id> := {};
    while pending != {}
      invariant pending !! seen && pending + seen == members.Keys
      invariant Scanned(v, members, seen, ordinals, connectionIds)
      decreases pending
    {
      var id :| id in pending;
      var member := members[id];
      ScanDetectsClash(v, members, seen, ordinals, connectionIds, id);
      if !MemberOk(v, id, member) || member.joinedOrdinal in ordinals {
        return false;
      }
      if member.connection.Connected? {
        if member.connection.connectionId in connectionIds {
          return false;
        }
        connectionIds := connectionIds + {member.connection.connectionId};
      }
      ScanExtends(v, members, seen, id);
      ordinals := ordinals + {member.joinedOrdinal};
      pending, seen := pending - {id}, seen + {id};
    }
    assert (map id | id in seen :: members[id]) == members;
    return true;
  }

  /** The whole assertion. */
  method AssertRoomInvariants(v: Syntax, s: RoomState) returns (ok: bool)
    ensures ok <==> RoomInvariant(v, s)
  {
    if !IdentityOk(v, s) || !TimestampsOk(s) {
      return false;
    }
    var membersOk := AssertMembers(v, s.members);
    if !membersOk {
      return false;
    }
    if !SeatsOk(s) || !HostOk(s) || !ReadySeatOk(s, First) || !ReadySeatOk(s, Second) {
      return false;
    }
    if !IsTargetWins(s.settings.targetWins) || !DeniedOk(v, s) {
      return false;
    }
    if s.series.Some? && !SeriesOk(s.series.value) {
      return false;
    }
    return ShapeOk(s);
  }
}

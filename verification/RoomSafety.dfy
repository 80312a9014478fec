/**
 No commit ever trips the reducer's own assertion, apart from one join the reducer lets through.
 The asserted invariant is not inductive; `Strong` strengthens it until it is.
 */
module RoomSafety {
  import opened Wrappers
  import opened RoomModel
  import opened RoomInvariants
  import opened RoomReducer

  // ---------------------------------------------------------------- the inductive invariant

  predicate InSeries(p: Phase) { p.Countdown? || p.Playing? || p.BetweenGames? || p.SeriesComplete? }

  predicate SeatsHoldRoster(s: RoomState) {
    InSeries(s.phase) ==>
      s.series.Some? && s.seats == Pair(Some(s.series.value.roster.first), Some(s.series.value.roster.second))
  }

  predicate NeverBothReady(s: RoomState) {
    s.phase.Lobby? || s.phase.BetweenGames? ==> s.ready != Pair(true, true)
  }

  predicate SeriesStillOpen(s: RoomState) {
    (s.phase.Countdown? || s.phase.Playing?) && s.series.Some? ==> !s.series.value.completed
  }

  predicate OrdinalsBelow(members: Members, next: int) {
    1 <= next && forall id | id in members :: members[id].joinedOrdinal < next
  }

  /** The phase, its shape and its readiness: the conjuncts that involve no quantifier. */
  predicate PhaseOk(s: RoomState) {
    && SeatsOk(s)
    && ReadySeatOk(s, First) && ReadySeatOk(s, Second)
    && IsTargetWins(s.settings.targetWins)
    && (s.series.Some? ==> SeriesOk(s.series.value))
    && ShapeOk(s)
    && SeatsHoldRoster(s)
    && NeverBothReady(s)
    && SeriesStillOpen(s)
  }

  /** The members, their host and the denylist. */
  predicate CrowdOk(v: Syntax, s: RoomState) {
    && MembersOk(v, s.members)
    && OrdinalsBelow(s.members, s.nextJoinedOrdinal)
    && HostOk(s)
    && DeniedOk(v, s)
  }

  predicate Strong(v: Syntax, s: RoomState) {
    IdentityOk(v, s) && TimestampsOk(s) && PhaseOk(s) && CrowdOk(v, s)
  }

  /** Counters have room for one more step, and deadlines computed from this command stay safe integers. */
  predicate Headroom(s: RoomState, atMs: int, policy: Policy) {
    && s.presenceSequence < MAX_SAFE
    && s.nextJoinedOrdinal <= MAX_SAFE
    && (forall id | id in s.members :: s.members[id].connection.epoch < MAX_SAFE)
    && (s.series.Some? ==> s.series.value.gamesPlayed < MAX_SAFE)
    && atMs + policy.matchReconnectGraceMs <= MAX_SAFE
    && atMs + policy.lobbyReconnectGraceMs <= MAX_SAFE
  }

  /** The facts about one command that its safety proof may use. */
  predicate Admissible(s: RoomState, atMs: int, policy: Policy) {
    && Strong(policy.syntax, s) && Headroom(s, atMs, policy)
    && IsSafeTime(atMs) && IsValidPolicy(policy)
  }

  predicate SameIdentity(s: RoomState, t: RoomState) {
    && s.roomId == t.roomId && s.roomCode == t.roomCode
    && s.createdAtMs == t.createdAtMs && s.absoluteExpiresAtMs == t.absoluteExpiresAtMs
  }

  lemma RevisionKeepsIdentity(s: RoomState, atMs: int, proposed: RoomState, policy: Policy, control: bool)
    requires IdentityOk(policy.syntax, s) && TimestampsOk(s) && SameIdentity(s, proposed)
    requires s.presenceSequence < MAX_SAFE && IsSafeTime(atMs) && IsValidPolicy(policy)
    ensures IdentityOk(policy.syntax, Revised(s, proposed, atMs, policy, control))
    ensures TimestampsOk(Revised(s, proposed, atMs, policy, control))
  {
  }

  /** A decision whose commit passes the reducer's assertion and keeps the strengthened invariant. */
  predicate Sound(v: Syntax, s: RoomState, d: Decision) {
    !d.Fail? && (d.Propose? ==> SameIdentity(s, d.next) && PhaseOk(d.next) && CrowdOk(v, d.next))
  }

  lemma SoundCommits(s: RoomState, atMs: int, d: Decision, policy: Policy)
    requires Admissible(s, atMs, policy) && d.Propose? && Sound(policy.syntax, s, d)
    ensures var t := Commit(s, d.next, atMs, d.effects, policy, d.controlRevision);
            t.Committed? && Strong(policy.syntax, t.state)
  {
    RevisionKeepsIdentity(s, atMs, d.next, policy, d.controlRevision);
    var revised := Revised(s, d.next, atMs, policy, d.controlRevision);
    assert PhaseOk(revised) by {
      assert ReadySeatOk(d.next, First) && ReadySeatOk(d.next, Second);
    }
    assert DeniedOk(policy.syntax, revised) by {
      assert DeniedOk(policy.syntax, d.next);
    }
  }

  // ---------------------------------------------------------------- member maps

  lemma MembersUpdated(v: Syntax, members: Members, id: Id, connection: Connection)
    requires MembersOk(v, members) && id in members
    requires MemberOk(v, id, members[id].(connection := connection))
    requires connection.Connected? ==>
      forall other | other in members && other != id ::
        !(members[other].connection.Connected? && members[other].connection.connectionId == connection.connectionId)
    ensures MembersOk(v, members[id := members[id].(connection := connection)])
  {
    var after := members[id := members[id].(connection := connection)];
    forall i, j | i in after && j in after && i != j
      ensures !Clash(after[i], after[j])
    {
      assert !Clash(members[i], members[j]);
    }
  }

  lemma MembersRemoved(v: Syntax, members: Members, id: Id)
    requires MembersOk(v, members)
    ensures MembersOk(v, members - {id})
  {
    var after := members - {id};
    forall i, j | i in after && j in after && i != j
      ensures !Clash(after[i], after[j])
    {
      assert !Clash(members[i], members[j]);
    }
  }

  /** A newcomer fits exactly when nobody connected already holds its connection id. */
  lemma MembersAdded(v: Syntax, members: Members, id: Id, m: Member)
    requires MembersOk(v, members) && id !in members
    requires MemberOk(v, id, m) && m.connection.Connected?
    requires OrdinalsBelow(members, m.joinedOrdinal)
    ensures MembersOk(v, members[id := m]) <==> !ConnectionInUse(members, m.connection.connectionId)
  {
    var after := members[id := m];
    if ConnectionInUse(members, m.connection.connectionId) {
      var other :| other in members && members[other].connection.Connected?
        && members[other].connection.connectionId == m.connection.connectionId;
      assert Clash(after[id], after[other]);
    } else {
      forall i, j | i in after && j in after && i != j
        ensures !Clash(after[i], after[j])
      {
        if i != id && j != id {
          assert !Clash(members[i], members[j]);
        }
      }
    }
  }

  // ---------------------------------------------------------------- host choice

  ghost predicate Leads(s: RoomState, p: Id, ids: set<Id>) {
    && p in ids && ids <= s.members.Keys
    && forall q | q in ids :: q != p ==> HostPrecedes(s, p, q)
  }

  /** Ordinals are distinct, so the host order has a least element in any set of members. */
  lemma {:induction false} LeastHost(v: Syntax, s: RoomState, ids: set<Id>) returns (p: Id)
    requires MembersOk(v, s.members)
    requires ids != {} && ids <= s.members.Keys
    ensures Leads(s, p, ids)
    decreases |ids|
  {
    var x :| x in ids;
    var rest := ids - {x};
    if rest == {} {
      assert ids == {x};
      p := x;
    } else {
      p := LeastHost(v, s, rest);
      assert !Clash(s.members[p], s.members[x]);
      if !HostPrecedes(s, p, x) {
        forall q | q in ids && q != x
          ensures HostPrecedes(s, x, q)
        {
          assert q == p || HostPrecedes(s, p, q);
        }
        p := x;
      }
    }
  }

  /**
   A room with a connected member always gets a host, and it is the best one: a seated
   member before any spectator, and the earliest joiner within its group.
   */
  lemma ChooseHostFindsTheBest(v: Syntax, s: RoomState)
    requires MembersOk(v, s.members)
    ensures ChooseHost(s).Some? <==> AnyConnected(s.members)
    ensures ChooseHost(s).Some? ==> IsBestHost(s, ChooseHost(s).value)
  {
    if AnyConnected(s.members) {
      var ids := set id | id in s.members && IsConnected(s.members, id);
      var c :| c in s.members && s.members[c].connection.Connected?;
      assert c in ids;
      var p := LeastHost(v, s, ids);
      assert IsBestHost(s, p);
    }
  }

  /** The comparator of the sort: below zero when the first member comes first. */
  function CompareHosts(s: RoomState, p: Id, q: Id): int
    requires p in s.members && q in s.members
  {
    var groups := HostGroup(s, p) - HostGroup(s, q);
    if groups != 0 then groups else s.members[p].joinedOrdinal - s.members[q].joinedOrdinal
  }

  function HostGroup(s: RoomState, p: Id): nat {
    var seated := SeatOf(s, p).Some?;
    if IsConnected(s.members, p) then (if seated then 0 else 1) else (if seated then 2 else 3)
  }

  /** Connected members in the order of the comparator. */
  ghost predicate SortedHosts(s: RoomState, ids: seq<Id>) {
    && (forall i | 0 <= i < |ids| :: IsConnected(s.members, ids[i]))
    && forall i, j | 0 <= i < j < |ids| :: CompareHosts(s, ids[i], ids[j]) < 0
  }

  lemma PositionIsSorted(v: Syntax, s: RoomState, ids: seq<Id>, id: Id, at: nat)
    requires MembersOk(v, s.members) && SortedHosts(s, ids) && IsConnected(s.members, id) && id !in ids && at <= |ids|
    requires forall i | 0 <= i < at :: CompareHosts(s, ids[i], id) <= 0
    requires at < |ids| ==> CompareHosts(s, ids[at], id) > 0
    ensures SortedHosts(s, ids[..at] + [id] + ids[at..])
  {
    var next := ids[..at] + [id] + ids[at..];
    forall i, j | 0 <= i < j < |next|
      ensures CompareHosts(s, next[i], next[j]) < 0
    {
      if j == at {
        assert !Clash(s.members[next[i]], s.members[id]);
      }
    }
  }

  /** Sorts a further member in. */
  method SortIn(v: Syntax, s: RoomState, ids: seq<Id>, id: Id) returns (next: seq<Id>)
    requires MembersOk(v, s.members) && SortedHosts(s, ids) && IsConnected(s.members, id) && id !in ids
    ensures SortedHosts(s, next) && (forall other :: other in next <==> other in ids || other == id)
  {
    hide MembersOk;
    var at := 0;
    while at < |ids| && CompareHosts(s, ids[at], id) <= 0
      invariant at <= |ids|
      invariant forall i | 0 <= i < at :: CompareHosts(s, ids[i], id) <= 0
    {
      at := at + 1;
    }
    PositionIsSorted(v, s, ids, id, at);
    next := ids[..at] + [id] + ids[at..];
    assert ids == ids[..at] + ids[at..];
  }

  /** The host is the first of the connected members once sorted, whatever the order they were in. */
  method ChooseHostBySorting(v: Syntax, s: RoomState) returns (host: Option<Id>)
    requires MembersOk(v, s.members)
    ensures host == ChooseHost(s)
  {
    var candidates: seq<Id> := [];
    var left := s.members.Keys;
    while left != {}
      invariant left <= s.members.Keys
      invariant SortedHosts(s, candidates)
      invariant forall id :: id in candidates <==> id in s.members.Keys - left && IsConnected(s.members, id)
      decreases |left|
    {
      var id :| id in left;
      if IsConnected(s.members, id) {
        candidates := SortIn(v, s, candidates, id);
      }
      left := left - {id};
    }
    FirstIsChosen(s, candidates);
    host := if candidates == [] then None else Some(candidates[0]);
  }

  lemma FirstIsChosen(s: RoomState, candidates: seq<Id>)
    requires SortedHosts(s, candidates)
    requires forall id :: id in candidates <==> IsConnected(s.members, id)
    ensures ChooseHost(s) == if candidates == [] then None else Some(candidates[0])
  {
    if candidates != [] {
      var first := candidates[0];
      forall q | q in s.members && IsConnectedRival(s, first, q)
        ensures HostPrecedes(s, first, q) && !HostPrecedes(s, q, first)
      {
        var i :| 0 <= i < |candidates| && candidates[i] == q;
        assert CompareHosts(s, candidates[0], candidates[i]) < 0;
      }
      assert IsBestHost(s, first);
      forall p | p in s.members && IsBestHost(s, p)
        ensures p == first
      {
        if p != first {
          assert IsConnectedRival(s, p, first) && IsConnectedRival(s, first, p);
        }
      }
    }
  }

  // ---------------------------------------------------------------- shared operations

  lemma DenyKeepsDenylist(v: Syntax, s: RoomState, id: Id, members: Members)
    requires DeniedOk(v, s) && v.safeId(id) && members.Keys == s.members.Keys - {id}
    ensures DeniedOk(v, s.(denied := Deny(s.denied, id), members := members))
    ensures DeniedOk(v, s.(members := members))
  {
    var grown := s.denied + [id];
    if id !in s.denied {
      assert forall i, j | 0 <= i < j < |grown| :: grown[i] != grown[j];
      assert forall i | 0 <= i < |grown| :: v.safeId(grown[i]) && grown[i] !in members;
    }
  }

  lemma VacatedKeepsPhase(s: RoomState, id: Id, deny: bool)
    requires PhaseOk(s) && !s.phase.Closed?
    requires s.phase.Playing? ==> SeatOf(s, id).None?
    ensures PhaseOk(Vacated(s, id, deny))
  {
    assert ReadySeatOk(s, First) && ReadySeatOk(s, Second);
  }

  lemma RemovalKeepsHost(v: Syntax, s: RoomState, id: Id, deny: bool)
    requires MembersOk(v, s.members) && HostOk(s) && !s.phase.Closed?
    ensures HostOk(RemoveMember(s, id, deny).state)
  {
    MembersRemoved(v, s.members, id);
    ChooseHostFindsTheBest(v, Vacated(s, id, deny));
  }

  lemma PhaseIgnoresHost(s: RoomState, host: Option<Id>)
    requires PhaseOk(s) && !s.phase.Closed?
    ensures PhaseOk(s.(host := host))
  {
    assert ReadySeatOk(s, First) && ReadySeatOk(s, Second);
  }

  lemma RemovalOnlyMovesHost(s: RoomState, id: Id, deny: bool)
    ensures RemoveMember(s, id, deny).state == Vacated(s, id, deny).(host := RemoveMember(s, id, deny).state.host)
    ensures SameIdentity(s, Vacated(s, id, deny))
  {
  }

  lemma RemovalKeepsPhase(s: RoomState, id: Id, deny: bool)
    requires PhaseOk(s) && !s.phase.Closed?
    requires s.phase.Playing? ==> SeatOf(s, id).None?
    ensures PhaseOk(RemoveMember(s, id, deny).state)
    ensures SameIdentity(s, RemoveMember(s, id, deny).state)
  {
    var vacated := Vacated(s, id, deny);
    var done := RemoveMember(s, id, deny).state;
    RemovalOnlyMovesHost(s, id, deny);
    VacatedKeepsPhase(s, id, deny);
    assert !vacated.phase.Closed?;
    var moved := vacated.(host := done.host);
    PhaseIgnoresHost(vacated, done.host);
    assert done == moved;
  }

  lemma RemovalKeepsCrowd(v: Syntax, s: RoomState, id: Id, deny: bool)
    requires CrowdOk(v, s) && id in s.members && !s.phase.Closed?
    ensures CrowdOk(v, RemoveMember(s, id, deny).state)
  {
    MembersRemoved(v, s.members, id);
    RemovalKeepsHost(v, s, id, deny);
    assert MemberOk(v, id, s.members[id]);
    DenyKeepsDenylist(v, s, id, s.members - {id});
  }

  lemma ClosingIsFine(v: Syntax, s: RoomState, reason: ClosedReason)
    requires PhaseOk(s) && CrowdOk(v, s)
    ensures PhaseOk(CloseState(s, reason)) && CrowdOk(v, CloseState(s, reason))
  {
  }

  lemma ResetIsFine(v: Syntax, s: RoomState, seats: Pair<Option<Id>>, settings: Settings)
    requires CrowdOk(v, s) && !s.phase.Closed?
    requires SeatsOk(s.(seats := seats)) && IsTargetWins(settings.targetWins)
    ensures PhaseOk(ResetCompetition(s.(seats := seats, settings := settings)))
    ensures CrowdOk(v, ResetCompetition(s.(seats := seats, settings := settings)))
  {
  }

  lemma CancellingKeepsPhase(s: RoomState, reason: CancelReason)
    requires SeatsOk(s) && IsTargetWins(s.settings.targetWins)
    requires s.series.Some? ==> SeriesOk(s.series.value)
    requires s.phase.Countdown? && SeatsHoldRoster(s)
    ensures PhaseOk(CancelCountdown(s, reason).state)
    ensures SameIdentity(s, CancelCountdown(s, reason).state)
  {
  }

  lemma CancellingKeepsCrowd(v: Syntax, s: RoomState, reason: CancelReason)
    requires CrowdOk(v, s) && !s.phase.Closed?
    ensures CrowdOk(v, CancelCountdown(s, reason).state)
  {
  }

  lemma CountdownKeepsPhase(s: RoomState, atMs: int, origin: Origin, policy: Policy)
    requires SeatsOk(s) && IsTargetWins(s.settings.targetWins)
    requires BothConnected(s) && s.ready == Pair(true, true)
    requires origin.FromBetweenGames? ==> s.series.Some? && !s.series.value.completed && SeriesOk(s.series.value)
    requires origin.FromBetweenGames? ==> s.phase.BetweenGames? && SeatsHoldRoster(s)
    ensures BeginCountdown(s, atMs, origin, policy).Some?
    ensures PhaseOk(BeginCountdown(s, atMs, origin, policy).value.state)
    ensures SameIdentity(s, BeginCountdown(s, atMs, origin, policy).value.state)
  {
  }

  lemma CountdownKeepsCrowd(s: RoomState, atMs: int, origin: Origin, policy: Policy)
    requires CrowdOk(policy.syntax, s) && !s.phase.Closed?
    requires BeginCountdown(s, atMs, origin, policy).Some?
    ensures CrowdOk(policy.syntax, BeginCountdown(s, atMs, origin, policy).value.state)
  {
  }

  // ---------------------------------------------------------------- user commands

  /** The guards a join must pass before the reducer commits it. */
  predicate JoinAdmitted(s: RoomState, c: UserCommand, policy: Policy) {
    && c.Join?
    && !s.phase.Closed?
    && IsValidPlayer(policy.syntax, c.player) && policy.syntax.safeId(c.connectionId)
    && c.player.playerId !in s.denied && c.player.playerId !in s.members
    && if c.spectator then
         s.settings.allowSpectators && SpectatorCount(s) < policy.maxSpectators
       else
         && (s.phase.Lobby? || s.phase.SeriesComplete?)
         && s.seats.At(c.preferredSeat.GetOr(if s.seats.first.None? then First else Second)).None?
  }

  function JoinSeats(s: RoomState, c: UserCommand): Pair<Option<Id>>
    requires c.Join?
  {
    if c.spectator then s.seats
    else s.seats.With(c.preferredSeat.GetOr(if s.seats.first.None? then First else Second), Some(c.player.playerId))
  }

  /** The state a join proposes. */
  function Joined(s: RoomState, c: UserCommand): RoomState
    requires c.Join?
  {
    var joined := s.(
      members := s.members[c.player.playerId := Member(c.player, s.nextJoinedOrdinal, Connected(c.connectionId, 0))],
      nextJoinedOrdinal := s.nextJoinedOrdinal + 1);
    WithHost(if c.spectator then joined else ResetCompetition(joined.(seats := JoinSeats(s, c))), c.player.playerId)
  }

  lemma JoinProposal(s: RoomState, c: UserCommand, policy: Policy)
    requires c.Join?
    ensures JoinAdmitted(s, c, policy) ==>
      JoinRoom(s, c, policy) == Propose(Joined(s, c), if c.spectator then [] else CancelEffect(s, RosterChanged), true)
    ensures !JoinAdmitted(s, c, policy) ==> JoinRoom(s, c, policy).Reject?
  {
  }

  lemma JoinKeepsPhase(s: RoomState, c: UserCommand, policy: Policy)
    requires PhaseOk(s) && JoinAdmitted(s, c, policy)
    ensures PhaseOk(Joined(s, c)) && SameIdentity(s, Joined(s, c))
  {
    assert ReadySeatOk(s, First) && ReadySeatOk(s, Second);
  }

  lemma JoinKeepsCrowd(s: RoomState, c: UserCommand, policy: Policy)
    requires CrowdOk(policy.syntax, s) && JoinAdmitted(s, c, policy) && s.nextJoinedOrdinal <= MAX_SAFE
    ensures MembersOk(policy.syntax, Joined(s, c).members) <==> !ConnectionInUse(s.members, c.connectionId)
    ensures !ConnectionInUse(s.members, c.connectionId) ==> CrowdOk(policy.syntax, Joined(s, c))
  {
    MembersAdded(policy.syntax, s.members, c.player.playerId,
                 Member(c.player, s.nextJoinedOrdinal, Connected(c.connectionId, 0)));
  }

  lemma JoinIsSoundWithoutCollision(s: RoomState, c: UserCommand, policy: Policy)
    requires Strong(policy.syntax, s) && s.nextJoinedOrdinal <= MAX_SAFE
    requires JoinAdmitted(s, c, policy) && !ConnectionInUse(s.members, c.connectionId)
    ensures Sound(policy.syntax, s, JoinRoom(s, c, policy))
  {
    JoinProposal(s, c, policy);
    JoinKeepsCrowd(s, c, policy);
    JoinKeepsPhase(s, c, policy);
  }

  lemma LeaveIsSound(v: Syntax, s: RoomState, c: UserCommand)
    requires Strong(v, s) && c.Leave? && !s.phase.Closed?
    ensures Sound(v, s, LeaveRoom(s, c))
  {
    if LeaveRoom(s, c).Propose? {
      RemovalKeepsPhase(s, c.actor, false);
      RemovalKeepsCrowd(v, s, c.actor, false);
    }
  }

  lemma KickIsSound(v: Syntax, s: RoomState, c: UserCommand)
    requires Strong(v, s) && c.Kick? && !s.phase.Closed?
    ensures Sound(v, s, KickMember(s, c))
  {
    if KickMember(s, c).Propose? {
      RemovalKeepsPhase(s, c.target, true);
      RemovalKeepsCrowd(v, s, c.target, true);
    }
  }

  lemma TakeSeatIsSound(s: RoomState, c: UserCommand, policy: Policy)
    requires Strong(policy.syntax, s) && c.SetSeat?
    ensures Sound(policy.syntax, s, TakeSeat(s, c, policy))
  {
    if TakeSeat(s, c, policy).Propose? {
      var vacated := VacateSeat(s.seats, SeatOf(s, c.actor));
      var seats := if c.seat.None? then vacated else vacated.With(c.seat.value, Some(c.actor));
      ResetIsFine(policy.syntax, s, seats, s.settings);
    }
  }

  lemma SettingsIsSound(v: Syntax, s: RoomState, c: UserCommand)
    requires Strong(v, s) && c.UpdateSettings?
    ensures Sound(v, s, ChangeSettings(s, c))
  {
    if ChangeSettings(s, c).Propose? {
      ResetIsFine(v, s, s.seats, Settings(
        c.patch.targetWins.GetOr(s.settings.targetWins), c.patch.allowSpectators.GetOr(s.settings.allowSpectators)));
    }
  }

  lemma ReadyChangeKeepsPhase(s: RoomState, seat: Seat, ready: bool)
    requires PhaseOk(s) && (s.phase.Lobby? || s.phase.BetweenGames?)
    requires s.seats.At(seat).Some? && IsConnected(s.members, s.seats.At(seat).value)
    requires s.ready.With(seat, ready) != Pair(true, true)
    ensures PhaseOk(s.(ready := s.ready.With(seat, ready)))
  {
    assert ReadySeatOk(s, First) && ReadySeatOk(s, Second);
  }

  lemma ReadyIsSound(s: RoomState, atMs: int, c: UserCommand, policy: Policy)
    requires Strong(policy.syntax, s) && c.SetReady?
    ensures Sound(policy.syntax, s, MakeReady(s, atMs, c, policy))
  {
    if MakeReady(s, atMs, c, policy).Reject? {
    } else if s.phase.Countdown? {
      CancellingKeepsPhase(s, Unready);
      CancellingKeepsCrowd(policy.syntax, s, Unready);
    } else {
      var seat := SeatOf(s, c.actor).value;
      var proposed := s.(ready := s.ready.With(seat, c.ready));
      assert ReadySeatOk(s, First) && ReadySeatOk(s, Second);
      assert CrowdOk(policy.syntax, proposed) by { assert DeniedOk(policy.syntax, s); }
      if proposed.ready == Pair(true, true) {
        assert BothConnected(proposed);
        var origin := if s.phase.Lobby? then FromLobby else FromBetweenGames;
        CountdownKeepsPhase(proposed, atMs, origin, policy);
        CountdownKeepsCrowd(proposed, atMs, origin, policy);
      } else {
        ReadyChangeKeepsPhase(s, seat, c.ready);
      }
    }
  }

  lemma PassHostIsSound(v: Syntax, s: RoomState, c: UserCommand)
    requires Strong(v, s) && c.TransferHost?
    ensures Sound(v, s, PassHost(s, c))
  {
    if PassHost(s, c).Propose? {
      PhaseIgnoresHost(s, Some(c.target));
    }
  }

  lemma RematchIsSound(s: RoomState, atMs: int, c: UserCommand, policy: Policy)
    requires Strong(policy.syntax, s) && c.Rematch?
    ensures Sound(policy.syntax, s, VoteRematch(s, atMs, c, policy))
  {
    if !VoteRematch(s, atMs, c, policy).Reject? {
      var proposed := s.(rematchVotes := s.rematchVotes.With(SeatOf(s, c.actor).value, c.accepted));
      assert DeniedOk(policy.syntax, s);
      if proposed.rematchVotes == Pair(true, true) && BothConnected(s) {
        var voted := proposed.(ready := Pair(true, true));
        CountdownKeepsPhase(voted, atMs, FromSeriesComplete, policy);
        CountdownKeepsCrowd(voted, atMs, FromSeriesComplete, policy);
      }
    }
  }

  // ---------------------------------------------------------------- presence commands

  /** Replacing one member's connection by a fitting one. */
  lemma ConnectionChangeKeepsCrowd(v: Syntax, s: RoomState, id: Id, connection: Connection)
    requires CrowdOk(v, s) && id in s.members && !s.phase.Closed?
    requires MemberOk(v, id, s.members[id].(connection := connection))
    requires connection.Connected? ==> s.host.Some? && forall other | other in s.members && other != id ::
      !(s.members[other].connection.Connected? && s.members[other].connection.connectionId == connection.connectionId)
    ensures CrowdOk(v, WithConnection(s, id, connection))
  {
    MembersUpdated(v, s.members, id, connection);
    var after := WithConnection(s, id, connection);
    assert after.members.Keys == s.members.Keys;
    if AnyConnected(after.members) && connection.Disconnected? {
      var p :| p in after.members && after.members[p].connection.Connected?;
      assert p in s.members && s.members[p].connection.Connected?;
    }
  }

  lemma AwayKeepsPhase(s: RoomState, id: Id, deadline: int)
    requires PhaseOk(s) && id in s.members
    requires !(s.phase.Countdown? && SeatOf(s, id).Some?)
    ensures PhaseOk(Away(s, id, deadline))
  {
    assert ReadySeatOk(s, First) && ReadySeatOk(s, Second);
  }

  lemma AwayKeepsCrowd(v: Syntax, s: RoomState, id: Id, deadline: int)
    requires CrowdOk(v, s) && id in s.members && !s.phase.Closed? && IsSafeTime(deadline)
    ensures CrowdOk(v, Away(s, id, deadline))
  {
    assert MemberOk(v, id, s.members[id]);
    ConnectionChangeKeepsCrowd(v, s, id, Disconnected(s.members[id].connection.epoch, deadline, false));
    assert DeniedOk(v, s.(members := Away(s, id, deadline).members));
  }

  lemma CancelledAwayIsFine(v: Syntax, s: RoomState, id: Id, deadline: int)
    requires PhaseOk(s) && id in s.members && s.phase.Countdown? && CrowdOk(v, Away(s, id, deadline))
    ensures var next := CancelCountdown(Away(s, id, deadline), Disconnect).state;
            PhaseOk(next) && CrowdOk(v, next) && SameIdentity(s, next)
  {
    CancellingKeepsPhase(Away(s, id, deadline), Disconnect);
    CancellingKeepsCrowd(v, Away(s, id, deadline), Disconnect);
  }

  lemma LostConnectionIsSound(s: RoomState, atMs: int, c: SystemCommand, policy: Policy)
    requires Admissible(s, atMs, policy) && c.ConnectionLost?
    ensures Sound(policy.syntax, s, LoseConnection(s, atMs, c, policy))
  {
    var id := c.playerId;
    if LoseConnection(s, atMs, c, policy).Propose? {
      var deadline := atMs + ReconnectGrace(s, id, policy);
      AwayKeepsCrowd(policy.syntax, s, id, deadline);
      if s.phase.Countdown? && SeatOf(s, id).Some? {
        CancelledAwayIsFine(policy.syntax, s, id, deadline);
      } else {
        AwayKeepsPhase(s, id, deadline);
      }
    }
  }

  lemma ReconnectingKeepsPhase(s: RoomState, id: Id, connection: Connection)
    requires PhaseOk(s) && id in s.members && connection.Connected?
    ensures PhaseOk(WithConnection(s, id, connection))
  {
    assert ReadySeatOk(s, First) && ReadySeatOk(s, Second);
  }

  /** A member comes back on, or moves to, a connection id that nobody connected holds. */
  lemma ReconnectedIsFine(v: Syntax, s: RoomState, id: Id, connectionId: Id)
    requires Strong(v, s) && id in s.members && s.members[id].connection.epoch < MAX_SAFE
    requires v.safeId(connectionId) && !ConnectionInUse(s.members, connectionId)
    ensures var next := WithHost(WithConnection(s, id, Connected(connectionId, s.members[id].connection.epoch + 1)), id);
            PhaseOk(next) && CrowdOk(v, next)
  {
    var connection := Connected(connectionId, s.members[id].connection.epoch + 1);
    assert MemberOk(v, id, s.members[id]);
    var hosted := WithHost(s, id);
    assert CrowdOk(v, hosted) by { assert DeniedOk(v, s); }
    ConnectionChangeKeepsCrowd(v, hosted, id, connection);
    ReconnectingKeepsPhase(s, id, connection);
    PhaseIgnoresHost(WithConnection(s, id, connection), hosted.host);
    assert WithHost(WithConnection(s, id, connection), id) == WithConnection(hosted, id, connection);
  }

  lemma ResumeIsSound(s: RoomState, atMs: int, c: SystemCommand, policy: Policy)
    requires Admissible(s, atMs, policy) && c.ConnectionResumed?
    ensures Sound(policy.syntax, s, ResumeConnection(s, atMs, c, policy))
  {
    if ResumeConnection(s, atMs, c, policy).Propose? {
      ReconnectedIsFine(policy.syntax, s, c.playerId, c.newConnectionId);
    }
  }

  lemma ReplaceIsSound(s: RoomState, atMs: int, c: SystemCommand, policy: Policy)
    requires Admissible(s, atMs, policy) && c.ConnectionReplace?
    ensures Sound(policy.syntax, s, ReplaceConnection(s, c, policy))
  {
    if ReplaceConnection(s, c, policy).Propose? {
      assert IsConnected(s.members, c.playerId) && AnyConnected(s.members) && s.host.Some?;
      ReconnectedIsFine(policy.syntax, s, c.playerId, c.newConnectionId);
    }
  }

  lemma ReconnectExpiryIsSound(v: Syntax, s: RoomState, atMs: int, c: SystemCommand)
    requires Strong(v, s) && c.ReconnectElapsed?
    ensures Sound(v, s, ExpireReconnect(s, atMs, c))
  {
    var id := c.playerId;
    if ExpireReconnect(s, atMs, c).Ignore? {
    } else if SeatOf(s, id).Some? && s.phase.Playing? {
      assert MemberOk(v, id, s.members[id]);
      var connection := s.members[id].connection.(forfeitRequested := true);
      ConnectionChangeKeepsCrowd(v, s, id, connection);
      assert DeniedOk(v, WithConnection(s, id, connection));
    } else {
      RemovalKeepsPhase(s, id, false);
      RemovalKeepsCrowd(v, s, id, false);
    }
  }

  // ---------------------------------------------------------------- match commands

  /** The branch that cancels a countdown because the roster changed is never taken. */
  lemma RosterNeverChangesDuringCountdown(v: Syntax, s: RoomState)
    requires Strong(v, s) && s.phase.Countdown?
    ensures RosterOf(s).Some? && s.ready == Pair(true, true) && BothConnected(s) && s.series.Some?
  {
    assert ReadySeatOk(s, First) && ReadySeatOk(s, Second);
  }

  lemma StartMatchIsSound(s: RoomState, atMs: int, c: SystemCommand, policy: Policy)
    requires Strong(policy.syntax, s) && c.CountdownElapsed?
    ensures Sound(policy.syntax, s, StartMatch(s, atMs, c, policy))
  {
    if StartMatch(s, atMs, c, policy).Propose? {
      RosterNeverChangesDuringCountdown(policy.syntax, s);
      assert DeniedOk(policy.syntax, s);
    }
  }

  lemma RenewKeepsCrowd(v: Syntax, s: RoomState, id: Id, deadline: int)
    requires CrowdOk(v, s) && !s.phase.Closed? && IsSafeTime(deadline)
    ensures CrowdOk(v, s.(members := RenewDeadline(s.members, id, deadline).0))
  {
    if id in s.members && s.members[id].connection.Disconnected? {
      assert MemberOk(v, id, s.members[id]);
      ConnectionChangeKeepsCrowd(v, s, id, Disconnected(s.members[id].connection.epoch, deadline, false));
    }
  }

  lemma {:induction false} RenewAllKeepsCrowd(v: Syntax, s: RoomState, ids: seq<Id>, deadline: int)
    requires CrowdOk(v, s) && !s.phase.Closed? && IsSafeTime(deadline)
    ensures CrowdOk(v, s.(members := RenewDeadlines(s.members, ids, deadline).0))
    ensures RenewDeadlines(s.members, ids, deadline).0.Keys == s.members.Keys
    decreases |ids|
  {
    if ids != [] {
      var shorter := ids[..|ids| - 1];
      RenewAllKeepsCrowd(v, s, shorter, deadline);
      RenewKeepsCrowd(v, s.(members := RenewDeadlines(s.members, shorter, deadline).0), ids[|ids| - 1], deadline);
    }
  }

  /** One more game keeps the score sheet consistent: the winner is the player who first reaches the target. */
  lemma ScoringKeepsSeries(series: Series, winner: Option<Id>)
    requires SeriesOk(series) && !series.completed && series.gamesPlayed < MAX_SAFE
    ensures SeriesOk(ScoreGame(series, winner))
    ensures ScoreGame(series, winner).roster == series.roster
    ensures ScoreGame(series, winner).gamesPlayed == series.gamesPlayed + 1
    ensures ScoreGame(series, winner).wins.first == series.wins.first + (if winner == Some(series.roster.first) then 1 else 0)
    ensures winner != Some(series.roster.first) ==>
              ScoreGame(series, winner).wins.second == series.wins.second + (if winner.Some? then 1 else 0)
    ensures winner == Some(series.roster.first) ==> ScoreGame(series, winner).wins.second == series.wins.second
    ensures ScoreGame(series, winner).completed && winner.Some? &&
            (winner.value == series.roster.first || winner.value == series.roster.second) ==>
            ScoreGame(series, winner).winnerPlayerId == winner
  {
  }

  lemma FinishedIsFine(v: Syntax, s: RoomState, members: Members, series: Series)
    requires PhaseOk(s) && s.phase.Playing? && SeriesOk(series) && series.roster == s.series.value.roster
    requires CrowdOk(v, s.(members := members)) && members.Keys == s.members.Keys
    ensures PhaseOk(Finished(s, members, series)) && CrowdOk(v, Finished(s, members, series))
  {
    assert DeniedOk(v, s.(members := members));
  }

  lemma FinishMatchIsSound(s: RoomState, atMs: int, c: SystemCommand, policy: Policy)
    requires Admissible(s, atMs, policy) && c.MatchFinished?
    ensures Sound(policy.syntax, s, FinishMatch(s, atMs, c, policy))
  {
    if FinishMatch(s, atMs, c, policy).Propose? {
      var deadline := atMs + policy.lobbyReconnectGraceMs;
      var ids := Participants(s.activeMatch.value);
      ScoringKeepsSeries(s.series.value, c.winner);
      RenewAllKeepsCrowd(policy.syntax, s, ids, deadline);
      FinishedIsFine(policy.syntax, s, RenewDeadlines(s.members, ids, deadline).0, ScoreGame(s.series.value, c.winner));
    }
  }

  // ---------------------------------------------------------------- the reducer

  lemma UserDecisionIsSound(s: RoomState, atMs: int, c: UserCommand, policy: Policy)
    requires Admissible(s, atMs, policy) && !s.phase.Closed?
    requires !(JoinAdmitted(s, c, policy) && ConnectionInUse(s.members, c.connectionId))
    ensures Sound(policy.syntax, s, HandleUser(s, atMs, c, policy))
  {
    match c
    case Join(_, _, _, _) =>
      JoinProposal(s, c, policy);
      if JoinAdmitted(s, c, policy) {
        JoinIsSoundWithoutCollision(s, c, policy);
      }
    case Leave(_, _) => LeaveIsSound(policy.syntax, s, c);
    case SetSeat(_, _, _) => TakeSeatIsSound(s, c, policy);
    case SetReady(_, _, _) => ReadyIsSound(s, atMs, c, policy);
    case UpdateSettings(_, _, _) => SettingsIsSound(policy.syntax, s, c);
    case TransferHost(_, _, _) => PassHostIsSound(policy.syntax, s, c);
    case Kick(_, _, _) => KickIsSound(policy.syntax, s, c);
    case Rematch(_, _, _) => RematchIsSound(s, atMs, c, policy);
    case CloseRoom(_, _) => ClosingIsFine(policy.syntax, s, HostClosed);
  }

  lemma SystemDecisionIsSound(s: RoomState, atMs: int, c: SystemCommand, policy: Policy)
    requires Admissible(s, atMs, policy)
    ensures Sound(policy.syntax, s, HandleSystem(s, atMs, c, policy))
  {
    match c
    case ConnectionLost(_, _, _) => LostConnectionIsSound(s, atMs, c, policy);
    case ConnectionResumed(_, _, _) => ResumeIsSound(s, atMs, c, policy);
    case ConnectionReplace(_, _, _, _) => ReplaceIsSound(s, atMs, c, policy);
    case ReconnectElapsed(_, _) => ReconnectExpiryIsSound(policy.syntax, s, atMs, c);
    case RoomExpired => ClosingIsFine(policy.syntax, s, Expired);
    case AdminClose => ClosingIsFine(policy.syntax, s, ServerShutdown);
    case CountdownElapsed(_, _) => StartMatchIsSound(s, atMs, c, policy);
    case MatchFinished(_, _, _, _) => FinishMatchIsSound(s, atMs, c, policy);
  }

  /** The one command the reducer lets through although its own assertion then fails. */
  predicate JoinCollides(s: RoomState, c: Command, policy: Policy) {
    && IsSafeTime(c.atMs) && c.User? && JoinAdmitted(s, c.user, policy)
    && ConnectionInUse(s.members, c.user.connectionId)
    && !ExpiresFirst(s, c)
  }

  lemma DecisionIsSound(s: RoomState, c: Command, policy: Policy)
    requires Admissible(s, c.atMs, policy) && !JoinCollides(s, c, policy)
    ensures Sound(policy.syntax, s, Decide(s, c, policy))
  {
    if s.phase.Closed? && c.User? {
    } else if ExpiresFirst(s, c) {
      ClosingIsFine(policy.syntax, s, Expired);
    } else if c.User? {
      UserDecisionIsSound(s, c.atMs, c.user, policy);
    } else {
      SystemDecisionIsSound(s, c.atMs, c.system, policy);
    }
  }

  lemma CollisionFailsTheAssertion(s: RoomState, c: Command, policy: Policy)
    requires Admissible(s, c.atMs, policy) && JoinCollides(s, c, policy)
    ensures TransitionRoom(s, c, policy).Thrown?
  {
    JoinProposal(s, c.user, policy);
    JoinKeepsCrowd(s, c.user, policy);
  }

  /**
   On every state that satisfies the strengthened invariant, a command makes the reducer throw
   exactly when it is an admitted join whose connection id a connected member already holds;
   every other command is rejected, ignored or commits a state that satisfies the invariant again.
   */
  lemma TransitionThrowsExactlyOnCollision(s: RoomState, c: Command, policy: Policy)
    requires Admissible(s, c.atMs, policy)
    ensures TransitionRoom(s, c, policy).Thrown? <==> JoinCollides(s, c, policy)
    ensures TransitionRoom(s, c, policy).Committed? ==> Strong(policy.syntax, TransitionRoom(s, c, policy).state)
  {
    if JoinCollides(s, c, policy) {
      CollisionFailsTheAssertion(s, c, policy);
    } else {
      DecisionIsSound(s, c, policy);
      var d := Decide(s, c, policy);
      if d.Propose? {
        SoundCommits(s, c.atMs, d, policy);
      }
    }
  }
}

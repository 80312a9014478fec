/** What happens to players who come and go: cleared inputs, forfeits, renewed deadlines, and the expiry of the room itself. */
module RoomPresence {
  import opened Wrappers
  import opened RoomModel
  import opened RoomInvariants
  import opened RoomReducer
  import opened RoomSafety
  import opened RoomTraces
  import opened RoomGuards

  // ---------------------------------------------------------------- players in a match

  /**
   A player in a match whose connection is lost or replaced has its held input cleared, and nobody else's input is ever
   cleared by these notices.
   */
  lemma InputIsClearedExactlyForPlayersInAMatch(s: RoomState, atMs: int, c: SystemCommand, policy: Policy, id: Id)
    requires PhaseOk(s) && (c.ConnectionLost? || c.ConnectionReplace?)
    ensures var d := HandleSystem(s, atMs, c, policy);
            d.Propose? ==> (ClearInput(id) in d.effects <==> id == c.playerId && s.phase == Playing && IsSeated(s, id))
  {
    hide ReadySeatOk;
    if c.ConnectionLost? {
      LostEffects(s, atMs, c, policy);
    }
  }

  lemma LostEffects(s: RoomState, atMs: int, c: SystemCommand, policy: Policy)
    requires PhaseOk(s) && c.ConnectionLost?
    ensures var d := LoseConnection(s, atMs, c, policy);
            d.Propose? ==>
              var deadline := ReconnectDeadline(c.playerId, atMs + ReconnectGrace(s, c.playerId, policy));
              d.effects == if s.phase == Playing && IsSeated(s, c.playerId) then [deadline, ClearInput(c.playerId)]
                           else if s.phase == Countdown && IsSeated(s, c.playerId)
                           then [deadline, CountdownCancel(s.countdown.value.countdownId, Disconnect)] else [deadline]
  {
    hide ReadySeatOk;
  }

  /** The opponent of a seated player. */
  function OpponentOf(s: RoomState, id: Id): Option<Id> {
    if s.seats.first == Some(id) then s.seats.second else s.seats.first
  }

  /**
   Forfeits: when the deadline of a player in a match runs out for the first time, the match is asked to end, against that
   player, and for the opponent exactly if the opponent is present; the room keeps both seats. The deadline of anybody else
   costs the member its place.
   */
  lemma DeadlinesForfeitOrRemove(s: RoomState, atMs: int, c: SystemCommand, policy: Policy)
    requires Strong(policy.syntax, s) && c.ReconnectElapsed? && ExpireReconnect(s, atMs, c).Propose?
    ensures var d := ExpireReconnect(s, atMs, c);
            if s.phase == Playing && IsSeated(s, c.playerId) then
              var opponent := OpponentOf(s, c.playerId);
              && opponent.Some?
              && d.effects == [DisconnectForfeit(s.activeMatch.value.matchId, c.playerId,
                                                 if IsConnected(s.members, opponent.value) then opponent else None)]
              && d.next.seats == s.seats && d.next.members.Keys == s.members.Keys
              && d.next.activeMatch.Some? && d.next.activeMatch.value.resolutionRequested
            else
              d.next.members.Keys == s.members.Keys - {c.playerId} && ReconnectExpired(c.playerId) in d.effects
  {
    RemovingDoes(s, c.playerId, false);
    hide RemoveMember, MembersOk, DeniedOk, HostOk, TimestampsOk, IdentityOk, ReadySeatOk;
    var d := ExpireReconnect(s, atMs, c);
    if !(s.phase == Playing && IsSeated(s, c.playerId)) {
      var removed := RemoveMember(s, c.playerId, false);
      assert d.effects == removed.effects + [ReconnectExpired(c.playerId)];
    }
  }

  // ---------------------------------------------------------------- after a match

  /** A member who was away gets a new deadline and is no longer marked; one who is present is left alone. */
  predicate RenewedFor(before: Members, after: Members, es: seq<Effect>, id: Id, deadline: int) {
    id in before ==>
      && id in after
      && (if before[id].connection.Connected? then after[id] == before[id]
          else && after[id] == before[id].(connection := Disconnected(before[id].connection.epoch, deadline, false))
               && ReconnectDeadline(id, deadline) in es)
  }

  lemma RenewingOne(members: Members, a: Id, deadline: int)
    ensures var r := RenewDeadline(members, a, deadline);
            && RenewedFor(members, r.0, r.1, a, deadline) && r.0.Keys == members.Keys
            && (forall id | id in members && id != a :: r.0[id] == members[id])
            && (forall e | e in r.1 :: e == ReconnectDeadline(a, deadline))
  {
  }

  lemma RenewingBoth(members: Members, a: Id, b: Id, deadline: int)
    ensures var first := RenewDeadline(members, a, deadline);
            var second := RenewDeadline(first.0, b, deadline);
            RenewDeadlines(members, [a, b], deadline) == (second.0, first.1 + second.1)
  {
    assert [a, b][..1] == [a] && [a][..0] == [];
    var first := RenewDeadline(members, a, deadline);
    assert RenewDeadlines(members, [a], deadline) == (first.0, [] + first.1);
    assert [] + first.1 == first.1;
  }

  lemma RenewingTwo(members: Members, a: Id, b: Id, deadline: int)
    requires a != b
    ensures var r := RenewDeadlines(members, [a, b], deadline);
            && RenewedFor(members, r.0, r.1, a, deadline) && RenewedFor(members, r.0, r.1, b, deadline)
            && r.0.Keys == members.Keys
            && (forall id | id in members && id != a && id != b :: r.0[id] == members[id])
            && (forall e | e in r.1 :: e == ReconnectDeadline(a, deadline) || e == ReconnectDeadline(b, deadline))
  {
    hide RenewDeadline, RenewDeadlines;
    var first := RenewDeadline(members, a, deadline);
    RenewingOne(members, a, deadline);
    RenewingOne(first.0, b, deadline);
    RenewingBoth(members, a, b, deadline);
  }

  /**
   After a match both players who are away get the lobby's time to come back, counted from the result, with a timer set
   for it, and are no longer marked as having forfeited; nobody else's connection changes.
   */
  lemma ResultsRenewTheDeadlines(s: RoomState, atMs: int, c: SystemCommand, policy: Policy)
    requires Strong(policy.syntax, s) && c.MatchFinished? && FinishMatch(s, atMs, c, policy).Propose?
    ensures var d, deadline := FinishMatch(s, atMs, c, policy), atMs + policy.lobbyReconnectGraceMs;
            var roster := s.series.value.roster;
            && RenewedFor(s.members, d.next.members, d.effects, roster.first, deadline)
            && RenewedFor(s.members, d.next.members, d.effects, roster.second, deadline)
            && d.next.members.Keys == s.members.Keys
            && (forall id | id in s.members && id != roster.first && id != roster.second :: d.next.members[id] == s.members[id])
            && d.next.seats == s.seats && d.next.host == s.host
  {
    hide ScoreGame, MembersOk, DeniedOk, HostOk, TimestampsOk, IdentityOk, ReadySeatOk;
    var roster := s.series.value.roster;
    RenewingTwo(s.members, roster.first, roster.second, atMs + policy.lobbyReconnectGraceMs);
    hide RenewDeadlines;
  }

  // ---------------------------------------------------------------- expiry

  function Sooner(a: int, b: int): int { if a <= b then a else b }

  /** How long a room may be left as it is, by who is there and what it is doing; a match is never cut short. */
  function PatienceMs(s: RoomState, policy: Policy): Option<int> {
    if forall id | id in s.members :: s.members[id].connection.Disconnected? then Some(policy.emptyTtlMs)
    else if s.phase == Playing then None
    else if s.phase == SeriesComplete then Some(policy.seriesCompleteTtlMs)
    else Some(policy.lobbyIdleTtlMs)
  }

  /** The room expires when nothing has happened for that long, but never after its absolute end. */
  predicate ExpiresInTime(s: RoomState, policy: Policy) {
    s.phase != Closed ==>
      s.expiresAtMs == match PatienceMs(s, policy)
                       case None => s.absoluteExpiresAtMs
                       case Some(ms) => Sooner(s.absoluteExpiresAtMs, s.updatedAtMs + ms)
  }

  lemma RevisionsExpireInTime(s: RoomState, proposed: RoomState, atMs: int, policy: Policy, control: bool)
    ensures ExpiresInTime(Revised(s, proposed, atMs, policy, control), policy)
    ensures Revised(s, proposed, atMs, policy, control).updatedAtMs == if atMs >= s.updatedAtMs then atMs else s.updatedAtMs
  {
    var t := Revised(s, proposed, atMs, policy, control);
    assert AnyConnected(t.members) <==> !(forall id | id in t.members :: t.members[id].connection.Disconnected?) by {
      if !AnyConnected(t.members) {
        forall id | id in t.members ensures t.members[id].connection.Disconnected? {
        }
      }
    }
  }

  lemma FreshRoomsExpireInTime(input: CreateInput, policy: Policy)
    ensures ExpiresInTime(FreshRoom(input, policy), policy)
  {
    var s := FreshRoom(input, policy);
    assert s.members[input.creator.playerId].connection.Connected?;
  }

  /**
   Expiry, on every run of a created room: the room's deadline follows from its last commit, from who is connected and
   from its phase. A room found past it, except in a match, is closed by whatever comes next, if that is a command the
   room would look at, and the timer closes it then and not before.
   */
  lemma {:induction false} RoomsExpireInTime(input: CreateInput, cs: seq<Command>, policy: Policy)
    requires CreateRoom(input, policy).Ok?
    ensures ExpiresInTime(Run(FreshRoom(input, policy), cs, policy), policy)
    decreases |cs|
  {
    hide ExpiresInTime, CreateRoom, Revised;
    if cs == [] {
      FreshRoomsExpireInTime(input, policy);
    } else {
      var front, c := cs[..|cs| - 1], cs[|cs| - 1];
      RoomsExpireInTime(input, front, policy);
      var s := Run(FreshRoom(input, policy), front, policy);
      CommitShape(s, c, policy);
      var d := Decide(s, c, policy);
      if TransitionRoom(s, c, policy).Committed? {
        RevisionsExpireInTime(s, d.next, c.atMs, policy, d.controlRevision);
      }
    }
  }

  /** A room past its deadline is closed by the next command, unless a match is on; the timer needs the deadline to have come. */
  lemma ExpiredRoomsClose(s: RoomState, c: Command, policy: Policy)
    requires Admissible(s, c.atMs, policy) && s.phase != Closed
    ensures var t := TransitionRoom(s, c, policy);
            && (s.phase != Playing && c.atMs >= s.expiresAtMs ==> t.Committed? && t.state.phase == Closed)
            && (c == System(c.atMs, RoomExpired) ==>
                (t.Committed? <==> c.atMs >= s.expiresAtMs) && (t.Committed? ==> t.state.closedReason == Some(Expired)))
  {
    TransitionThrowsExactlyOnCollision(s, c, policy);
    CommitShape(s, c, policy);
    hide HandleUser, RoomInvariant, Strong, MembersOk;
  }

  // ---------------------------------------------------------------- agreement

  /** Whoever is ready, or has voted for a rematch, is seated and present; votes are held only after a series. */
  predicate OnlyPresentAgree(s: RoomState) {
    && (forall seat: Seat :: s.ready.At(seat) ==> IsPresent(s, seat))
    && VotesOk(s)
  }

  predicate VotesOk(s: RoomState) { VoteOk(s, First) && VoteOk(s, Second) }

  predicate VoteOk(s: RoomState, seat: Seat) { s.rematchVotes.At(seat) ==> s.phase == SeriesComplete && IsPresent(s, seat) }

  predicate IsPresent(s: RoomState, seat: Seat) { s.seats.At(seat).Some? && IsConnected(s.members, s.seats.At(seat).value) }

  lemma JoiningKeepsVotes(s: RoomState, c: UserCommand, policy: Policy)
    requires PhaseOk(s) && VotesOk(s) && s.phase != Closed && c.Join?
    ensures var d := JoinRoom(s, c, policy); d.Propose? ==> VotesOk(d.next)
  {
    hide IsValidPlayer, SpectatorCount, ReadySeatOk, SeriesOk;
  }

  lemma UserKeepsVotes(s: RoomState, atMs: int, c: UserCommand, policy: Policy)
    requires PhaseOk(s) && VotesOk(s) && s.phase != Closed
    ensures var d := HandleUser(s, atMs, c, policy); d.Propose? ==> VotesOk(d.next)
  {
    hide JoinRoom, RemoveMember, SpectatorCount, ReadySeatOk, SeriesOk, CreateSeries;
    if c.Join? {
      JoiningKeepsVotes(s, c, policy);
    } else if c.Leave? && c.actor in s.members {
      RemovingKeepsVotes(s, c.actor, false);
    } else if c.Kick? && c.target in s.members {
      RemovingKeepsVotes(s, c.target, true);
    }
  }

  lemma RemovingKeepsVotes(s: RoomState, id: Id, deny: bool)
    requires PhaseOk(s) && VotesOk(s) && s.phase != Closed && id in s.members
    ensures VotesOk(RemoveMember(s, id, deny).state)
  {
    hide ChooseHost, Deny, ReadySeatOk, SeriesOk;
    SeatIsSeat(s, id);
  }

  lemma SystemKeepsVotes(s: RoomState, atMs: int, c: SystemCommand, policy: Policy)
    requires PhaseOk(s) && VotesOk(s) && s.phase != Closed
    ensures var d := HandleSystem(s, atMs, c, policy); d.Propose? ==> VotesOk(d.next)
  {
    hide RemoveMember, RenewDeadlines, ReadySeatOk, SeriesOk, ScoreGame;
    if c.ReconnectElapsed? && c.playerId in s.members {
      RemovingKeepsVotes(s, c.playerId, false);
    }
  }

  lemma StepKeepsVotes(s: RoomState, c: Command, policy: Policy)
    requires Strong(policy.syntax, s) && VotesOk(s)
    ensures VotesOk(After(s, c, policy))
  {
    hide HandleUser, HandleSystem, RoomInvariant, PhaseOk;
    CommitShape(s, c, policy);
    if s.phase == Closed {
      ClosedRoomsStayClosed(s, c, policy);
    } else if TransitionRoom(s, c, policy).Committed? && !ExpiresFirst(s, c) {
      match c
      case User(atMs, user) => UserKeepsVotes(s, atMs, user, policy);
      case System(atMs, system) => SystemKeepsVotes(s, atMs, system, policy);
    }
  }

  lemma {:induction false} RunsKeepVotes(input: CreateInput, cs: seq<Command>, policy: Policy)
    requires CreateRoom(input, policy).Ok?
    requires |cs| < MAX_SAFE - 2 && DeadlinesInRange(cs, policy)
    ensures VotesOk(Run(FreshRoom(input, policy), cs, policy))
    decreases |cs|
  {
    hide VotesOk, CreateRoom, Strong, After;
    if cs == [] {
      FreshVotes(input, policy);
    } else {
      RunsKeepVotes(input, cs[..|cs| - 1], policy);
      ReachableRoomsAreStrong(input, cs[..|cs| - 1], policy);
      StepKeepsVotes(Run(FreshRoom(input, policy), cs[..|cs| - 1], policy), cs[|cs| - 1], policy);
    }
  }

  /** On every run only players who are seated and present are ready or have agreed to a rematch: absence withdraws both. */
  lemma AbsentPlayersAgreeToNothing(input: CreateInput, cs: seq<Command>, policy: Policy)
    requires CreateRoom(input, policy).Ok?
    requires |cs| < MAX_SAFE - 2 && DeadlinesInRange(cs, policy)
    ensures OnlyPresentAgree(Run(FreshRoom(input, policy), cs, policy))
  {
    hide Run, VotesOk, CreateRoom, Strong;
    RunsKeepVotes(input, cs, policy);
    ReachableRoomsAreStrong(input, cs, policy);
    ReadyPlayersArePresentToo(policy.syntax, Run(FreshRoom(input, policy), cs, policy));
  }

  lemma FreshVotes(input: CreateInput, policy: Policy)
    ensures VotesOk(FreshRoom(input, policy))
  {
  }

  lemma ReadyPlayersArePresentToo(v: Syntax, s: RoomState)
    requires Strong(v, s)
    ensures forall seat: Seat :: s.ready.At(seat) ==> IsPresent(s, seat)
  {
    hide MembersOk, SeriesOk, IdentityOk;
    assert ReadySeatOk(s, First) && ReadySeatOk(s, Second);
  }

  // ---------------------------------------------------------------- revisions

  /** Nothing but connections, times and the commit number differs. */
  predicate OnlyConnectionsDiffer(s: RoomState, t: RoomState) {
    && t == s.(members := t.members, revision := t.revision, presenceSequence := t.presenceSequence,
               updatedAtMs := t.updatedAtMs, expiresAtMs := t.expiresAtMs)
    && t.members.Keys == s.members.Keys
    && forall id | id in s.members :: t.members[id] == s.members[id].(connection := t.members[id].connection)
  }

  /**
   Revisions: a user's command always advances the revision when it commits, by one. A commit that does not advance it
   changes nothing but connections; and of the presence notices exactly those advance it that concern a seated player or
   give a hostless room its host.
   */
  lemma RevisionsCountWhatPlayersSee(s: RoomState, c: Command, policy: Policy)
    requires TransitionRoom(s, c, policy).Committed? && !ExpiresFirst(s, c)
    ensures var t := TransitionRoom(s, c, policy).state;
            && (t.revision == s.revision || t.revision == s.revision + 1)
            && (c.User? ==> t.revision == s.revision + 1)
            && (t.revision == s.revision ==> OnlyConnectionsDiffer(s, t))
            && (c.System? && c.system.ConnectionLost? ==> (t.revision > s.revision <==> IsSeated(s, c.system.playerId)))
            && (c.System? && c.system.ConnectionResumed? ==>
                (t.revision > s.revision <==> IsSeated(s, c.system.playerId) || s.host.None?))
            && (c.System? && c.system.ConnectionReplace? ==> t.revision == s.revision)
  {
    hide RoomInvariant, HandleUser, HandleSystem, CancelCountdown;
    CommitShape(s, c, policy);
    match c
    case User(atMs, user) => UserControls(s, atMs, user, policy);
    case System(atMs, system) => SystemControls(s, atMs, system, policy);
  }

  lemma UserControls(s: RoomState, atMs: int, c: UserCommand, policy: Policy)
    ensures var d := HandleUser(s, atMs, c, policy); d.Propose? ==> d.controlRevision
  {
    if c.Join? {
      JoinProposal(s, c, policy);
    }
  }

  lemma SystemControls(s: RoomState, atMs: int, c: SystemCommand, policy: Policy)
    ensures var d := HandleSystem(s, atMs, c, policy);
            d.Propose? ==>
              && (!d.controlRevision ==> OnlyConnectionsDiffer(s, d.next))
              && (c.ConnectionLost? ==> (d.controlRevision <==> IsSeated(s, c.playerId)))
              && (c.ConnectionResumed? ==> (d.controlRevision <==> IsSeated(s, c.playerId) || s.host.None?))
              && (c.ConnectionReplace? ==> !d.controlRevision)
  {
    hide RemoveMember, RenewDeadlines, CancelCountdown, ChooseHost;
  }
}

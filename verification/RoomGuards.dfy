/** Who may do what, and when: the commands a room takes, stated by what must hold, and what taking them does. */
module RoomGuards {
  import opened Wrappers
  import opened RoomModel
  import opened RoomInvariants
  import opened RoomReducer
  import opened RoomSafety
  import opened RoomTraces

  /** Between series: nothing is at stake, so the room may be rearranged. */
  predicate AtRest(s: RoomState) { s.phase == Lobby || s.phase == SeriesComplete }

  predicate IsSeated(s: RoomState, id: Id) { s.seats.first == Some(id) || s.seats.second == Some(id) }

  /** A present member who has seen the latest revision. */
  predicate Informed(s: RoomState, actor: Id, expectedRevision: int) {
    IsConnected(s.members, actor) && expectedRevision == s.revision
  }

  predicate IsHost(s: RoomState, actor: Id) { s.host == Some(actor) }

  predicate SeatFree(s: RoomState, seat: Seat) { if seat == First then s.seats.first == None else s.seats.second == None }

  /** Room for one more spectator. */
  predicate MayWatch(s: RoomState, policy: Policy) {
    s.settings.allowSpectators && SpectatorCount(s) < policy.maxSpectators
  }

  /** What must hold for a user's command to be taken. */
  predicate MayTake(s: RoomState, c: UserCommand, policy: Policy) {
    match c
    case Join(player, connectionId, spectator, preferred) =>
      && IsValidPlayer(policy.syntax, player) && policy.syntax.safeId(connectionId)
      && player.playerId !in s.members && player.playerId !in s.denied
      && (if spectator then MayWatch(s, policy)
          else AtRest(s) && match preferred
                            case Some(seat) => SeatFree(s, seat)
                            case None => SeatFree(s, First) || SeatFree(s, Second))
    case Leave(actor, revision) => Informed(s, actor, revision) && !(IsSeated(s, actor) && s.phase == Playing)
    case SetSeat(actor, revision, seat) =>
      && Informed(s, actor, revision) && AtRest(s)
      && (match seat
          case Some(wanted) => SeatFree(s, wanted)
          case None => IsSeated(s, actor) && MayWatch(s, policy))
    case SetReady(actor, revision, ready) =>
      && Informed(s, actor, revision) && IsSeated(s, actor)
      && (if s.phase == Countdown then !ready
          else (s.phase == Lobby || s.phase == BetweenGames) && s.ready.At(SeatOf(s, actor).value) != ready)
    case UpdateSettings(actor, revision, patch) =>
      && Informed(s, actor, revision) && IsHost(s, actor) && AtRest(s) && !patch.unknownKey
      && (patch.targetWins.Some? ==> patch.targetWins.value in {1, 2, 3, 5})
      && (patch.allowSpectators.GetOr(s.settings.allowSpectators) || SpectatorCount(s) == 0)
      && (patch.targetWins.GetOr(s.settings.targetWins) != s.settings.targetWins
          || patch.allowSpectators.GetOr(s.settings.allowSpectators) != s.settings.allowSpectators)
    case TransferHost(actor, revision, target) =>
      Informed(s, actor, revision) && IsHost(s, actor) && AtRest(s) && IsConnected(s.members, target) && target != actor
    case Kick(actor, revision, target) =>
      && Informed(s, actor, revision) && IsHost(s, actor) && target != actor && target in s.members
      && (IsSeated(s, target) ==> AtRest(s))
    case Rematch(actor, revision, accepted) =>
      && Informed(s, actor, revision) && IsSeated(s, actor) && s.phase == SeriesComplete
      && s.rematchVotes.At(SeatOf(s, actor).value) != accepted
    case CloseRoom(actor, revision) => Informed(s, actor, revision) && IsHost(s, actor) && AtRest(s)
  }

  /** The player's own seat says `vote` now, and the other says what it said. */
  predicate Voted(s: RoomState, before: Pair<bool>, after: Pair<bool>, actor: Id, vote: bool) {
    forall seat ::
      after.At(seat) == if s.seats.At(seat) == Some(actor) then vote else before.At(seat)
  }

  predicate OtherHas(s: RoomState, votes: Pair<bool>, actor: Id) {
    exists seat: Seat :: s.seats.At(seat) != Some(actor) && votes.At(seat)
  }

  /** The state a taken user command leads to, as far as it is the point of the command. */
  predicate Does(s: RoomState, c: UserCommand, t: RoomState) {
    match c
    case Join(player, _, spectator, preferred) =>
      && t.members.Keys == s.members.Keys + {player.playerId}
      && (spectator ==> !IsSeated(t, player.playerId) && t.seats == s.seats)
      && (!spectator ==>
          var seat := if preferred.Some? then preferred.value else if s.seats.first == None then First else Second;
          t.seats == s.seats.With(seat, Some(player.playerId)))
    case Leave(actor, _) => t.members.Keys == s.members.Keys - {actor} && !IsSeated(t, actor) && t.denied == s.denied
    case SetSeat(actor, _, seat) =>
      && t.members == s.members
      && (match seat
          case None => !IsSeated(t, actor)
          case Some(wanted) => t.seats.At(wanted) == Some(actor) && t.seats.At(wanted.Other()) != Some(actor))
    case SetReady(actor, _, ready) =>
      && t.seats == s.seats && t.members == s.members
      && (s.phase == Countdown ==> (t.phase == Lobby || t.phase == BetweenGames) && t.ready == Pair(false, false))
      && (s.phase != Countdown && t.phase != Countdown ==> t.phase == s.phase && Voted(s, s.ready, t.ready, actor, ready))
      && (s.phase != Countdown ==> (t.phase == Countdown <==> ready && OtherHas(s, s.ready, actor) && BothPresent(s)))
    case UpdateSettings(_, _, patch) =>
      && t.settings == Settings(patch.targetWins.GetOr(s.settings.targetWins), patch.allowSpectators.GetOr(s.settings.allowSpectators))
      && t.phase == Lobby && t.seats == s.seats
    case TransferHost(_, _, target) => t.host == Some(target) && t.seats == s.seats && t.phase == s.phase
    case Kick(_, _, target) =>
      t.members.Keys == s.members.Keys - {target} && !IsSeated(t, target) && target in t.denied
    case Rematch(actor, _, accepted) =>
      && t.seats == s.seats && t.members == s.members
      && (if accepted && OtherHas(s, s.rematchVotes, actor) && BothPresent(s) then t.phase == Countdown
          else t.phase == s.phase && Voted(s, s.rematchVotes, t.rematchVotes, actor, accepted))
    case CloseRoom(_, _) => t.phase == Closed
  }

  lemma SeatIsSeat(s: RoomState, id: Id)
    ensures SeatOf(s, id).Some? <==> IsSeated(s, id)
  {
  }

  lemma OtherSeatHas(s: RoomState, votes: Pair<bool>, actor: Id)
    requires PhaseOk(s) && IsSeated(s, actor)
    ensures OtherHas(s, votes, actor) <==> votes.At(SeatOf(s, actor).value.Other())
  {
    var other := SeatOf(s, actor).value.Other();
    assert s.seats.At(other) != Some(actor);
  }

  lemma RestIsUnlocked(s: RoomState)
    requires PhaseOk(s)
    ensures s.phase != Closed ==>
              (AtRest(s) <==> !(s.rulesStatus.Locked? || s.phase.Countdown? || s.phase.Playing? || s.phase.BetweenGames?))
  {
  }

  lemma JoiningDoes(s: RoomState, c: UserCommand, policy: Policy)
    requires PhaseOk(s) && s.phase != Closed && c.Join?
    requires forall id | id !in s.members :: !IsSeated(s, id)
    ensures var d := JoinRoom(s, c, policy); (d.Propose? <==> MayTake(s, c, policy)) && (d.Propose? ==> Does(s, c, d.next))
  {
    JoinProposal(s, c, policy);
    hide SpectatorCount, JoinRoom;
  }

  lemma RemovingDoes(s: RoomState, id: Id, deny: bool)
    requires PhaseOk(s) && s.phase != Closed && id in s.members
    ensures var t := RemoveMember(s, id, deny).state;
            && t.members.Keys == s.members.Keys - {id} && !IsSeated(t, id)
            && (deny ==> id in t.denied) && (!deny ==> t.denied == s.denied)
  {
    DenyingDenies(s.denied, id);
    hide Deny, ChooseHost, ReadySeatOk;
  }

  lemma DenyingDenies(denied: seq<Id>, id: Id)
    ensures id in Deny(denied, id)
  {
    if id !in denied {
      var grown := denied + [id];
      assert grown[|grown| - 1] == id;
      if |grown| > MAX_DENIED_PLAYER_IDS {
        assert grown[|grown| - MAX_DENIED_PLAYER_IDS..][MAX_DENIED_PLAYER_IDS - 1] == id;
      }
    }
  }

  lemma ReadyDoes(s: RoomState, atMs: int, c: UserCommand, policy: Policy)
    requires PhaseOk(s) && s.phase != Closed && c.SetReady?
    ensures var d := MakeReady(s, atMs, c, policy);
            (d.Propose? <==> MayTake(s, c, policy)) && (d.Propose? ==> Does(s, c, d.next))
  {
    SeatIsSeat(s, c.actor);
    hide ReadySeatOk;
  }

  lemma SettingsDoes(s: RoomState, c: UserCommand, policy: Policy)
    requires PhaseOk(s) && s.phase != Closed && c.UpdateSettings?
    ensures var d := ChangeSettings(s, c);
            (d.Propose? <==> MayTake(s, c, policy)) && (d.Propose? ==> Does(s, c, d.next))
  {
    hide SpectatorCount;
  }

  lemma SeatingDoes(s: RoomState, c: UserCommand, policy: Policy)
    requires PhaseOk(s) && s.phase != Closed && c.SetSeat?
    ensures var d := TakeSeat(s, c, policy);
            (d.Propose? <==> MayTake(s, c, policy)) && (d.Propose? ==> Does(s, c, d.next))
  {
    hide SpectatorCount, ReadySeatOk;
  }

  lemma UserDoes(s: RoomState, atMs: int, c: UserCommand, policy: Policy)
    requires Strong(policy.syntax, s) && s.phase != Closed
    requires forall id | id !in s.members :: !IsSeated(s, id)
    ensures var d := HandleUser(s, atMs, c, policy);
            (d.Propose? <==> MayTake(s, c, policy)) && (d.Propose? ==> Does(s, c, d.next))
  {
    hide JoinRoom, TakeSeat, MakeReady, ChangeSettings, RemoveMember, ChooseHost, SpectatorCount, MembersOk, DeniedOk, HostOk;
    hide BeginCountdown, TimestampsOk, IdentityOk;
    match c
    case Join(_, _, _, _) => JoiningDoes(s, c, policy);
    case Leave(actor, _) =>
      SeatIsSeat(s, actor);
      if actor in s.members {
        RemovingDoes(s, actor, false);
      }
    case SetSeat(_, _, _) => SeatingDoes(s, c, policy);
    case SetReady(_, _, _) => ReadyDoes(s, atMs, c, policy);
    case UpdateSettings(_, _, _) => SettingsDoes(s, c, policy);
    case TransferHost(_, _, _) =>
    case Kick(_, _, target) =>
      SeatIsSeat(s, target);
      RestIsUnlocked(s);
      if target in s.members {
        RemovingDoes(s, target, true);
      }
    case Rematch(_, _, _) => RematchDoes(s, atMs, c, policy);
    case CloseRoom(_, _) =>
  }

  lemma RematchDoes(s: RoomState, atMs: int, c: UserCommand, policy: Policy)
    requires PhaseOk(s) && s.phase != Closed && c.Rematch?
    ensures var d := VoteRematch(s, atMs, c, policy);
            (d.Propose? <==> MayTake(s, c, policy)) && (d.Propose? ==> Does(s, c, d.next))
  {
    SeatIsSeat(s, c.actor);
    if IsSeated(s, c.actor) {
      OtherSeatHas(s, s.rematchVotes, c.actor);
    }
    hide ReadySeatOk, OtherHas;
  }

  lemma OnlyMembersSit(s: RoomState)
    requires PhaseOk(s)
    ensures forall id | id !in s.members :: !IsSeated(s, id)
  {
  }

  /**
   Authority: from any reachable state of an open room that is not past its expiry, a user's command is taken if and only
   if its actor is present and up to date, has the part it needs (a seat, or the host's role), and the room is in a phase
   that allows it; and then it does what it is for. The one exception is a join on a connection id that is already in use.
   */
  lemma CommandsAreTakenExactlyWhenAllowed(s: RoomState, c: Command, policy: Policy)
    requires Admissible(s, c.atMs, policy) && s.phase != Closed && c.User? && !ExpiresFirst(s, c)
    requires !JoinCollides(s, c, policy)
    ensures var t := TransitionRoom(s, c, policy);
            (t.Committed? <==> MayTake(s, c.user, policy)) && (t.Committed? ==> Does(s, c.user, t.state))
  {
    OnlyMembersSit(s);
    UserDoes(s, c.atMs, c.user, policy);
    TransitionThrowsExactlyOnCollision(s, c, policy);
    hide HandleUser, MayTake, JoinCollides, RoomInvariant, Strong;
    CommitShape(s, c, policy);
    RevisingDoes(s, Decide(s, c, policy), c, policy);
  }

  lemma RevisingDoes(s: RoomState, d: Decision, c: Command, policy: Policy)
    requires c.User? && (d.Propose? ==> Does(s, c.user, d.next))
    ensures d.Propose? ==> Does(s, c.user, Revised(s, d.next, c.atMs, policy, d.controlRevision))
  {
  }

  // ---------------------------------------------------------------- refusals

  /** What each refusal of a user's command says, as a fact about the room and the command. */
  predicate IsTrueOf(code: ErrorCode, s: RoomState, c: UserCommand, policy: Policy) {
    match code
    case RevisionConflict => !c.Join? && c.expectedRevision != s.revision
    case NotInRoom => !c.Join? && c.actor !in s.members
    case NotConnected => !c.Join? && c.actor in s.members && !IsConnected(s.members, c.actor)
    case NotSeated => (c.SetReady? || c.Rematch?) && !IsSeated(s, c.actor)
    case NotHost => (c.UpdateSettings? || c.TransferHost? || c.Kick? || c.CloseRoom?) && !IsHost(s, c.actor)
    case InvalidCommand => c.Join? && !(IsValidPlayer(policy.syntax, c.player) && policy.syntax.safeId(c.connectionId))
    case RoomKicked => c.Join? && c.player.playerId in s.denied
    case AlreadyInRoom => c.Join? && c.player.playerId in s.members
    case RoomFull => c.Join? && !c.spectator && s.seats.first.Some? && s.seats.second.Some?
    case SpectatingDisabled => (c.Join? || c.SetSeat?) && !s.settings.allowSpectators
    case SpectatorLimit => (c.Join? || c.SetSeat?) && SpectatorCount(s) >= policy.maxSpectators
    case SeatOccupied => if c.Join? then c.preferredSeat.Some? && !SeatFree(s, c.preferredSeat.value)
                         else c.SetSeat? && c.seat.Some? && !SeatFree(s, c.seat.value)
    case InvalidRoomPhase =>
      if c.SetReady? then s.phase == Playing || s.phase == SeriesComplete
      else (c.Join? || c.SetSeat? || c.TransferHost?) && !AtRest(s)
    case RulesLocked => c.UpdateSettings? && !AtRest(s)
    case RulesInvalid =>
      && c.UpdateSettings?
      && (c.patch.unknownKey || (c.patch.targetWins.Some? && c.patch.targetWins.value !in {1, 2, 3, 5})
          || (!c.patch.allowSpectators.GetOr(s.settings.allowSpectators) && SpectatorCount(s) > 0))
    case TargetNotMember => (c.TransferHost? || c.Kick?) && c.target !in s.members
    case TargetNotConnected => c.TransferHost? && c.target in s.members && !IsConnected(s.members, c.target)
    case CannotKickSelf => c.Kick? && c.target == c.actor
    case CannotKickActivePlayer => c.Kick? && IsSeated(s, c.target) && !AtRest(s)
    case ActiveMatchError => (c.Leave? && IsSeated(s, c.actor) && s.phase == Playing) || (c.CloseRoom? && !AtRest(s))
    case SeriesNotComplete => c.Rematch? && s.phase != SeriesComplete
    case NoChange => IsAlreadySo(s, c)
    case RoomClosed => s.phase == Closed
    case ResumeExpired => false
  }

  /** Nothing would change. */
  predicate IsAlreadySo(s: RoomState, c: UserCommand) {
    match c
    case SetSeat(actor, _, seat) => if seat.None? then !IsSeated(s, actor) else s.seats.At(seat.value) == Some(actor)
    case SetReady(actor, _, ready) => forall seat: Seat :: s.seats.At(seat) == Some(actor) ==> s.ready.At(seat) == ready
    case Rematch(actor, _, vote) => forall seat: Seat :: s.seats.At(seat) == Some(actor) ==> s.rematchVotes.At(seat) == vote
    case UpdateSettings(_, _, patch) =>
      && patch.targetWins.GetOr(s.settings.targetWins) == s.settings.targetWins
      && patch.allowSpectators.GetOr(s.settings.allowSpectators) == s.settings.allowSpectators
    case TransferHost(_, _, target) => s.host == Some(target)
    case _ => false
  }

  predicate RefusedTruthfully(s: RoomState, c: UserCommand, policy: Policy, d: Decision) {
    !d.Ignore? && (d.Reject? ==> IsTrueOf(d.code, s, c, policy))
  }

  lemma JoinRefusals(s: RoomState, c: UserCommand, policy: Policy)
    requires PhaseOk(s) && s.phase != Closed && c.Join?
    ensures RefusedTruthfully(s, c, policy, JoinRoom(s, c, policy))
  {
    hide IsValidPlayer, SpectatorCount, ReadySeatOk, SeriesOk;
  }

  lemma SeatRefusals(s: RoomState, c: UserCommand, policy: Policy)
    requires PhaseOk(s) && s.phase != Closed && c.SetSeat?
    ensures RefusedTruthfully(s, c, policy, TakeSeat(s, c, policy))
  {
    SeatIsSeat(s, c.actor);
    hide SpectatorCount, SeriesOk, ResetCompetition, ReadySeatOk;
  }

  lemma ReadyRefusals(s: RoomState, atMs: int, c: UserCommand, policy: Policy)
    requires PhaseOk(s) && s.phase != Closed && c.SetReady?
    ensures RefusedTruthfully(s, c, policy, MakeReady(s, atMs, c, policy))
  {
    SeatIsSeat(s, c.actor);
    hide SeriesOk, CancelCountdown, BeginCountdown, BothConnected, ReadySeatOk;
  }

  lemma RematchRefusals(s: RoomState, atMs: int, c: UserCommand, policy: Policy)
    requires PhaseOk(s) && s.phase != Closed && c.Rematch?
    ensures RefusedTruthfully(s, c, policy, VoteRematch(s, atMs, c, policy))
  {
    SeatIsSeat(s, c.actor);
    hide SeriesOk, BeginCountdown, BothConnected, ReadySeatOk;
  }

  lemma OtherRefusals(s: RoomState, atMs: int, c: UserCommand, policy: Policy)
    requires PhaseOk(s) && s.phase != Closed && !c.Join? && !c.SetSeat? && !c.SetReady? && !c.Rematch?
    ensures RefusedTruthfully(s, c, policy, HandleUser(s, atMs, c, policy))
  {
    hide SpectatorCount, SeriesOk, RemoveMember, ResetCompetition, CloseState, ReadySeatOk;
    if c.Leave? {
      SeatIsSeat(s, c.actor);
    } else if c.Kick? {
      SeatIsSeat(s, c.target);
      RestIsUnlocked(s);
    }
  }

  lemma UserRefusals(s: RoomState, atMs: int, c: UserCommand, policy: Policy)
    requires PhaseOk(s) && s.phase != Closed
    ensures RefusedTruthfully(s, c, policy, HandleUser(s, atMs, c, policy))
  {
    hide JoinRoom, TakeSeat, MakeReady, VoteRematch, PhaseOk, RefusedTruthfully;
    match c
    case Join(_, _, _, _) => JoinRefusals(s, c, policy);
    case SetSeat(_, _, _) => SeatRefusals(s, c, policy);
    case SetReady(_, _, _) => ReadyRefusals(s, atMs, c, policy);
    case Rematch(_, _, _) => RematchRefusals(s, atMs, c, policy);
    case _ => OtherRefusals(s, atMs, c, policy);
  }

  /** A user's command is never passed over in silence, and whatever a refusal says is true. */
  lemma RefusalsAreTruthful(s: RoomState, c: Command, policy: Policy)
    requires Strong(policy.syntax, s) && c.User? && IsSafeTime(c.atMs) && IsValidPolicy(policy)
    ensures var t := TransitionRoom(s, c, policy); !t.Ignored? && (t.Rejected? ==> IsTrueOf(t.code, s, c.user, policy))
  {
    assert PhaseOk(s);
    hide HandleUser, PhaseOk, IsValidPolicy, RoomInvariant;
    if s.phase != Closed {
      UserRefusals(s, c.atMs, c.user, policy);
    }
  }

  // ---------------------------------------------------------------- countdowns and starts

  predicate BothPresent(s: RoomState) {
    && s.seats.first.Some? && s.seats.second.Some?
    && IsConnected(s.members, s.seats.first.value) && IsConnected(s.members, s.seats.second.value)
  }

  /**
   Readiness: from any reachable state, a player who becomes ready starts a countdown exactly when the other player is ready
   already and both are present; it ends the configured time later. Otherwise the room waits, with this one seat ready.
   */
  lemma CountdownsBeginExactlyWhenBothAreReady(s: RoomState, atMs: int, c: UserCommand, policy: Policy)
    requires Strong(policy.syntax, s) && c.SetReady? && c.ready && MakeReady(s, atMs, c, policy).Propose?
    ensures var d := MakeReady(s, atMs, c, policy);
            var seat := SeatOf(s, c.actor).value;
            && (d.next.phase == Countdown <==> s.ready.At(seat.Other()) && BothPresent(s))
            && (d.next.phase == Countdown ==>
                && d.next.countdown.Some? && d.next.countdown.value.startsAtMs == atMs + policy.countdownMs
                && d.effects == [CountdownSchedule(d.next.countdown.value.countdownId, atMs + policy.countdownMs)])
            && (d.next.phase != Countdown ==>
                d.next.phase == s.phase && d.next.ready.At(seat) && d.next.ready.At(seat.Other()) == s.ready.At(seat.Other()) && d.effects == [])
  {
    hide MembersOk, DeniedOk, HostOk, TimestampsOk, IdentityOk, ReadySeatOk;
  }

  /** A match starts exactly when its own countdown runs out, no sooner than announced, and under a well-formed id. */
  lemma MatchesStartExactlyWhenTheirCountdownElapses(s: RoomState, atMs: int, c: SystemCommand, policy: Policy)
    requires Strong(policy.syntax, s) && c.CountdownElapsed?
    ensures var d := StartMatch(s, atMs, c, policy);
            && (d.Propose? <==>
                && s.phase == Countdown && s.countdown.value.countdownId == c.countdownId
                && atMs >= s.countdown.value.startsAtMs && policy.syntax.safeId(c.matchId))
            && (d.Propose? ==>
                && d.next.phase == Playing && d.next.activeMatch.Some? && d.next.activeMatch.value.matchId == c.matchId
                && d.next.activeMatch.value.startedAtMs == atMs
                && d.effects == [MatchStart(c.matchId, s.series.value.seriesId, s.countdown.value.gameNumber, s.series.value.roster)])
  {
    if s.phase == Countdown {
      ReadyPlayersArePresent(s);
    }
    hide MembersOk, DeniedOk, HostOk, TimestampsOk, IdentityOk, ReadySeatOk;
  }

  lemma ReadyPlayersArePresent(s: RoomState)
    requires PhaseOk(s) && s.phase == Countdown
    ensures BothConnected(s)
  {
  }

  // ---------------------------------------------------------------- coming back

  /** Is this exactly the connection the notice speaks of? */
  predicate StillOn(s: RoomState, id: Id, connectionId: Id, epoch: int) {
    id in s.members && s.members[id].connection == Connected(connectionId, epoch)
  }

  predicate IsAway(s: RoomState, id: Id, epoch: int) {
    id in s.members && s.members[id].connection.Disconnected? && s.members[id].connection.epoch == epoch
  }

  /**
   Reconnection: a lost connection counts only if it is the member's current one, and gives a deadline, the longer one
   for a player in a match. The member may come back under a new connection strictly before the deadline, unless the match
   has already been asked to end, and the deadline takes effect exactly from then on, and only while the member is away.
   */
  lemma MembersMayReturnUntilTheDeadline(s: RoomState, atMs: int, c: SystemCommand, policy: Policy)
    ensures c.ConnectionLost? ==>
              var d := LoseConnection(s, atMs, c, policy);
              && (d.Propose? <==> StillOn(s, c.playerId, c.connectionId, c.expectedEpoch))
              && (d.Propose? ==>
                  var grace := if IsSeated(s, c.playerId) && s.phase == Playing then policy.matchReconnectGraceMs else policy.lobbyReconnectGraceMs;
                  && c.playerId in d.next.members
                  && d.next.members[c.playerId].connection == Disconnected(c.expectedEpoch, atMs + grace, false)
                  && d.effects != [] && d.effects[0] == ReconnectDeadline(c.playerId, atMs + grace))
    ensures c.ConnectionResumed? ==>
              var d := ResumeConnection(s, atMs, c, policy);
              && (d.Propose? <==>
                  && IsAway(s, c.playerId, c.expectedEpoch) && atMs < s.members[c.playerId].connection.reconnectDeadlineMs
                  && !s.members[c.playerId].connection.forfeitRequested
                  && policy.syntax.safeId(c.newConnectionId) && !ConnectionInUse(s.members, c.newConnectionId))
              && (d.Propose? ==>
                  c.playerId in d.next.members
                  && d.next.members[c.playerId].connection == Connected(c.newConnectionId, c.expectedEpoch + 1))
    ensures c.ReconnectElapsed? ==>
              (ExpireReconnect(s, atMs, c).Propose? ==>
                 IsAway(s, c.playerId, c.expectedEpoch) && atMs >= s.members[c.playerId].connection.reconnectDeadlineMs)
  {
    hide RemoveMember, ChooseHost;
  }

  // ---------------------------------------------------------------- staying out

  function Kicks(cs: seq<Command>): nat {
    if cs == [] then 0 else Kicks(cs[..|cs| - 1]) + (if cs[|cs| - 1].User? && cs[|cs| - 1].user.Kick? then 1 else 0)
  }

  /** The player is on the list of the denied, with fewer than `n` after. */
  predicate DeniedWithin(denied: seq<Id>, id: Id, n: nat) { exists i :: 0 <= i < |denied| && denied[i] == id && |denied| - 1 - i <= n }

  lemma DenyingMovesByOne(denied: seq<Id>, other: Id, id: Id, n: nat)
    requires DeniedWithin(denied, id, n) && n + 1 < MAX_DENIED_PLAYER_IDS
    ensures DeniedWithin(Deny(denied, other), id, n + 1)
  {
    var i :| 0 <= i < |denied| && denied[i] == id && |denied| - 1 - i <= n;
    var after := Deny(denied, other);
    if other !in denied {
      var grown := denied + [other];
      if |grown| <= MAX_DENIED_PLAYER_IDS {
        assert after[i] == id;
      } else {
        var cut := |grown| - MAX_DENIED_PLAYER_IDS;
        assert after[i - cut] == grown[i];
      }
    } else {
      assert after[i] == id;
    }
  }

  /** A proposal leaves the list of the denied alone, unless it kicks somebody. */
  predicate DeniedMoves(s: RoomState, d: Decision, kicked: Option<Id>) {
    d.Propose? ==> d.next.denied == s.denied || (kicked.Some? && d.next.denied == Deny(s.denied, kicked.value))
  }

  lemma RemovalDenies(s: RoomState, id: Id, deny: bool)
    ensures RemoveMember(s, id, deny).state.denied == if deny then Deny(s.denied, id) else s.denied
  {
    hide ChooseHost, Deny;
  }

  lemma UserDenies(s: RoomState, atMs: int, c: UserCommand, policy: Policy)
    ensures DeniedMoves(s, HandleUser(s, atMs, c, policy), if c.Kick? then Some(c.target) else None)
  {
    hide Deny, ChooseHost, RemoveMember, JoinRoom, SpectatorCount;
    match c
    case Join(_, _, _, _) => JoinProposal(s, c, policy);
    case Leave(actor, _) => RemovalDenies(s, actor, false);
    case SetSeat(_, _, _) =>
    case SetReady(_, _, _) =>
    case UpdateSettings(_, _, _) =>
    case TransferHost(_, _, _) =>
    case Kick(_, _, target) => RemovalDenies(s, target, true);
    case Rematch(_, _, _) =>
    case CloseRoom(_, _) =>
  }

  lemma SystemDenies(s: RoomState, atMs: int, c: SystemCommand, policy: Policy)
    ensures DeniedMoves(s, HandleSystem(s, atMs, c, policy), None)
  {
    hide Deny, ChooseHost, RemoveMember, RenewDeadlines;
    if c.ReconnectElapsed? {
      RemovalDenies(s, c.playerId, false);
    }
  }

  lemma DeniedStep(s: RoomState, c: Command, policy: Policy)
    ensures var t := After(s, c, policy);
            t.denied == s.denied || (c.User? && c.user.Kick? && t.denied == Deny(s.denied, c.user.target))
  {
    hide Deny, RoomInvariant, HandleUser, HandleSystem;
    CommitShape(s, c, policy);
    match c
    case User(atMs, user) => UserDenies(s, atMs, user, policy);
    case System(atMs, system) => SystemDenies(s, atMs, system, policy);
  }

  lemma {:induction false} DeniedStaysDenied(s: RoomState, cs: seq<Command>, id: Id, policy: Policy)
    requires DeniedWithin(s.denied, id, 0) && Kicks(cs) < MAX_DENIED_PLAYER_IDS
    ensures DeniedWithin(Run(s, cs, policy).denied, id, Kicks(cs))
    decreases |cs|
  {
    hide After, Deny;
    if cs != [] {
      var front, c := cs[..|cs| - 1], cs[|cs| - 1];
      DeniedStaysDenied(s, front, id, policy);
      DeniedStep(Run(s, front, policy), c, policy);
      if c.User? && c.user.Kick? {
        DenyingMovesByOne(Run(s, front, policy).denied, c.user.target, id, Kicks(front));
      }
    }
  }

  /**
   A player who was kicked stays out: whatever the room does afterwards, as long as fewer than sixty-four further kicks are
   asked for, it never admits that player again.
   */
  lemma KickedPlayersStayOut(s: RoomState, cs: seq<Command>, id: Id, join: Command, policy: Policy)
    requires s.denied != [] && s.denied[|s.denied| - 1] == id && Kicks(cs) < MAX_DENIED_PLAYER_IDS
    requires join.User? && join.user.Join? && join.user.player.playerId == id && !ExpiresFirst(Run(s, cs, policy), join)
    ensures !TransitionRoom(Run(s, cs, policy), join, policy).Committed?
  {
    assert DeniedWithin(s.denied, id, 0);
    DeniedStaysDenied(s, cs, id, policy);
    var t := Run(s, cs, policy);
    assert id in t.denied;
    hide Run;
    JoinProposal(t, join.user, policy);
  }
}

/** What a room announces: each effect of a commit, read off the command and the states before and after it. */
module RoomAnnouncements {
  import opened Wrappers
  import opened RoomModel
  import opened RoomInvariants
  import opened RoomReducer
  import opened RoomSafety
  import opened RoomTraces
  import opened RoomGuards
  import opened RoomPresence

  /** Why a countdown is called off: by a player, by a lost connection, or because a seat changes hands. */
  function CauseOf(c: Command): CancelReason {
    if c.User? && c.user.SetReady? then Unready
    else if c.System? && c.system.ConnectionLost? then Disconnect
    else RosterChanged
  }

  function ReasonOf(s: RoomState, c: Command): ClosedReason {
    if ExpiresFirst(s, c) then Expired
    else if c.User? then HostClosed
    else if c.system.AdminClose? then ServerShutdown
    else Expired
  }

  /** A player whose absence begins, or is given a new deadline because a match is over. */
  predicate IsAwaited(s: RoomState, c: Command, id: Id) {
    && c.System?
    && (|| (c.system.ConnectionLost? && c.system.playerId == id)
        || (c.system.MatchFinished? && IsSeated(s, id)))
  }

  predicate IsNotice(c: Command, id: Id) {
    c.System? && (c.system.ConnectionLost? || c.system.ConnectionReplace?) && c.system.playerId == id
  }

  /** Is this what happened between `s` and `t`? */
  predicate Happened(s: RoomState, t: RoomState, c: Command, e: Effect) {
    match e
    case StateChanged(_, _) => false
    case CountdownSchedule(id, at) =>
      && s.phase != Countdown && t.phase == Countdown
      && t.countdown.Some? && t.countdown.value.countdownId == id && t.countdown.value.startsAtMs == at
    case CountdownCancel(id, reason) =>
      && s.phase == Countdown && (t.phase == Lobby || t.phase == BetweenGames)
      && s.countdown.Some? && s.countdown.value.countdownId == id && reason == CauseOf(c)
    case MatchStart(matchId, seriesId, game, roster) =>
      && s.phase == Countdown && t.phase == Playing
      && t.activeMatch.Some? && t.activeMatch.value.matchId == matchId
      && t.activeMatch.value.gameNumber == game && t.activeMatch.value.participants == roster
      && t.series.Some? && t.series.value.seriesId == seriesId
    case ClearInput(id) => IsNotice(c, id) && s.phase == Playing && IsSeated(s, id)
    case DisconnectForfeit(matchId, loser, winner) =>
      && c.System? && c.system.ReconnectElapsed? && c.system.playerId == loser
      && s.phase == Playing && IsSeated(s, loser) && s.activeMatch.Some? && s.activeMatch.value.matchId == matchId
      && OpponentOf(s, loser).Some?
      && winner == (if IsConnected(s.members, OpponentOf(s, loser).value) then OpponentOf(s, loser) else None)
    case ReconnectDeadline(id, at) =>
      IsAwaited(s, c, id) && id in t.members && t.members[id].connection == Disconnected(t.members[id].connection.epoch, at, false)
    case ReconnectExpired(id) =>
      && c.System? && c.system.ReconnectElapsed? && c.system.playerId == id
      && t.phase != Closed && id !in t.members
    case Kicked(id) => c.User? && c.user.Kick? && c.user.target == id && t.phase != Closed
    case RoomClosedEffect(reason) => t.phase == Closed && t.closedReason == Some(reason) && reason == ReasonOf(s, c)
  }

  predicate Tells(s: RoomState, c: Command, d: Decision, e: Effect) {
    d.Propose? ==> (e in d.effects <==> Happened(s, d.next, c, e))
  }

  lemma JoiningTells(s: RoomState, c: Command, policy: Policy, e: Effect)
    requires PhaseOk(s) && s.phase != Closed && c.User? && c.user.Join? && !ExpiresFirst(s, c)
    ensures Tells(s, c, JoinRoom(s, c.user, policy), e)
  {
    hide IsValidPlayer, SpectatorCount, ReadySeatOk, SeriesOk;
  }

  lemma RemovingTells(s: RoomState, id: Id, deny: bool)
    requires PhaseOk(s) && s.phase != Closed && id in s.members
    ensures var removed := RemoveMember(s, id, deny);
            && id !in removed.state.members
            && removed.state.phase == (if IsSeated(s, id) then Lobby else s.phase)
            && (!IsSeated(s, id) ==> removed.state.countdown == s.countdown)
            && removed.effects == if IsSeated(s, id) && s.phase == Countdown
                                  then [CountdownCancel(s.countdown.value.countdownId, RosterChanged)] else []
  {
    hide ChooseHost, ReadySeatOk, SeriesOk, Deny;
    SeatIsSeat(s, id);
  }

  lemma LeavingTells(s: RoomState, c: Command, policy: Policy, e: Effect)
    requires PhaseOk(s) && s.phase != Closed && c.User? && (c.user.Leave? || c.user.Kick?) && !ExpiresFirst(s, c)
    ensures Tells(s, c, HandleUser(s, c.atMs, c.user, policy), e)
  {
    hide RemoveMember, ReadySeatOk, SeriesOk, NeverBothReady, SeriesStillOpen, IsTargetWins;
    hide JoinRoom, TakeSeat, MakeReady, ChangeSettings, PassHost, VoteRematch, HostCloses;
    var id := if c.user.Leave? then c.user.actor else c.user.target;
    if id in s.members {
      RemovingTells(s, id, c.user.Kick?);
      SeatIsSeat(s, id);
    }
  }

  lemma ReadyTells(s: RoomState, c: Command, policy: Policy, e: Effect)
    requires PhaseOk(s) && s.phase != Closed && c.User? && c.user.SetReady? && !ExpiresFirst(s, c)
    ensures Tells(s, c, MakeReady(s, c.atMs, c.user, policy), e)
  {
    hide ReadySeatOk, SeriesOk, CreateSeries;
  }

  lemma RematchTells(s: RoomState, c: Command, policy: Policy, e: Effect)
    requires PhaseOk(s) && s.phase != Closed && c.User? && c.user.Rematch? && !ExpiresFirst(s, c)
    ensures Tells(s, c, VoteRematch(s, c.atMs, c.user, policy), e)
  {
    hide ReadySeatOk, SeriesOk, CreateSeries;
  }

  lemma UserTells(s: RoomState, c: Command, policy: Policy, e: Effect)
    requires PhaseOk(s) && s.phase != Closed && c.User? && !ExpiresFirst(s, c)
    ensures Tells(s, c, HandleUser(s, c.atMs, c.user, policy), e)
  {
    hide JoinRoom, MakeReady, VoteRematch, LeaveRoom, KickMember, SpectatorCount, ReadySeatOk, SeriesOk;
    match c.user
    case Join(_, _, _, _) => JoiningTells(s, c, policy, e);
    case Leave(_, _) => LeavingTells(s, c, policy, e);
    case Kick(_, _, _) => LeavingTells(s, c, policy, e);
    case SetReady(_, _, _) => ReadyTells(s, c, policy, e);
    case Rematch(_, _, _) => RematchTells(s, c, policy, e);
    case _ =>
  }

  lemma NoticeTells(s: RoomState, c: Command, policy: Policy, e: Effect)
    requires PhaseOk(s) && s.phase != Closed && c.System? && !ExpiresFirst(s, c)
    requires c.system.ConnectionLost? || c.system.ConnectionReplace? || c.system.ConnectionResumed?
    ensures Tells(s, c, HandleSystem(s, c.atMs, c.system, policy), e)
  {
    hide ReadySeatOk, SeriesOk, NeverBothReady, SeriesStillOpen, IsTargetWins;
  }

  lemma DeadlineTells(s: RoomState, c: Command, policy: Policy, e: Effect)
    requires PhaseOk(s) && s.phase != Closed && c.System? && c.system.ReconnectElapsed? && !ExpiresFirst(s, c)
    ensures Tells(s, c, ExpireReconnect(s, c.atMs, c.system), e)
  {
    hide RemoveMember, ReadySeatOk, SeriesOk, NeverBothReady, SeriesStillOpen, IsTargetWins;
    var id := c.system.playerId;
    if id in s.members {
      RemovingTells(s, id, false);
      SeatIsSeat(s, id);
    }
  }

  lemma ResultTells(s: RoomState, c: Command, policy: Policy, e: Effect)
    requires PhaseOk(s) && s.phase != Closed && c.System? && c.system.MatchFinished? && !ExpiresFirst(s, c)
    ensures Tells(s, c, FinishMatch(s, c.atMs, c.system, policy), e)
  {
    hide ReadySeatOk, SeriesOk, ScoreGame;
    hide RenewDeadlines;
    if FinishMatch(s, c.atMs, c.system, policy).Propose? {
      var roster := s.activeMatch.value.participants;
      RenewalsTell(s.members, roster.first, roster.second, c.atMs + policy.lobbyReconnectGraceMs, e);
    }
  }

  lemma RenewalsTell(members: Members, first: Id, second: Id, deadline: int, e: Effect)
    requires first != second
    ensures var r := RenewDeadlines(members, [first, second], deadline);
            && (e in r.1 <==>
                && e.ReconnectDeadline? && e.deadlineMs == deadline && (e.playerId == first || e.playerId == second)
                && e.playerId in members && members[e.playerId].connection.Disconnected?)
            && (forall id | id in members :: id in r.0)
            && (forall id | id in members && (id == first || id == second) ::
                  if members[id].connection.Connected? then r.0[id] == members[id]
                  else r.0[id].connection == Disconnected(members[id].connection.epoch, deadline, false))
  {
    RenewingTwo(members, first, second, deadline);
  }

  lemma RenewingTwo(members: Members, first: Id, second: Id, deadline: int)
    ensures var once := RenewDeadline(members, first, deadline);
            var twice := RenewDeadline(once.0, second, deadline);
            RenewDeadlines(members, [first, second], deadline) == (twice.0, once.1 + twice.1)
  {
    var once := RenewDeadline(members, first, deadline);
    assert [first, second][..1] == [first] && [first][..0] == [] && [] + once.1 == once.1;
    assert RenewDeadlines(members, [first], deadline) == once;
  }

  lemma SystemTells(s: RoomState, c: Command, policy: Policy, e: Effect)
    requires PhaseOk(s) && s.phase != Closed && c.System? && !ExpiresFirst(s, c)
    ensures Tells(s, c, HandleSystem(s, c.atMs, c.system, policy), e)
  {
    hide LoseConnection, ResumeConnection, ReplaceConnection, ExpireReconnect, FinishMatch, ReadySeatOk, SeriesOk;
    match c.system
    case ReconnectElapsed(_, _) => DeadlineTells(s, c, policy, e);
    case MatchFinished(_, _, _, _) => ResultTells(s, c, policy, e);
    case RoomExpired =>
    case AdminClose =>
    case CountdownElapsed(_, _) => ElapsedTells(s, c, policy, e);
    case _ => NoticeTells(s, c, policy, e);
  }

  lemma ElapsedTells(s: RoomState, c: Command, policy: Policy, e: Effect)
    requires PhaseOk(s) && s.phase != Closed && c.System? && c.system.CountdownElapsed? && !ExpiresFirst(s, c)
    ensures Tells(s, c, StartMatch(s, c.atMs, c.system, policy), e)
  {
    hide SeriesOk;
  }

  /**
   Effects tell exactly what happened: an effect is among those of a commit if and only if it is the number of the commit
   or describes what the commit did, so nothing is announced that did not happen, and nothing happens unannounced.
   */
  lemma EffectsTellExactlyWhatHappened(s: RoomState, c: Command, policy: Policy, e: Effect)
    requires Strong(policy.syntax, s) && s.phase != Closed && TransitionRoom(s, c, policy).Committed?
    ensures var t := TransitionRoom(s, c, policy);
            e in t.effects <==>
              e == StateChanged(t.state.revision, t.state.presenceSequence) || Happened(s, t.state, c, e)
  {
    assert PhaseOk(s);
    hide HandleUser, HandleSystem, RoomInvariant, PhaseOk, Revised;
    CommitShape(s, c, policy);
    if !ExpiresFirst(s, c) {
      if c.User? {
        UserTells(s, c, policy, e);
      } else {
        SystemTells(s, c, policy, e);
      }
    }
    RevisingTells(s, Decide(s, c, policy), c, policy, e);
  }

  lemma RevisingTells(s: RoomState, d: Decision, c: Command, policy: Policy, e: Effect)
    ensures d.Propose? ==>
              (Happened(s, d.next, c, e) <==> Happened(s, Revised(s, d.next, c.atMs, policy, d.controlRevision), c, e))
  {
    hide IsAwaited, IsNotice, CauseOf, ReasonOf, OpponentOf;
  }
}

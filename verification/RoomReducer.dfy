/**
 The room reducer: shared operations, the three command handlers, dispatch and creation.
 Every function returns fresh records, as the reducer does.
 */
module RoomReducer {
  import opened Wrappers
  import opened RoomModel
  import opened RoomInvariants

  datatype Change = Change(state: RoomState, effects: seq<Effect>)

  /**
   How a handler ends: every one of them ends in a commit of a proposed state, a rejection or a
   dismissal. `Fail` is the error raised when a series is created without two seated players.
   */
  datatype Decision =
    | Propose(next: RoomState, effects: seq<Effect>, controlRevision: bool)
    | Reject(code: ErrorCode)
    | Ignore(reason: StaleReason)
    | Fail

  function Max(a: int, b: int): int { if a < b then b else a }

  function Min(a: int, b: int): int { if a < b then a else b }

  // ---------------------------------------------------------------- operations

  function ExpiryFor(s: RoomState, nowMs: int, policy: Policy): int {
    if s.phase.Closed? then nowMs
    else if !AnyConnected(s.members) then Min(s.absoluteExpiresAtMs, nowMs + policy.emptyTtlMs)
    else if s.phase.SeriesComplete? then Min(s.absoluteExpiresAtMs, nowMs + policy.seriesCompleteTtlMs)
    else if s.phase.Playing? then s.absoluteExpiresAtMs
    else Min(s.absoluteExpiresAtMs, nowMs + policy.lobbyIdleTtlMs)
  }

  /** The revised state a commit proposes, before its invariant check. */
  function Revised(previous: RoomState, proposed: RoomState, atMs: int, policy: Policy, controlRevision: bool): RoomState {
    var effectiveNow := Max(previous.updatedAtMs, atMs);
    proposed.(
      revision := previous.revision + (if controlRevision then 1 else 0),
      presenceSequence := previous.presenceSequence + 1,
      updatedAtMs := effectiveNow,
      expiresAtMs := ExpiryFor(proposed, effectiveNow, policy))
  }

  function Commit(
    previous: RoomState, proposed: RoomState, atMs: int, effects: seq<Effect>, policy: Policy, controlRevision: bool
  ): Transition {
    var revised := Revised(previous, proposed, atMs, policy, controlRevision);
    if RoomInvariant(policy.syntax, revised)
    then Committed(revised, effects + [StateChanged(revised.revision, revised.presenceSequence)])
    else Thrown
  }

  function ActorError(s: RoomState, actor: Id): Option<ErrorCode> {
    if actor !in s.members then Some(NotInRoom)
    else if !IsConnected(s.members, actor) then Some(NotConnected)
    else None
  }

  function HostError(s: RoomState, actor: Id): Option<ErrorCode> {
    if ActorError(s, actor).Some? then ActorError(s, actor)
    else if s.host == Some(actor) then None
    else Some(NotHost)
  }

  function CancelEffect(s: RoomState, reason: CancelReason): seq<Effect> {
    if s.countdown.None? then [] else [CountdownCancel(s.countdown.value.countdownId, reason)]
  }

  function ResetCompetition(s: RoomState): RoomState {
    s.(phase := Lobby, ready := Pair(false, false), rematchVotes := Pair(false, false), rulesStatus := Draft,
       countdown := None, series := None, activeMatch := None)
  }

  function CancelCountdown(s: RoomState, reason: CancelReason): Change {
    var back := s.countdown.Some? && s.countdown.value.origin.FromBetweenGames?
                && s.series.Some? && !s.series.value.completed;
    Change(
      s.(phase := if back then BetweenGames else Lobby,
         ready := Pair(false, false),
         rematchVotes := Pair(false, false),
         rulesStatus := if back then Locked else Draft,
         countdown := None,
         series := if back then s.series else None,
         activeMatch := None),
      CancelEffect(s, reason))
  }

  /** None stands for the error raised when a seat is empty. */
  function CreateSeries(s: RoomState): Option<Series> {
    match RosterOf(s)
    case None => None
    case Some(roster) =>
      Some(Series((s.roomId, s.nextSeriesNumber), roster, s.settings.targetWins, Pair(0, 0), 0, false, None))
  }

  function BeginCountdown(s: RoomState, atMs: int, origin: Origin, policy: Policy): Option<Change> {
    var continued := origin.FromBetweenGames? && s.series.Some?;
    var series := if continued then s.series else CreateSeries(s);
    if series.None? then None
    else
      var id := s.nextCountdownNumber;
      var startsAtMs := atMs + policy.countdownMs;
      Some(Change(
        s.(phase := Countdown,
           rulesStatus := Locked,
           countdown := Some(CountdownInfo(id, startsAtMs, origin, series.value.gamesPlayed + 1)),
           series := series,
           activeMatch := None,
           rematchVotes := Pair(false, false),
           nextCountdownNumber := id + 1,
           nextSeriesNumber := if continued then s.nextSeriesNumber else s.nextSeriesNumber + 1),
        [CountdownSchedule(id, startsAtMs)]))
  }

  /** Appends `id` to the bounded denylist, dropping the oldest entry beyond the bound. */
  function Deny(denied: seq<Id>, id: Id): seq<Id> {
    if id in denied then denied
    else
      var grown := denied + [id];
      if |grown| <= MAX_DENIED_PLAYER_IDS then grown else grown[|grown| - MAX_DENIED_PLAYER_IDS..]
  }

  function VacateSeat(seats: Pair<Option<Id>>, seat: Option<Seat>): Pair<Option<Id>> {
    if seat.None? then seats else seats.With(seat.value, None)
  }

  /** What remains after a member is taken out, before any change of host. */
  function Vacated(s: RoomState, id: Id, deny: bool): RoomState {
    var removed := s.(
      members := s.members - {id},
      seats := VacateSeat(s.seats, SeatOf(s, id)),
      denied := if deny then Deny(s.denied, id) else s.denied);
    if SeatOf(s, id).Some? then ResetCompetition(removed) else removed
  }

  function RemoveMember(s: RoomState, id: Id, deny: bool): Change {
    var vacated := Vacated(s, id, deny);
    Change(
      if s.host == Some(id) then vacated.(host := ChooseHost(vacated)) else vacated,
      if SeatOf(s, id).Some? then CancelEffect(s, RosterChanged) else [])
  }

  function CloseState(s: RoomState, reason: ClosedReason): RoomState {
    s.(phase := Closed, members := map[], seats := Pair(None, None), host := None, ready := Pair(false, false),
       rematchVotes := Pair(false, false), rulesStatus := Draft, countdown := None, series := None,
       activeMatch := None, closedReason := Some(reason))
  }

  // ---------------------------------------------------------------- user commands

  function JoinRoom(s: RoomState, c: UserCommand, policy: Policy): Decision
    requires c.Join?
  {
    var id := c.player.playerId;
    if s.phase.Closed? then Reject(RoomClosed)
    else if !IsValidPlayer(policy.syntax, c.player) || !policy.syntax.safeId(c.connectionId) then Reject(InvalidCommand)
    else if id in s.denied then Reject(RoomKicked)
    else if id in s.members then Reject(AlreadyInRoom)
    else
      var joined := s.(
        members := s.members[id := Member(c.player, s.nextJoinedOrdinal, Connected(c.connectionId, 0))],
        nextJoinedOrdinal := s.nextJoinedOrdinal + 1);
      if c.spectator then
        if !s.settings.allowSpectators then Reject(SpectatingDisabled)
        else if SpectatorCount(s) >= policy.maxSpectators then Reject(SpectatorLimit)
        else Propose(WithHost(joined, id), [], true)
      else if !s.phase.Lobby? && !s.phase.SeriesComplete? then Reject(InvalidRoomPhase)
      else if c.preferredSeat.Some? && s.seats.At(c.preferredSeat.value).Some? then Reject(SeatOccupied)
      else
        var seat := c.preferredSeat.GetOr(if s.seats.first.None? then First else Second);
        if s.seats.At(seat).Some? then Reject(RoomFull)
        else
          var seated := ResetCompetition(joined.(seats := s.seats.With(seat, Some(id))));
          Propose(WithHost(seated, id), CancelEffect(s, RosterChanged), true)
  }

  /** A hostless room takes `id` as its host. */
  function WithHost(s: RoomState, id: Id): RoomState {
    if s.host.None? then s.(host := Some(id)) else s
  }

  function LeaveRoom(s: RoomState, c: UserCommand): Decision
    requires c.Leave?
  {
    if c.expectedRevision != s.revision then Reject(RevisionConflict)
    else if ActorError(s, c.actor).Some? then Reject(ActorError(s, c.actor).value)
    else if SeatOf(s, c.actor).Some? && s.phase.Playing? then Reject(ActiveMatchError)
    else
      var removed := RemoveMember(s, c.actor, false);
      Propose(removed.state, removed.effects, true)
  }

  function TakeSeat(s: RoomState, c: UserCommand, policy: Policy): Decision
    requires c.SetSeat?
  {
    if c.expectedRevision != s.revision then Reject(RevisionConflict)
    else if ActorError(s, c.actor).Some? then Reject(ActorError(s, c.actor).value)
    else if !s.phase.Lobby? && !s.phase.SeriesComplete? then Reject(InvalidRoomPhase)
    else
      var current := SeatOf(s, c.actor);
      if current == c.seat then Reject(NoChange)
      else if c.seat.None? && !s.settings.allowSpectators then Reject(SpectatingDisabled)
      else if c.seat.None? && SpectatorCount(s) >= policy.maxSpectators then Reject(SpectatorLimit)
      else if c.seat.Some? && s.seats.At(c.seat.value).Some? then Reject(SeatOccupied)
      else
        var vacated := VacateSeat(s.seats, current);
        var seats := if c.seat.None? then vacated else vacated.With(c.seat.value, Some(c.actor));
        Propose(ResetCompetition(s.(seats := seats)), CancelEffect(s, RosterChanged), true)
  }

  predicate BothConnected(s: RoomState) {
    && s.seats.first.Some? && s.seats.second.Some?
    && IsConnected(s.members, s.seats.first.value)
    && IsConnected(s.members, s.seats.second.value)
  }

  function MakeReady(s: RoomState, atMs: int, c: UserCommand, policy: Policy): Decision
    requires c.SetReady?
  {
    if c.expectedRevision != s.revision then Reject(RevisionConflict)
    else if ActorError(s, c.actor).Some? then Reject(ActorError(s, c.actor).value)
    else if SeatOf(s, c.actor).None? then Reject(NotSeated)
    else if !s.phase.Lobby? && !s.phase.BetweenGames? && !s.phase.Countdown? then Reject(InvalidRoomPhase)
    else if s.phase.Countdown? then
      if c.ready then Reject(NoChange)
      else
        var cancelled := CancelCountdown(s, Unready);
        Propose(cancelled.state, cancelled.effects, true)
    else
      var seat := SeatOf(s, c.actor).value;
      if s.ready.At(seat) == c.ready then Reject(NoChange)
      else
        var proposed := s.(ready := s.ready.With(seat, c.ready));
        if proposed.ready == Pair(true, true) && BothConnected(proposed) then
          match BeginCountdown(proposed, atMs, if s.phase.Lobby? then FromLobby else FromBetweenGames, policy)
          case None => Fail
          case Some(started) => Propose(started.state, started.effects, true)
        else Propose(proposed, [], true)
  }

  function ChangeSettings(s: RoomState, c: UserCommand): Decision
    requires c.UpdateSettings?
  {
    if c.expectedRevision != s.revision then Reject(RevisionConflict)
    else if HostError(s, c.actor).Some? then Reject(HostError(s, c.actor).value)
    else if !s.phase.Lobby? && !s.phase.SeriesComplete? then Reject(RulesLocked)
    else if c.patch.unknownKey || (c.patch.targetWins.Some? && !IsTargetWins(c.patch.targetWins.value)) then
      Reject(RulesInvalid)
    else
      var settings := Settings(
        c.patch.targetWins.GetOr(s.settings.targetWins),
        c.patch.allowSpectators.GetOr(s.settings.allowSpectators));
      if !settings.allowSpectators && SpectatorCount(s) > 0 then Reject(RulesInvalid)
      else if settings == s.settings then Reject(NoChange)
      else Propose(ResetCompetition(s.(settings := settings)), [], true)
  }

  function PassHost(s: RoomState, c: UserCommand): Decision
    requires c.TransferHost?
  {
    if c.expectedRevision != s.revision then Reject(RevisionConflict)
    else if HostError(s, c.actor).Some? then Reject(HostError(s, c.actor).value)
    else if !s.phase.Lobby? && !s.phase.SeriesComplete? then Reject(InvalidRoomPhase)
    else if c.target !in s.members then Reject(TargetNotMember)
    else if !IsConnected(s.members, c.target) then Reject(TargetNotConnected)
    else if s.host == Some(c.target) then Reject(NoChange)
    else Propose(s.(host := Some(c.target)), [], true)
  }

  function KickMember(s: RoomState, c: UserCommand): Decision
    requires c.Kick?
  {
    if c.expectedRevision != s.revision then Reject(RevisionConflict)
    else if HostError(s, c.actor).Some? then Reject(HostError(s, c.actor).value)
    else if c.target == c.actor then Reject(CannotKickSelf)
    else if c.target !in s.members then Reject(TargetNotMember)
    else if SeatOf(s, c.target).Some? &&
            (s.rulesStatus.Locked? || s.phase.Countdown? || s.phase.Playing? || s.phase.BetweenGames?) then
      Reject(CannotKickActivePlayer)
    else
      var removed := RemoveMember(s, c.target, true);
      Propose(removed.state, removed.effects + [Kicked(c.target)], true)
  }

  function VoteRematch(s: RoomState, atMs: int, c: UserCommand, policy: Policy): Decision
    requires c.Rematch?
  {
    if c.expectedRevision != s.revision then Reject(RevisionConflict)
    else if ActorError(s, c.actor).Some? then Reject(ActorError(s, c.actor).value)
    else if SeatOf(s, c.actor).None? then Reject(NotSeated)
    else if !s.phase.SeriesComplete? || s.series.None? || !s.series.value.completed then Reject(SeriesNotComplete)
    else
      var seat := SeatOf(s, c.actor).value;
      if s.rematchVotes.At(seat) == c.accepted then Reject(NoChange)
      else
        var proposed := s.(rematchVotes := s.rematchVotes.With(seat, c.accepted));
        if proposed.rematchVotes == Pair(true, true) && BothConnected(s) then
          match BeginCountdown(proposed.(ready := Pair(true, true)), atMs, FromSeriesComplete, policy)
          case None => Fail
          case Some(started) => Propose(started.state, started.effects, true)
        else Propose(proposed, [], true)
  }

  function HostCloses(s: RoomState, c: UserCommand): Decision
    requires c.CloseRoom?
  {
    if c.expectedRevision != s.revision then Reject(RevisionConflict)
    else if HostError(s, c.actor).Some? then Reject(HostError(s, c.actor).value)
    else if !s.phase.Lobby? && !s.phase.SeriesComplete? then Reject(ActiveMatchError)
    else Propose(CloseState(s, HostClosed), [RoomClosedEffect(HostClosed)], true)
  }

  // ---------------------------------------------------------------- presence commands

  /** Replaces the connection of one member. */
  function WithConnection(s: RoomState, id: Id, connection: Connection): RoomState
    requires id in s.members
  {
    s.(members := s.members[id := s.members[id].(connection := connection)])
  }

  /** The state a lost connection proposes, before any countdown is cancelled. */
  function Away(s: RoomState, id: Id, deadline: int): RoomState
    requires id in s.members
  {
    var seat := SeatOf(s, id);
    var away := WithConnection(s, id, Disconnected(s.members[id].connection.epoch, deadline, false));
    var unready := if seat.Some? && s.ready.At(seat.value)
                   then away.(ready := s.ready.With(seat.value, false)) else away;
    if seat.Some? && s.phase.SeriesComplete? && s.rematchVotes.At(seat.value)
    then unready.(rematchVotes := s.rematchVotes.With(seat.value, false)) else unready
  }

  function ReconnectGrace(s: RoomState, id: Id, policy: Policy): int {
    if SeatOf(s, id).Some? && s.phase.Playing? then policy.matchReconnectGraceMs else policy.lobbyReconnectGraceMs
  }

  function LoseConnection(s: RoomState, atMs: int, c: SystemCommand, policy: Policy): Decision
    requires c.ConnectionLost?
  {
    if c.playerId !in s.members
       || !s.members[c.playerId].connection.Connected?
       || s.members[c.playerId].connection.connectionId != c.connectionId
       || s.members[c.playerId].connection.epoch != c.expectedEpoch
    then Ignore(StaleConnection)
    else
      var seat := SeatOf(s, c.playerId);
      var deadline := atMs + ReconnectGrace(s, c.playerId, policy);
      var away := Away(s, c.playerId, deadline);
      var effects := [ReconnectDeadline(c.playerId, deadline)];
      if s.phase.Countdown? && seat.Some? then
        var cancelled := CancelCountdown(away, Disconnect);
        Propose(cancelled.state, effects + cancelled.effects, true)
      else if s.phase.Playing? && seat.Some? then
        Propose(away, effects + [ClearInput(c.playerId)], true)
      else Propose(away, effects, seat.Some?)
  }

  function ResumeConnection(s: RoomState, atMs: int, c: SystemCommand, policy: Policy): Decision
    requires c.ConnectionResumed?
  {
    if c.playerId !in s.members
       || !s.members[c.playerId].connection.Disconnected?
       || s.members[c.playerId].connection.epoch != c.expectedEpoch
    then Ignore(StaleConnection)
    else
      var member := s.members[c.playerId];
      if atMs >= member.connection.reconnectDeadlineMs || member.connection.forfeitRequested then
        Reject(ResumeExpired)
      else if !policy.syntax.safeId(c.newConnectionId) || ConnectionInUse(s.members, c.newConnectionId) then
        Reject(InvalidCommand)
      else
        var back := WithConnection(s, c.playerId, Connected(c.newConnectionId, member.connection.epoch + 1));
        var proposed := WithHost(back, c.playerId);
        Propose(proposed, [], SeatOf(s, c.playerId).Some? || proposed.host != s.host)
  }

  function ReplaceConnection(s: RoomState, c: SystemCommand, policy: Policy): Decision
    requires c.ConnectionReplace?
  {
    if c.playerId !in s.members
       || !s.members[c.playerId].connection.Connected?
       || s.members[c.playerId].connection.connectionId != c.expectedConnectionId
       || s.members[c.playerId].connection.epoch != c.expectedEpoch
    then Ignore(StaleConnection)
    else if !policy.syntax.safeId(c.newConnectionId) || c.newConnectionId == c.expectedConnectionId
            || ConnectionInUse(s.members, c.newConnectionId)
    then Reject(InvalidCommand)
    else
      var member := s.members[c.playerId];
      Propose(WithConnection(s, c.playerId, Connected(c.newConnectionId, member.connection.epoch + 1)), if s.phase.Playing? && SeatOf(s, c.playerId).Some? then [ClearInput(c.playerId)] else [], false)
  }

  function ExpireReconnect(s: RoomState, atMs: int, c: SystemCommand): Decision
    requires c.ReconnectElapsed?
  {
    if c.playerId !in s.members
       || !s.members[c.playerId].connection.Disconnected?
       || s.members[c.playerId].connection.epoch != c.expectedEpoch
    then Ignore(StaleConnection)
    else
      var member := s.members[c.playerId];
      var seat := SeatOf(s, c.playerId);
      if atMs < member.connection.reconnectDeadlineMs then Ignore(StaleTimer)
      else if seat.Some? && s.phase.Playing? && s.activeMatch.Some? then
        if member.connection.forfeitRequested || s.activeMatch.value.resolutionRequested then Ignore(StaleTimer)
        else
          var opponent := s.seats.At(seat.value.Other());
          var winner := if opponent.Some? && IsConnected(s.members, opponent.value) then opponent else None;
          Propose(WithConnection(s, c.playerId, member.connection.(forfeitRequested := true)).(
              activeMatch := Some(s.activeMatch.value.(resolutionRequested := true))), [DisconnectForfeit(s.activeMatch.value.matchId, c.playerId, winner)], true)
      else
        var removed := RemoveMember(s, c.playerId, false);
        Propose(removed.state, removed.effects + [ReconnectExpired(c.playerId)], true)
  }

  function ExpireRoom(s: RoomState, atMs: int): Decision {
    if s.phase.Closed? || atMs < s.expiresAtMs then Ignore(StaleTimer)
    else Propose(CloseState(s, Expired), [RoomClosedEffect(Expired)], true)
  }

  function AdminCloses(s: RoomState): Decision {
    if s.phase.Closed? then Ignore(StaleTimer)
    else Propose(CloseState(s, ServerShutdown), [RoomClosedEffect(ServerShutdown)], true)
  }

  // ---------------------------------------------------------------- match commands

  function StartMatch(s: RoomState, atMs: int, c: SystemCommand, policy: Policy): Decision
    requires c.CountdownElapsed?
  {
    if !s.phase.Countdown? || s.countdown.None? || s.countdown.value.countdownId != c.countdownId then
      Ignore(StaleTimer)
    else if atMs < s.countdown.value.startsAtMs then Ignore(StaleTimer)
    else if s.ready != Pair(true, true) || !BothConnected(s) || s.series.None? then
      var cancelled := CancelCountdown(s, RosterChanged);
      Propose(cancelled.state, cancelled.effects, true)
    else if !policy.syntax.safeId(c.matchId) then Reject(InvalidCommand)
    else
      var roster := RosterOf(s).value;
      var gameNumber := s.countdown.value.gameNumber;
      Propose(s.(phase := Playing, ready := Pair(false, false), countdown := None,
           activeMatch := Some(ActiveMatch(c.matchId, gameNumber, roster, atMs, false))), [MatchStart(c.matchId, s.series.value.seriesId, gameNumber, roster)], true)
  }

  predicate FinishIsInvalid(m: ActiveMatch, c: SystemCommand)
    requires c.MatchFinished?
  {
    || !IsSafeTime(c.serverFrame)
    || ((c.reason.Draw? || c.reason.SimultaneousTopout?) && c.winner.Some?)
    || ((c.reason.Topout? || c.reason.Forfeit?) && c.winner.None?)
    || (c.winner.Some? && c.winner.value != m.participants.first && c.winner.value != m.participants.second)
  }

  /** The series after one more game, won by `winner` if there is one. */
  function ScoreGame(series: Series, winner: Option<Id>): Series {
    var wins :=
      if winner.None? then series.wins
      else if series.roster.first == winner.value then series.wins.With(First, series.wins.first + 1)
      else series.wins.With(Second, series.wins.second + 1);
    var completed := wins.first >= series.targetWins || wins.second >= series.targetWins;
    series.(
      wins := wins,
      gamesPlayed := series.gamesPlayed + 1,
      completed := completed,
      winnerPlayerId :=
        if !completed then None
        else if wins.first >= series.targetWins then Some(series.roster.first)
        else Some(series.roster.second))
  }

  /** A participant who is away gets a fresh lobby deadline and loses the pending forfeit mark. */
  function RenewDeadline(members: Members, id: Id, deadline: int): (Members, seq<Effect>) {
    if id in members && members[id].connection.Disconnected? then
      (members[id := members[id].(connection :=
         Disconnected(members[id].connection.epoch, deadline, false))],
       [ReconnectDeadline(id, deadline)])
    else (members, [])
  }

  /** `RenewDeadline` over a list of participants, left to right. */
  function RenewDeadlines(members: Members, ids: seq<Id>, deadline: int): (Members, seq<Effect>) {
    if ids == [] then (members, [])
    else
      var rest := RenewDeadlines(members, ids[..|ids| - 1], deadline);
      var last := RenewDeadline(rest.0, ids[|ids| - 1], deadline);
      (last.0, rest.1 + last.1)
  }

  /** The participant loop of the match-finished handler. */
  method RenewAll(members: Members, ids: seq<Id>, deadline: int) returns (renewed: Members, effects: seq<Effect>)
    ensures (renewed, effects) == RenewDeadlines(members, ids, deadline)
  {
    renewed, effects := members, [];
    for i := 0 to |ids|
      invariant (renewed, effects) == RenewDeadlines(members, ids[..i], deadline)
    {
      assert ids[..i + 1][..i] == ids[..i] && ids[..i + 1][i] == ids[i];
      assert effects + [] == effects;
      if ids[i] in renewed && renewed[ids[i]].connection.Disconnected? {
        var member := renewed[ids[i]];
        renewed := renewed[ids[i] := member.(connection := Disconnected(member.connection.epoch, deadline, false))];
        effects := effects + [ReconnectDeadline(ids[i], deadline)];
      }
    }
    assert ids[..|ids|] == ids;
  }

  function FinishMatch(s: RoomState, atMs: int, c: SystemCommand, policy: Policy): Decision
    requires c.MatchFinished?
  {
    if !s.phase.Playing? || s.activeMatch.None? || s.activeMatch.value.matchId != c.matchId || s.series.None? then
      Ignore(StaleMatch)
    else if FinishIsInvalid(s.activeMatch.value, c) then Reject(InvalidCommand)
    else
      var renewed := RenewDeadlines(s.members, Participants(s.activeMatch.value), atMs + policy.lobbyReconnectGraceMs);
      Propose(Finished(s, renewed.0, ScoreGame(s.series.value, c.winner)), renewed.1, true)
  }

  function Participants(m: ActiveMatch): seq<Id> { [m.participants.first, m.participants.second] }

  /** The state after a game that leaves the score at `series`. */
  function Finished(s: RoomState, members: Members, series: Series): RoomState {
    s.(members := members,
       phase := if series.completed then SeriesComplete else BetweenGames,
       ready := Pair(false, false),
       rematchVotes := Pair(false, false),
       rulesStatus := if series.completed then Draft else Locked,
       countdown := None,
       series := Some(series),
       activeMatch := None)
  }

  // ---------------------------------------------------------------- dispatch

  function HandleUser(s: RoomState, atMs: int, c: UserCommand, policy: Policy): Decision {
    match c
    case Join(_, _, _, _) => JoinRoom(s, c, policy)
    case Leave(_, _) => LeaveRoom(s, c)
    case SetSeat(_, _, _) => TakeSeat(s, c, policy)
    case SetReady(_, _, _) => MakeReady(s, atMs, c, policy)
    case UpdateSettings(_, _, _) => ChangeSettings(s, c)
    case TransferHost(_, _, _) => PassHost(s, c)
    case Kick(_, _, _) => KickMember(s, c)
    case Rematch(_, _, _) => VoteRematch(s, atMs, c, policy)
    case CloseRoom(_, _) => HostCloses(s, c)
  }

  function HandleSystem(s: RoomState, atMs: int, c: SystemCommand, policy: Policy): Decision {
    match c
    case ConnectionLost(_, _, _) => LoseConnection(s, atMs, c, policy)
    case ConnectionResumed(_, _, _) => ResumeConnection(s, atMs, c, policy)
    case ConnectionReplace(_, _, _, _) => ReplaceConnection(s, c, policy)
    case ReconnectElapsed(_, _) => ExpireReconnect(s, atMs, c)
    case RoomExpired => ExpireRoom(s, atMs)
    case AdminClose => AdminCloses(s)
    case CountdownElapsed(_, _) => StartMatch(s, atMs, c, policy)
    case MatchFinished(_, _, _, _) => FinishMatch(s, atMs, c, policy)
  }

  /** Does any command other than an explicit close find the room past its expiry? */
  predicate ExpiresFirst(s: RoomState, c: Command) {
    && !s.phase.Closed? && !s.phase.Playing?
    && !(c.System? && (c.system.RoomExpired? || c.system.AdminClose?))
    && c.atMs >= s.expiresAtMs
  }

  function Decide(s: RoomState, c: Command, policy: Policy): Decision {
    if !IsSafeTime(c.atMs) || !IsValidPolicy(policy) then Reject(InvalidCommand)
    else if s.phase.Closed? && c.User? then Reject(RoomClosed)
    else if ExpiresFirst(s, c) then Propose(CloseState(s, Expired), [RoomClosedEffect(Expired)], true)
    else match c
      case User(atMs, user) => HandleUser(s, atMs, user, policy)
      case System(atMs, system) => HandleSystem(s, atMs, system, policy)
  }

  /** Carries out the commit, rejection or dismissal that a handler ended in. */
  function TransitionRoom(s: RoomState, c: Command, policy: Policy): Transition {
    match Decide(s, c, policy)
    case Propose(next, effects, controlRevision) => Commit(s, next, c.atMs, effects, policy, controlRevision)
    case Reject(code) => Rejected(code)
    case Ignore(reason) => Ignored(reason)
    case Fail => Thrown
  }

  // ---------------------------------------------------------------- creation

  datatype CreateInput = CreateInput(
    roomId: Id, roomCode: string, creator: Player, connectionId: Id, nowMs: int,
    targetWins: Option<int>, allowSpectators: Option<bool>)

  datatype CreateError = InvalidInput | InvalidSettings | InvariantFailed

  predicate CreateInputOk(input: CreateInput, policy: Policy) {
    && policy.syntax.safeId(input.roomId) && policy.syntax.roomCode(input.roomCode) && IsValidPlayer(policy.syntax, input.creator)
    && policy.syntax.safeId(input.connectionId) && IsSafeTime(input.nowMs) && IsValidPolicy(policy)
  }

  function FreshRoom(input: CreateInput, policy: Policy): RoomState {
    RoomState(
      input.roomId, input.roomCode, 1, 1, Lobby,
      map[input.creator.playerId := Member(input.creator, 1, Connected(input.connectionId, 0))],
      Pair(Some(input.creator.playerId), None),
      Some(input.creator.playerId),
      Pair(false, false), Pair(false, false),
      Settings(input.targetWins.GetOr(3), input.allowSpectators.GetOr(false)),
      Draft, None, None, None, [], 2, 1, 1,
      input.nowMs, input.nowMs,
      Min(input.nowMs + policy.absoluteTtlMs, input.nowMs + policy.lobbyIdleTtlMs),
      input.nowMs + policy.absoluteTtlMs,
      None)
  }

  function CreateRoom(input: CreateInput, policy: Policy): Result<RoomState, CreateError> {
    if !CreateInputOk(input, policy) then Err(InvalidInput)
    else if !IsTargetWins(input.targetWins.GetOr(3)) then Err(InvalidSettings)
    else if !RoomInvariant(policy.syntax, FreshRoom(input, policy)) then Err(InvariantFailed)
    else Ok(FreshRoom(input, policy))
  }
}

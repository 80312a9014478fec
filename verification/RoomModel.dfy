/**
 The room entities: members, seats, series, commands, effects and transitions.
 Every entity is an immutable record in the room reducer, so each is a datatype here.
 */
module RoomModel {
  import opened Wrappers

  /** The largest integer for which the reducer's safe-integer test succeeds. */
  const MAX_SAFE: int := 9007199254740991

  const MAX_DENIED_PLAYER_IDS: nat := 64

  type Id = string

  datatype Seat = First | Second {
    function Other(): Seat { if First? then Second else First }
  }

  datatype Pair<T> = Pair(first: T, second: T) {
    function At(seat: Seat): T {
      if seat.First? then first else second
    }

    function With(seat: Seat, value: T): Pair<T> {
      if seat.First? then Pair(value, second) else Pair(first, value)
    }
  }

  datatype Phase = Lobby | Countdown | Playing | BetweenGames | SeriesComplete | Closed

  datatype Policy = Policy(
    countdownMs: int,
    maxSpectators: int,
    matchReconnectGraceMs: int,
    lobbyReconnectGraceMs: int,
    emptyTtlMs: int,
    lobbyIdleTtlMs: int,
    seriesCompleteTtlMs: int,
    absoluteTtlMs: int,
    syntax: Syntax)

  datatype Player = Player(playerId: Id, displayName: string)

  datatype Connection =
    | Connected(connectionId: Id, epoch: int)
    | Disconnected(epoch: int, reconnectDeadlineMs: int, forfeitRequested: bool)

  datatype Member = Member(player: Player, joinedOrdinal: int, connection: Connection)

  type Members = map<Id, Member>

  datatype Settings = Settings(targetWins: int, allowSpectators: bool)

  /** A settings patch; `unknownKey` says that it carries a key other than the two known ones. */
  datatype SettingsPatch = SettingsPatch(targetWins: Option<int>, allowSpectators: Option<bool>, unknownKey: bool)

  datatype Origin = FromLobby | FromBetweenGames | FromSeriesComplete

  datatype CountdownInfo = CountdownInfo(countdownId: int, startsAtMs: int, origin: Origin, gameNumber: int)

  datatype Series = Series(
    seriesId: (Id, int),
    roster: Pair<Id>,
    targetWins: int,
    wins: Pair<int>,
    gamesPlayed: int,
    completed: bool,
    winnerPlayerId: Option<Id>)

  datatype ActiveMatch = ActiveMatch(
    matchId: Id,
    gameNumber: int,
    participants: Pair<Id>,
    startedAtMs: int,
    resolutionRequested: bool)

  datatype ClosedReason = Expired | HostClosed | ServerShutdown

  datatype RulesStatus = Draft | Locked

  datatype RoomState = RoomState(
    roomId: Id,
    roomCode: string,
    revision: int,
    presenceSequence: int,
    phase: Phase,
    members: Members,
    seats: Pair<Option<Id>>,
    host: Option<Id>,
    ready: Pair<bool>,
    rematchVotes: Pair<bool>,
    settings: Settings,
    rulesStatus: RulesStatus,
    countdown: Option<CountdownInfo>,
    series: Option<Series>,
    activeMatch: Option<ActiveMatch>,
    denied: seq<Id>,
    nextJoinedOrdinal: int,
    nextCountdownNumber: int,
    nextSeriesNumber: int,
    createdAtMs: int,
    updatedAtMs: int,
    expiresAtMs: int,
    absoluteExpiresAtMs: int,
    closedReason: Option<ClosedReason>)

  datatype FinishReason = Topout | Forfeit | DisconnectTimeout | SimultaneousTopout | Draw

  /** User commands carry a request; `atMs` is the server time stamped on the command. */
  datatype UserCommand =
    | Join(player: Player, connectionId: Id, spectator: bool, preferredSeat: Option<Seat>)
    | Leave(actor: Id, expectedRevision: int)
    | SetSeat(actor: Id, expectedRevision: int, seat: Option<Seat>)
    | SetReady(actor: Id, expectedRevision: int, ready: bool)
    | UpdateSettings(actor: Id, expectedRevision: int, patch: SettingsPatch)
    | TransferHost(actor: Id, expectedRevision: int, target: Id)
    | Kick(actor: Id, expectedRevision: int, target: Id)
    | Rematch(actor: Id, expectedRevision: int, accepted: bool)
    | CloseRoom(actor: Id, expectedRevision: int)

  datatype SystemCommand =
    | ConnectionLost(playerId: Id, connectionId: Id, expectedEpoch: int)
    | ConnectionResumed(playerId: Id, expectedEpoch: int, newConnectionId: Id)
    | ConnectionReplace(playerId: Id, expectedConnectionId: Id, expectedEpoch: int, newConnectionId: Id)
    | ReconnectElapsed(playerId: Id, expectedEpoch: int)
    | RoomExpired
    | AdminClose
    | CountdownElapsed(countdownId: int, matchId: Id)
    | MatchFinished(matchId: Id, winner: Option<Id>, reason: FinishReason, serverFrame: int)

  datatype Command =
    | User(atMs: int, user: UserCommand)
    | System(atMs: int, system: SystemCommand)

  datatype CancelReason = Unready | Disconnect | RosterChanged

  datatype Effect =
    | StateChanged(revision: int, presenceSequence: int)
    | CountdownSchedule(countdownId: int, startsAtMs: int)
    | CountdownCancel(countdownId: int, reason: CancelReason)
    | MatchStart(matchId: Id, seriesId: (Id, int), gameNumber: int, participants: Pair<Id>)
    | ClearInput(playerId: Id)
    | DisconnectForfeit(matchId: Id, loser: Id, winner: Option<Id>)
    | ReconnectDeadline(playerId: Id, deadlineMs: int)
    | ReconnectExpired(playerId: Id)
    | Kicked(playerId: Id)
    | RoomClosedEffect(closedReason: ClosedReason)

  datatype ErrorCode =
    | InvalidCommand | RevisionConflict | RoomClosed | RoomFull | RoomKicked | AlreadyInRoom
    | NotInRoom | NotConnected | NotSeated | NotHost | TargetNotMember | TargetNotConnected
    | CannotKickSelf | CannotKickActivePlayer | SeatOccupied | SpectatingDisabled | SpectatorLimit
    | RulesInvalid | RulesLocked | InvalidRoomPhase | ActiveMatchError | SeriesNotComplete
    | NoChange | ResumeExpired

  datatype StaleReason = StaleConnection | StaleTimer | StaleMatch

  /** `Thrown` is the invariant failure that the reducer's commit step raises. */
  datatype Transition =
    | Committed(state: RoomState, effects: seq<Effect>)
    | Rejected(code: ErrorCode)
    | Ignored(reason: StaleReason)
    | Thrown

  // ---------------------------------------------------------------- validation

  /**
   The three textual checks of the reducer: id syntax, room-code syntax and display-name syntax.
   They are parameters, so every result holds for any such checks.
   */
  datatype Syntax = Syntax(safeId: Id -> bool, roomCode: string -> bool, displayName: string -> bool)

  predicate IsValidPlayer(syntax: Syntax, player: Player) {
    syntax.safeId(player.playerId) && syntax.displayName(player.displayName)
  }

  predicate IsSafeTime(n: int) { 0 <= n <= MAX_SAFE }

  predicate IsTargetWins(n: int) { n == 1 || n == 2 || n == 3 || n == 5 }

  predicate IsPositiveSafe(n: int) { 0 < n <= MAX_SAFE }

  predicate IsValidPolicy(p: Policy) {
    && IsPositiveSafe(p.countdownMs)
    && IsSafeTime(p.maxSpectators)
    && IsPositiveSafe(p.matchReconnectGraceMs)
    && IsPositiveSafe(p.lobbyReconnectGraceMs)
    && IsPositiveSafe(p.emptyTtlMs)
    && IsPositiveSafe(p.lobbyIdleTtlMs)
    && IsPositiveSafe(p.seriesCompleteTtlMs)
    && IsPositiveSafe(p.absoluteTtlMs)
  }

  predicate IsConnected(members: Members, id: Id) {
    id in members && members[id].connection.Connected?
  }

  predicate AnyConnected(members: Members) {
    exists id | id in members :: members[id].connection.Connected?
  }

  function SeatOf(state: RoomState, id: Id): Option<Seat> {
    if state.seats.first == Some(id) then Some(First)
    else if state.seats.second == Some(id) then Some(Second)
    else None
  }

  function RosterOf(state: RoomState): Option<Pair<Id>> {
    if state.seats.first.Some? && state.seats.second.Some?
    then Some(Pair(state.seats.first.value, state.seats.second.value))
    else None
  }

  function SpectatorCount(state: RoomState): nat {
    |set id | id in state.members && SeatOf(state, id) == None|
  }

  /** Is connection id `connectionId` held by a connected member? */
  predicate ConnectionInUse(members: Members, connectionId: Id) {
    exists id | id in members ::
      members[id].connection.Connected? && members[id].connection.connectionId == connectionId
  }

  // ---------------------------------------------------------------- host choice

  /** Host order among connected members: seated members first, then earlier joiners. */
  predicate HostPrecedes(state: RoomState, p: Id, q: Id)
    requires p in state.members && q in state.members
  {
    var pSeated := SeatOf(state, p).Some?;
    var qSeated := SeatOf(state, q).Some?;
    if pSeated != qSeated then pSeated
    else state.members[p].joinedOrdinal < state.members[q].joinedOrdinal
  }

  predicate IsBestHost(state: RoomState, p: Id) {
    && IsConnected(state.members, p)
    && forall q | q in state.members :: IsConnectedRival(state, p, q) ==> HostPrecedes(state, p, q)
  }

  predicate IsConnectedRival(state: RoomState, p: Id, q: Id) {
    q != p && IsConnected(state.members, q)
  }

  function ChooseHost(state: RoomState): Option<Id> {
    if exists p {:trigger IsBestHost(state, p)} | p in state.members :: IsBestHost(state, p) then
      var p :| p in state.members && IsBestHost(state, p);
      Some(p)
    else None
  }
}

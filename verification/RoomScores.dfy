/**
 The score sheet of a room, counted from outside: within a series each player's wins are the committed results that
 name that player, and a series is given up only when the room closes or one of its players gives up the seat.
 */
module RoomScores {
  import opened Wrappers
  import opened RoomModel
  import opened RoomInvariants
  import opened RoomReducer
  import opened RoomSafety
  import opened RoomTraces

  type SeriesId = (Id, int)

  // ---------------------------------------------------------------- results

  /** Does the command commit the result of a game? */
  predicate CommitsResult(s: RoomState, c: Command, policy: Policy) {
    c.System? && c.system.MatchFinished? && !ExpiresFirst(s, c) && TransitionRoom(s, c, policy).Committed?
  }

  predicate IsOn(s: RoomState, id: SeriesId) { s.series.Some? && s.series.value.seriesId == id }

  /** The winners of the results that were committed over a run while series `id` was on, in order. */
  function Results(s: RoomState, cs: seq<Command>, id: SeriesId, policy: Policy): seq<Option<Id>>
    decreases |cs|
  {
    if cs == [] then []
    else
      var front, c := cs[..|cs| - 1], cs[|cs| - 1];
      var before := Run(s, front, policy);
      if CommitsResult(before, c, policy) && IsOn(before, id) then Results(s, front, id, policy) + [c.system.winner]
      else Results(s, front, id, policy)
  }

  /** How many of these results were won by `player`? */
  function WonBy(results: seq<Option<Id>>, player: Id): nat {
    if results == [] then 0
    else if results[|results| - 1] == Some(player) then WonBy(results[..|results| - 1], player) + 1
    else WonBy(results[..|results| - 1], player)
  }

  lemma WonByOneMore(results: seq<Option<Id>>, winner: Option<Id>, player: Id)
    ensures WonBy(results + [winner], player) == WonBy(results, player) + (if winner == Some(player) then 1 else 0)
  {
    assert (results + [winner])[..|results|] == results;
  }

  /** A sheet that says what the results say: wins counted per player, and the verdict as soon as one has enough. */
  predicate SheetFits(series: Series, results: seq<Option<Id>>) {
    var first, second := WonBy(results, series.roster.first), WonBy(results, series.roster.second);
    && series.wins == Pair(first, second)
    && series.gamesPlayed == |results|
    && (series.completed <==> first >= series.targetWins || second >= series.targetWins)
    && series.winnerPlayerId ==
       (if first >= series.targetWins then Some(series.roster.first)
        else if second >= series.targetWins then Some(series.roster.second)
        else None)
    && !(first >= series.targetWins && second >= series.targetWins)
  }

  // ---------------------------------------------------------------- one step

  /** A new series for the two seated players, under the room's settings and the next number. */
  predicate BeginsSeries(s: RoomState, t: RoomState) {
    && t.series.Some? && t.nextSeriesNumber == s.nextSeriesNumber + 1
    && t.series.value == Series((s.roomId, s.nextSeriesNumber), t.series.value.roster, s.settings.targetWins, Pair(0, 0), 0,
                                false, None)
    && s.seats == Pair(Some(t.series.value.roster.first), Some(t.series.value.roster.second))
  }

  predicate KeepsSeries(s: RoomState, t: RoomState) {
    t.nextSeriesNumber == s.nextSeriesNumber && (t.series.None? || t.series == s.series)
  }

  predicate SeriesStep(s: RoomState, d: Decision) {
    d.Propose? ==> d.next.roomId == s.roomId && (KeepsSeries(s, d.next) || BeginsSeries(s, d.next))
  }

  lemma UserSeriesStep(s: RoomState, atMs: int, c: UserCommand, policy: Policy)
    ensures SeriesStep(s, HandleUser(s, atMs, c, policy))
  {
    match c
    case Join(_, _, _, _) => JoinProposal(s, c, policy);
    case Leave(_, _) =>
    case SetSeat(_, _, _) =>
    case SetReady(_, _, _) =>
    case UpdateSettings(_, _, _) =>
    case TransferHost(_, _, _) =>
    case Kick(_, _, _) =>
    case Rematch(_, _, _) =>
    case CloseRoom(_, _) =>
  }

  lemma SystemSeriesStep(s: RoomState, atMs: int, c: SystemCommand, policy: Policy)
    requires !c.MatchFinished?
    ensures SeriesStep(s, HandleSystem(s, atMs, c, policy))
  {
  }

  /** Scoring one more game keeps the sheet in step with the results. */
  lemma ScoringFits(series: Series, results: seq<Option<Id>>, winner: Option<Id>)
    requires SheetFits(series, results) && !series.completed && series.roster.first != series.roster.second
    requires winner.Some? ==> winner.value == series.roster.first || winner.value == series.roster.second
    ensures var scored := ScoreGame(series, winner);
            && SheetFits(scored, results + [winner])
            && scored.seriesId == series.seriesId && scored.roster == series.roster && scored.targetWins == series.targetWins
  {
    WonByOneMore(results, winner, series.roster.first);
    WonByOneMore(results, winner, series.roster.second);
    hide WonBy;
  }

  /** A committed result is that of the game in play, and its winner, if any, is one of the two players. */
  lemma ResultStep(s: RoomState, c: Command, policy: Policy)
    requires Strong(policy.syntax, s) && CommitsResult(s, c, policy)
    ensures s.phase.Playing? && s.series.Some? && !s.series.value.completed
    ensures s.series.value.roster.first != s.series.value.roster.second
    ensures c.system.winner.Some? ==>
              c.system.winner.value == s.series.value.roster.first || c.system.winner.value == s.series.value.roster.second
    ensures var t := After(s, c, policy);
            && t.roomId == s.roomId && t.nextSeriesNumber == s.nextSeriesNumber
            && t.series == Some(ScoreGame(s.series.value, c.system.winner))
  {
    hide ScoreGame, MembersOk, DeniedOk, HostOk, RoomInvariant;
    CommitShape(s, c, policy);
  }

  lemma OtherStep(s: RoomState, c: Command, policy: Policy)
    requires !CommitsResult(s, c, policy)
    ensures var t := After(s, c, policy); t.roomId == s.roomId && (KeepsSeries(s, t) || BeginsSeries(s, t))
  {
    hide HandleUser, HandleSystem, RoomInvariant;
    CommitShape(s, c, policy);
    if TransitionRoom(s, c, policy).Committed? && !ExpiresFirst(s, c) {
      match c
      case User(atMs, user) => UserSeriesStep(s, atMs, user, policy);
      case System(atMs, system) =>
        if !system.MatchFinished? {
          SystemSeriesStep(s, atMs, system, policy);
        }
    }
  }

  // ---------------------------------------------------------------- runs

  /** No series with this number or a later one has any result yet. */
  ghost predicate NoResultsFrom(s: RoomState, cs: seq<Command>, n: int, policy: Policy) {
    forall k: int :: k >= n ==> Results(s, cs, (s.roomId, k), policy) == []
  }

  ghost predicate ScoresFit(s: RoomState, cs: seq<Command>, policy: Policy) {
    var t := Run(s, cs, policy);
    && t.roomId == s.roomId
    && NoResultsFrom(s, cs, t.nextSeriesNumber, policy)
    && (t.series.Some? ==>
        && t.series.value.seriesId.0 == s.roomId && t.series.value.seriesId.1 < t.nextSeriesNumber
        && SheetFits(t.series.value, Results(s, cs, t.series.value.seriesId, policy)))
  }

  lemma ResultsStep(s: RoomState, cs: seq<Command>, id: SeriesId, policy: Policy)
    requires cs != []
    ensures var front, c := cs[..|cs| - 1], cs[|cs| - 1];
            var before := Run(s, front, policy);
            && Run(s, cs, policy) == After(before, c, policy)
            && Results(s, cs, id, policy) ==
               if CommitsResult(before, c, policy) && IsOn(before, id) then Results(s, front, id, policy) + [c.system.winner]
               else Results(s, front, id, policy)
  {
  }

  lemma OneMoreFits(s: RoomState, cs: seq<Command>, policy: Policy)
    requires cs != [] && ScoresFit(s, cs[..|cs| - 1], policy) && Strong(policy.syntax, Run(s, cs[..|cs| - 1], policy))
    ensures ScoresFit(s, cs, policy)
  {
    hide After, TransitionRoom, Strong, Run, Results, SheetFits;
    var front, c := cs[..|cs| - 1], cs[|cs| - 1];
    var before, after := Run(s, front, policy), Run(s, cs, policy);
    forall k: int | k >= after.nextSeriesNumber ensures Results(s, cs, (s.roomId, k), policy) == [] {
      ResultsStep(s, cs, (s.roomId, k), policy);
      StepNumbers(before, c, policy);
      assert Results(s, front, (s.roomId, k), policy) == [];
    }
    ResultsStep(s, cs, (s.roomId, before.nextSeriesNumber), policy);
    StepNumbers(before, c, policy);
    if after.series.Some? {
      ResultsStep(s, cs, after.series.value.seriesId, policy);
      var results := Results(s, front, after.series.value.seriesId, policy);
      if CommitsResult(before, c, policy) {
        ResultStep(before, c, policy);
        hide ScoreGame;
        ScoringFits(before.series.value, Results(s, front, before.series.value.seriesId, policy), c.system.winner);
      } else if before.series != after.series {
        OtherStep(before, c, policy);
        assert Results(s, front, (s.roomId, before.nextSeriesNumber), policy) == [];
        NewSheetFits(policy.syntax, before, after);
      }
    }
  }

  lemma StepNumbers(s: RoomState, c: Command, policy: Policy)
    requires Strong(policy.syntax, s)
    ensures var t := After(s, c, policy); t.roomId == s.roomId && t.nextSeriesNumber >= s.nextSeriesNumber
  {
    hide After, CommitsResult, Strong;
    if CommitsResult(s, c, policy) {
      ResultStep(s, c, policy);
    } else {
      OtherStep(s, c, policy);
    }
  }

  lemma NewSheetFits(v: Syntax, s: RoomState, t: RoomState)
    requires Strong(v, s) && BeginsSeries(s, t)
    ensures SheetFits(t.series.value, [])
  {
  }

  lemma FreshRoomFits(input: CreateInput, policy: Policy)
    ensures ScoresFit(FreshRoom(input, policy), [], policy)
  {
  }

  lemma {:induction false} RunsFit(input: CreateInput, cs: seq<Command>, policy: Policy)
    requires CreateRoom(input, policy).Ok?
    requires |cs| < MAX_SAFE - 2 && DeadlinesInRange(cs, policy)
    ensures ScoresFit(FreshRoom(input, policy), cs, policy)
    decreases |cs|
  {
    hide ScoresFit, CreateRoom, FreshRoom, Strong;
    if cs == [] {
      FreshRoomFits(input, policy);
    } else {
      RunsFit(input, cs[..|cs| - 1], policy);
      ReachableRoomsAreStrong(input, cs[..|cs| - 1], policy);
      OneMoreFits(FreshRoom(input, policy), cs, policy);
    }
  }

  /**
   The score sheet is the count of the results, on every run of a created room: within the series that is on, each
   player's wins are the committed results that name that player, results without a winner count for nobody but are games
   played, and the series is complete exactly when one of the two has reached the target, who is then its winner.
   */
  lemma WinsAreCountedResults(input: CreateInput, cs: seq<Command>, policy: Policy)
    requires CreateRoom(input, policy).Ok?
    requires |cs| < MAX_SAFE - 2 && DeadlinesInRange(cs, policy)
    ensures var s := Run(FreshRoom(input, policy), cs, policy);
            && (s.series.Some? ==>
                SheetFits(s.series.value, Results(FreshRoom(input, policy), cs, s.series.value.seriesId, policy)))
            && (s.phase.SeriesComplete? <==> s.series.Some? && s.series.value.completed)
  {
    RunsFit(input, cs, policy);
    ReachableRoomsAreStrong(input, cs, policy);
    hide SheetFits, Results, Run, CreateRoom, MembersOk, DeniedOk, HostOk, TimestampsOk, IdentityOk;
  }

  // ---------------------------------------------------------------- which results count

  /** A result names a winner exactly if its reason decides for one; after a disconnect there may or may not be one. */
  predicate Consistent(roster: Pair<Id>, winner: Option<Id>, reason: FinishReason) {
    match winner
    case None => reason.Draw? || reason.SimultaneousTopout? || reason.DisconnectTimeout?
    case Some(player) =>
      && (player == roster.first || player == roster.second)
      && (reason.Topout? || reason.Forfeit? || reason.DisconnectTimeout?)
  }

  /** A result is committed if and only if it is that of the match in play and consistent. */
  lemma ResultsAreCommittedExactlyWhenConsistent(s: RoomState, c: Command, policy: Policy)
    requires Admissible(s, c.atMs, policy) && c.System? && c.system.MatchFinished? && !ExpiresFirst(s, c)
    ensures TransitionRoom(s, c, policy).Committed? <==>
            && s.phase.Playing? && s.activeMatch.Some? && s.activeMatch.value.matchId == c.system.matchId
            && IsSafeTime(c.system.serverFrame)
            && Consistent(s.activeMatch.value.participants, c.system.winner, c.system.reason)
  {
    TransitionThrowsExactlyOnCollision(s, c, policy);
    hide ScoreGame, RenewDeadlines, MembersOk, DeniedOk, HostOk, RoomInvariant, TimestampsOk, IdentityOk;
    CommitShape(s, c, policy);
  }

  // ---------------------------------------------------------------- the course of a series

  /** Game numbers: games are counted from one, and only a series with a game behind it goes on from between games. */
  predicate GameOk(s: RoomState) {
    && (s.phase.BetweenGames? && s.series.Some? ==> s.series.value.gamesPlayed > 0)
    && (s.countdown.Some? && s.series.Some? ==>
        && s.countdown.value.gameNumber == s.series.value.gamesPlayed + 1
        && (s.countdown.value.origin.FromBetweenGames? <==> s.series.value.gamesPlayed > 0))
    && (s.activeMatch.Some? && s.series.Some? ==> s.activeMatch.value.gameNumber == s.series.value.gamesPlayed + 1)
  }

  /** The step keeps the game numbers, and gives up an open series with games behind it only with a seat or the room. */
  predicate GameStep(s: RoomState, d: Decision) {
    d.Propose? ==>
      && GameOk(d.next)
      && (OpenSeries(s) ==> d.next.phase.Closed? || d.next.seats != s.seats || SameSeries(s, d.next))
  }

  predicate OpenSeries(s: RoomState) { s.series.Some? && s.series.value.gamesPlayed > 0 && !s.series.value.completed }

  predicate SameSeries(s: RoomState, t: RoomState) {
    s.series.Some? && t.series.Some? && t.series.value.seriesId == s.series.value.seriesId
  }

  lemma ReadyGameStep(s: RoomState, atMs: int, c: UserCommand, policy: Policy)
    requires PhaseOk(s) && GameOk(s) && c.SetReady?
    ensures GameStep(s, MakeReady(s, atMs, c, policy))
  {
  }

  lemma RematchGameStep(s: RoomState, atMs: int, c: UserCommand, policy: Policy)
    requires PhaseOk(s) && GameOk(s) && c.Rematch?
    ensures GameStep(s, VoteRematch(s, atMs, c, policy))
  {
  }

  lemma RemovalGameStep(s: RoomState, id: Id, deny: bool, effects: seq<Effect>)
    requires PhaseOk(s) && GameOk(s)
    ensures GameStep(s, Propose(RemoveMember(s, id, deny).state, effects, true))
  {
    hide ReadySeatOk, SeriesOk, ShapeOk;
  }

  lemma UserGameStep(s: RoomState, atMs: int, c: UserCommand, policy: Policy)
    requires PhaseOk(s) && GameOk(s)
    ensures GameStep(s, HandleUser(s, atMs, c, policy))
  {
    hide RemoveMember, ReadySeatOk, MakeReady, VoteRematch, JoinRoom, SeriesOk;
    match c
    case Join(_, _, _, _) => JoinProposal(s, c, policy);
    case Leave(_, _) => RemovalGameStep(s, c.actor, false, RemoveMember(s, c.actor, false).effects);
    case SetSeat(_, _, _) =>
    case SetReady(_, _, _) => ReadyGameStep(s, atMs, c, policy);
    case UpdateSettings(_, _, _) =>
    case TransferHost(_, _, _) =>
    case Kick(_, _, target) => RemovalGameStep(s, target, true, RemoveMember(s, target, true).effects + [Kicked(target)]);
    case Rematch(_, _, _) => RematchGameStep(s, atMs, c, policy);
    case CloseRoom(_, _) =>
  }

  lemma LostGameStep(s: RoomState, atMs: int, c: SystemCommand, policy: Policy)
    requires PhaseOk(s) && GameOk(s) && c.ConnectionLost?
    ensures GameStep(s, LoseConnection(s, atMs, c, policy))
  {
    hide ReadySeatOk, SeriesOk;
  }

  lemma ExpiryGameStep(s: RoomState, atMs: int, c: SystemCommand)
    requires PhaseOk(s) && GameOk(s) && c.ReconnectElapsed?
    ensures GameStep(s, ExpireReconnect(s, atMs, c))
  {
    hide RemoveMember, ReadySeatOk, SeriesOk;
    RemovalGameStep(s, c.playerId, false, RemoveMember(s, c.playerId, false).effects + [ReconnectExpired(c.playerId)]);
  }

  lemma ResultGameStep(s: RoomState, atMs: int, c: SystemCommand, policy: Policy)
    requires PhaseOk(s) && GameOk(s) && c.MatchFinished?
    ensures GameStep(s, FinishMatch(s, atMs, c, policy))
  {
    hide ReadySeatOk, RenewDeadlines;
  }

  lemma SystemGameStep(s: RoomState, atMs: int, c: SystemCommand, policy: Policy)
    requires PhaseOk(s) && GameOk(s)
    ensures GameStep(s, HandleSystem(s, atMs, c, policy))
  {
    hide LoseConnection, ExpireReconnect, FinishMatch, ReadySeatOk, SeriesOk;
    match c
    case ConnectionLost(_, _, _) => LostGameStep(s, atMs, c, policy);
    case ConnectionResumed(_, _, _) =>
    case ConnectionReplace(_, _, _, _) =>
    case ReconnectElapsed(_, _) => ExpiryGameStep(s, atMs, c);
    case RoomExpired =>
    case AdminClose =>
    case CountdownElapsed(_, _) =>
    case MatchFinished(_, _, _, _) => ResultGameStep(s, atMs, c, policy);
  }

  lemma StepKeepsGames(s: RoomState, c: Command, policy: Policy)
    requires Strong(policy.syntax, s) && GameOk(s)
    ensures var t := After(s, c, policy);
            && GameOk(t)
            && (OpenSeries(s) ==> t.phase.Closed? || t.seats != s.seats || SameSeries(s, t))
  {
    hide HandleUser, HandleSystem, RoomInvariant, PhaseOk;
    CommitShape(s, c, policy);
    if TransitionRoom(s, c, policy).Committed? && !ExpiresFirst(s, c) {
      match c
      case User(atMs, user) => UserGameStep(s, atMs, user, policy);
      case System(atMs, system) => SystemGameStep(s, atMs, system, policy);
    }
  }

  lemma {:induction false} RunsKeepGames(input: CreateInput, cs: seq<Command>, policy: Policy)
    requires CreateRoom(input, policy).Ok?
    requires |cs| < MAX_SAFE - 2 && DeadlinesInRange(cs, policy)
    ensures GameOk(Run(FreshRoom(input, policy), cs, policy))
    decreases |cs|
  {
    hide GameOk, CreateRoom, Strong, After;
    if cs == [] {
      FreshGames(input, policy);
    } else {
      RunsKeepGames(input, cs[..|cs| - 1], policy);
      ReachableRoomsAreStrong(input, cs[..|cs| - 1], policy);
      StepKeepsGames(Run(FreshRoom(input, policy), cs[..|cs| - 1], policy), cs[|cs| - 1], policy);
    }
  }

  lemma FreshGames(input: CreateInput, policy: Policy)
    ensures GameOk(FreshRoom(input, policy))
  {
  }

  /**
   A series in progress is not lost: once it has a game behind it and until it is complete, every step of a run leaves it
   on, unless that step closes the room or changes who is seated. A cancelled countdown in particular keeps the score.
   */
  lemma OpenSeriesSurvive(input: CreateInput, cs: seq<Command>, c: Command, policy: Policy)
    requires CreateRoom(input, policy).Ok?
    requires |cs| < MAX_SAFE - 2 && DeadlinesInRange(cs, policy)
    requires OpenSeries(Run(FreshRoom(input, policy), cs, policy))
    ensures var s := Run(FreshRoom(input, policy), cs, policy);
            var t := After(s, c, policy);
            t.phase.Closed? || t.seats != s.seats || SameSeries(s, t)
  {
    hide GameOk, CreateRoom, Strong, After;
    RunsKeepGames(input, cs, policy);
    ReachableRoomsAreStrong(input, cs, policy);
    StepKeepsGames(Run(FreshRoom(input, policy), cs, policy), c, policy);
  }

  /** The start of a match as it is announced: the series that is on, the number of its next game, and its two players. */
  predicate AnnouncesGame(series: Series, games: nat, e: Effect) {
    e.MatchStart? ==> e.seriesId == series.seriesId && e.gameNumber == games + 1 && e.participants == series.roster
  }

  lemma OnlyStartsStart(s: RoomState, c: Command, policy: Policy)
    ensures (c.System? && c.system.CountdownElapsed? && !ExpiresFirst(s, c))
            || forall e | e in Emitted(s, c, policy) :: !e.MatchStart?
  {
    CommitShape(s, c, policy);
    if ExpiresFirst(s, c) {
    } else if c.User? {
      UserStartsNothing(s, c.atMs, c.user, policy);
    } else if !c.system.CountdownElapsed? {
      SystemStartsNothing(s, c.atMs, c.system, policy);
    }
  }

  lemma UserStartsNothing(s: RoomState, atMs: int, c: UserCommand, policy: Policy)
    ensures var d := HandleUser(s, atMs, c, policy); d.Propose? ==> forall e | e in d.effects :: !e.MatchStart?
  {
    if c.Join? {
      JoinProposal(s, c, policy);
    }
  }

  lemma {:induction false} RenewingStartsNothing(members: Members, ids: seq<Id>, deadline: int)
    ensures forall e | e in RenewDeadlines(members, ids, deadline).1 :: !e.MatchStart?
    decreases |ids|
  {
    if ids != [] {
      RenewingStartsNothing(members, ids[..|ids| - 1], deadline);
    }
  }

  lemma SystemStartsNothing(s: RoomState, atMs: int, c: SystemCommand, policy: Policy)
    requires !c.CountdownElapsed?
    ensures var d := HandleSystem(s, atMs, c, policy); d.Propose? ==> forall e | e in d.effects :: !e.MatchStart?
  {
    if c.MatchFinished? && s.activeMatch.Some? {
      RenewingStartsNothing(s.members, Participants(s.activeMatch.value), atMs + policy.lobbyReconnectGraceMs);
    }
  }

  /** On every run a match start announces the next game of the series: one more than the results committed so far. */
  lemma StartsAnnounceTheNextGame(input: CreateInput, cs: seq<Command>, c: Command, policy: Policy)
    requires CreateRoom(input, policy).Ok?
    requires |cs| < MAX_SAFE - 2 && DeadlinesInRange(cs, policy)
    ensures var s := Run(FreshRoom(input, policy), cs, policy);
            forall e | e in Emitted(s, c, policy) && e.MatchStart? ::
              && s.series.Some?
              && AnnouncesGame(s.series.value, |Results(FreshRoom(input, policy), cs, s.series.value.seriesId, policy)|, e)
  {
    var s := Run(FreshRoom(input, policy), cs, policy);
    RunsKeepGames(input, cs, policy);
    ReachableRoomsAreStrong(input, cs, policy);
    RunsFit(input, cs, policy);
    OnlyStartsStart(s, c, policy);
    if c.System? && c.system.CountdownElapsed? && !ExpiresFirst(s, c) {
      StartAnnounces(s, c, policy);
    }
    hide Emitted, Run, Results, CreateRoom, Strong, GameOk, WonBy;
  }

  lemma StartAnnounces(s: RoomState, c: Command, policy: Policy)
    requires Strong(policy.syntax, s) && GameOk(s) && c.System? && c.system.CountdownElapsed? && !ExpiresFirst(s, c)
    ensures forall e | e in Emitted(s, c, policy) && e.MatchStart? ::
              s.series.Some? && AnnouncesGame(s.series.value, s.series.value.gamesPlayed, e)
  {
    hide RoomInvariant, MembersOk, DeniedOk, HostOk, TimestampsOk, IdentityOk;
    CommitShape(s, c, policy);
  }
}

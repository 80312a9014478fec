/**
 Whole runs of a room: every reachable state satisfies the strengthened invariant, and what
 the emitted effects promise about countdowns, matches and commit numbers over a run.
 */
module RoomTraces {
  import opened Wrappers
  import opened RoomModel
  import opened RoomInvariants
  import opened RoomReducer
  import opened RoomSafety

  /** The room's state after one command; a rejected, ignored or throwing command leaves it as it was. */
  function After(s: RoomState, c: Command, policy: Policy): RoomState {
    var t := TransitionRoom(s, c, policy);
    if t.Committed? then t.state else s
  }

  function Emitted(s: RoomState, c: Command, policy: Policy): seq<Effect> {
    var t := TransitionRoom(s, c, policy);
    if t.Committed? then t.effects else []
  }

  function Run(s: RoomState, cs: seq<Command>, policy: Policy): RoomState
    decreases |cs|
  {
    if cs == [] then s else After(Run(s, cs[..|cs| - 1], policy), cs[|cs| - 1], policy)
  }

  // ---------------------------------------------------------------- bounded counters

  /** No counter of the room has grown beyond what `n` commands can make it. */
  predicate Bounded(s: RoomState, n: nat) {
    && s.presenceSequence <= n + 1
    && s.nextJoinedOrdinal <= n + 2
    && (forall id | id in s.members :: s.members[id].connection.epoch <= n)
    && (s.series.Some? ==> s.series.value.gamesPlayed <= n)
  }

  lemma {:induction false} RenewingKeepsEpochs(members: Members, ids: seq<Id>, deadline: int, n: nat)
    requires forall id | id in members :: members[id].connection.epoch <= n
    ensures forall id | id in RenewDeadlines(members, ids, deadline).0 ::
              RenewDeadlines(members, ids, deadline).0[id].connection.epoch <= n
    decreases |ids|
  {
    if ids != [] {
      RenewingKeepsEpochs(members, ids[..|ids| - 1], deadline, n);
    }
  }

  /** What a proposal may do to the counters. */
  predicate BoundedProposal(d: Decision, s: RoomState, n: nat) {
    d.Propose? ==>
      && d.next.presenceSequence == s.presenceSequence
      && d.next.nextJoinedOrdinal <= n + 3
      && (forall id | id in d.next.members :: d.next.members[id].connection.epoch <= n + 1)
      && (d.next.series.Some? ==> d.next.series.value.gamesPlayed <= n + 1)
  }

  lemma JoinIsBounded(s: RoomState, c: UserCommand, policy: Policy, n: nat)
    requires Bounded(s, n) && c.Join?
    ensures BoundedProposal(JoinRoom(s, c, policy), s, n)
  {
    JoinProposal(s, c, policy);
  }

  lemma RemovalsAreBounded(s: RoomState, c: UserCommand, n: nat)
    requires Bounded(s, n)
    ensures c.Leave? ==> BoundedProposal(LeaveRoom(s, c), s, n)
    ensures c.Kick? ==> BoundedProposal(KickMember(s, c), s, n)
    ensures c.CloseRoom? ==> BoundedProposal(HostCloses(s, c), s, n)
  {
  }

  lemma UserStepIsBounded(s: RoomState, atMs: int, c: UserCommand, policy: Policy, n: nat)
    requires Bounded(s, n)
    ensures BoundedProposal(HandleUser(s, atMs, c, policy), s, n)
  {
    hide JoinRoom, LeaveRoom, KickMember, HostCloses;
    match c
    case Join(_, _, _, _) => JoinIsBounded(s, c, policy, n);
    case Leave(_, _) => RemovalsAreBounded(s, c, n);
    case SetSeat(_, _, _) =>
    case SetReady(_, _, _) =>
    case UpdateSettings(_, _, _) =>
    case TransferHost(_, _, _) =>
    case Kick(_, _, _) => RemovalsAreBounded(s, c, n);
    case Rematch(_, _, _) =>
    case CloseRoom(_, _) => RemovalsAreBounded(s, c, n);
  }

  lemma ReconnectExpiryIsBounded(s: RoomState, atMs: int, c: SystemCommand, n: nat)
    requires Bounded(s, n) && c.ReconnectElapsed?
    ensures BoundedProposal(ExpireReconnect(s, atMs, c), s, n)
  {
  }

  lemma LostConnectionIsBounded(s: RoomState, atMs: int, c: SystemCommand, policy: Policy, n: nat)
    requires Bounded(s, n) && c.ConnectionLost?
    ensures BoundedProposal(LoseConnection(s, atMs, c, policy), s, n)
  {
  }

  lemma SystemStepIsBounded(s: RoomState, atMs: int, c: SystemCommand, policy: Policy, n: nat)
    requires Bounded(s, n)
    ensures BoundedProposal(HandleSystem(s, atMs, c, policy), s, n)
  {
    match c
    case ConnectionLost(_, _, _) => LostConnectionIsBounded(s, atMs, c, policy, n);
    case ConnectionResumed(_, _, _) =>
    case ConnectionReplace(_, _, _, _) =>
    case ReconnectElapsed(_, _) => ReconnectExpiryIsBounded(s, atMs, c, n);
    case RoomExpired =>
    case AdminClose =>
    case CountdownElapsed(_, _) =>
    case MatchFinished(_, _, _, _) =>
      if s.activeMatch.Some? {
        RenewingKeepsEpochs(s.members, Participants(s.activeMatch.value), atMs + policy.lobbyReconnectGraceMs, n);
      }
  }

  lemma StepIsBounded(s: RoomState, c: Command, policy: Policy, n: nat)
    requires Bounded(s, n)
    ensures Bounded(After(s, c, policy), n + 1)
  {
    assert BoundedProposal(Decide(s, c, policy), s, n) by {
      match c
      case User(atMs, user) => UserStepIsBounded(s, atMs, user, policy, n);
      case System(atMs, system) => SystemStepIsBounded(s, atMs, system, policy, n);
    }
  }

  // ---------------------------------------------------------------- safety of every run

  lemma FreshRoomIsStrong(input: CreateInput, policy: Policy)
    requires CreateInputOk(input, policy) && IsTargetWins(input.targetWins.GetOr(3))
    ensures RoomInvariant(policy.syntax, FreshRoom(input, policy)) <==>
            input.nowMs + policy.absoluteTtlMs <= MAX_SAFE
    ensures RoomInvariant(policy.syntax, FreshRoom(input, policy)) ==>
            Strong(policy.syntax, FreshRoom(input, policy))
    ensures Bounded(FreshRoom(input, policy), 0)
  {
    var s := FreshRoom(input, policy);
    var id := input.creator.playerId;
    assert s.members[id].connection.Connected?;
    assert s.seats.first.value in s.members && s.host.value in s.members;
    if input.nowMs + policy.absoluteTtlMs <= MAX_SAFE {
      assert MemberOk(policy.syntax, id, s.members[id]);
      assert MembersOk(policy.syntax, s.members);
      assert TimestampsOk(s);
    } else {
      assert !IsSafeTime(s.absoluteExpiresAtMs);
    }
  }

  predicate DeadlinesInRange(cs: seq<Command>, policy: Policy) {
    forall c | c in cs ::
      c.atMs + policy.matchReconnectGraceMs <= MAX_SAFE && c.atMs + policy.lobbyReconnectGraceMs <= MAX_SAFE
  }

  /**
   Every state a created room can reach satisfies the strengthened invariant, whatever the
   commands are: even a join that makes the reducer throw leaves the room intact.
   */
  lemma {:induction false} ReachableRoomsAreStrong(input: CreateInput, cs: seq<Command>, policy: Policy)
    requires CreateRoom(input, policy).Ok?
    requires |cs| < MAX_SAFE - 2 && DeadlinesInRange(cs, policy)
    ensures Strong(policy.syntax, Run(FreshRoom(input, policy), cs, policy))
    ensures Bounded(Run(FreshRoom(input, policy), cs, policy), |cs|)
    decreases |cs|
  {
    FreshRoomIsStrong(input, policy);
    if cs != [] {
      var front, c := cs[..|cs| - 1], cs[|cs| - 1];
      ReachableRoomsAreStrong(input, front, policy);
      var s := Run(FreshRoom(input, policy), front, policy);
      StepIsBounded(s, c, policy, |front|);
      if IsSafeTime(c.atMs) {
        TransitionThrowsExactlyOnCollision(s, c, policy);
      }
    }
  }

  /**
   On every run of a created room, a command makes the reducer's assertion fail exactly when
   it is an admitted join on a connection id that a connected member holds.
   */
  lemma RunsThrowExactlyOnCollision(input: CreateInput, cs: seq<Command>, c: Command, policy: Policy)
    requires CreateRoom(input, policy).Ok?
    requires |cs| < MAX_SAFE - 2 && DeadlinesInRange(cs + [c], policy)
    ensures var s := Run(FreshRoom(input, policy), cs, policy);
            TransitionRoom(s, c, policy).Thrown? <==> JoinCollides(s, c, policy)
  {
    assert DeadlinesInRange(cs, policy) by {
      assert forall d | d in cs :: d in cs + [c];
    }
    ReachableRoomsAreStrong(input, cs, policy);
    assert c in cs + [c];
    if IsSafeTime(c.atMs) {
      TransitionThrowsExactlyOnCollision(Run(FreshRoom(input, policy), cs, policy), c, policy);
    }
  }

  const EXAMPLE_POLICY: Policy :=
    Policy(3000, 6, 15000, 60000, 120000, 1800000, 900000, 21600000, Syntax(_ => true, _ => true, _ => true))

  const EXAMPLE_ROOM: CreateInput :=
    CreateInput("room", "ABCDEF", Player("left", "left"), "socket", 0, None, None)

  /** A second player who joins on the first player's connection id makes the reducer throw. */
  lemma CollidingJoinThrows()
    ensures TransitionRoom(
              FreshRoom(EXAMPLE_ROOM, EXAMPLE_POLICY),
              User(1, Join(Player("right", "right"), "socket", false, None)),
              EXAMPLE_POLICY).Thrown?
  {
    FreshRoomIsStrong(EXAMPLE_ROOM, EXAMPLE_POLICY);
    var s := FreshRoom(EXAMPLE_ROOM, EXAMPLE_POLICY);
    var c := User(1, Join(Player("right", "right"), "socket", false, None));
    assert "left" in s.members && s.members["left"].connection.connectionId == "socket";
    assert "right"[0] != "left"[0];
    TransitionThrowsExactlyOnCollision(s, c, EXAMPLE_POLICY);
  }

  // ---------------------------------------------------------------- commit numbers

  lemma CommitShape(s: RoomState, c: Command, policy: Policy)
    ensures var d, t := Decide(s, c, policy), TransitionRoom(s, c, policy);
            t.Committed? ==>
              && d.Propose?
              && t.state == Revised(s, d.next, c.atMs, policy, d.controlRevision)
              && t.effects == d.effects + [StateChanged(t.state.revision, t.state.presenceSequence)]
  {
  }

  /** The presence numbers announced over a run, in the order of the commits. */
  function Announced(s: RoomState, cs: seq<Command>, policy: Policy): seq<int>
    decreases |cs|
  {
    if cs == [] then []
    else
      var before := Run(s, cs[..|cs| - 1], policy);
      var t := TransitionRoom(before, cs[|cs| - 1], policy);
      Announced(s, cs[..|cs| - 1], policy) + (if t.Committed? then [t.state.presenceSequence] else [])
  }

  /**
   Presence numbers are the unique commit numbers of a room: over any run the commits are
   numbered consecutively, whatever mixture of control and presence commits it contains.
   */
  lemma {:induction false} CommitsAreNumberedConsecutively(s: RoomState, cs: seq<Command>, policy: Policy)
    ensures var numbers := Announced(s, cs, policy);
            && (forall i | 0 <= i < |numbers| :: numbers[i] == s.presenceSequence + 1 + i)
            && Run(s, cs, policy).presenceSequence == s.presenceSequence + |numbers|
    decreases |cs|
  {
    if cs != [] {
      var front, c := cs[..|cs| - 1], cs[|cs| - 1];
      CommitsAreNumberedConsecutively(s, front, policy);
      CommitShape(Run(s, front, policy), c, policy);
      ProposalsKeepNumbers(Run(s, front, policy), c, policy);
    }
  }

  lemma UserProposalsKeepNumbers(s: RoomState, atMs: int, c: UserCommand, policy: Policy)
    ensures var d := HandleUser(s, atMs, c, policy); d.Propose? ==> d.next.presenceSequence == s.presenceSequence
  {
    if c.Join? {
      hide LeaveRoom, TakeSeat, MakeReady, ChangeSettings, PassHost, KickMember, VoteRematch, HostCloses;
      JoinProposal(s, c, policy);
    }
  }

  lemma ProposalsKeepNumbers(s: RoomState, c: Command, policy: Policy)
    ensures Decide(s, c, policy).Propose? ==> Decide(s, c, policy).next.presenceSequence == s.presenceSequence
  {
    match c
    case User(atMs, user) =>
      hide HandleUser;
      UserProposalsKeepNumbers(s, atMs, user, policy);
    case System(atMs, system) =>
  }

  // ---------------------------------------------------------------- closed rooms

  /** Nothing commits from a closed room. */
  lemma ClosedRoomsStayClosed(s: RoomState, c: Command, policy: Policy)
    requires Strong(policy.syntax, s) && s.phase.Closed?
    ensures !TransitionRoom(s, c, policy).Committed? && !TransitionRoom(s, c, policy).Thrown?
  {
    assert s.members == map[];
  }

  // ---------------------------------------------------------------- countdowns

  /** Does the effect end the countdown numbered `id`? */
  predicate EndsCountdown(e: Effect, id: int) {
    e.MatchStart? || e.RoomClosedEffect? || (e.CountdownCancel? && e.countdownId == id)
  }

  function Endings(es: seq<Effect>, id: int): nat {
    if es == [] then 0
    else Endings(es[..|es| - 1], id) + (if EndsCountdown(es[|es| - 1], id) then 1 else 0)
  }

  lemma {:induction false} EndingsAppend(es: seq<Effect>, fs: seq<Effect>, id: int)
    ensures Endings(es + fs, id) == Endings(es, id) + Endings(fs, id)
    decreases |fs|
  {
    if fs == [] {
      assert es + fs == es;
    } else {
      EndingsAppend(es, fs[..|fs| - 1], id);
      assert (es + fs)[..|es + fs| - 1] == es + fs[..|fs| - 1];
    }
  }

  lemma EndingsOfOne(e: Effect, id: int)
    ensures Endings([e], id) == if EndsCountdown(e, id) then 1 else 0
  {
    assert [e][..0] == [];
  }

  /** The proposal of a command in the countdown phase: either it keeps the countdown, or it ends it once. */
  predicate EndsOnce(s: RoomState, d: Decision)
    requires s.countdown.Some?
  {
    d.Propose? ==>
      if d.next.phase.Countdown? then d.next.countdown == s.countdown && Endings(d.effects, s.countdown.value.countdownId) == 0
      else Endings(d.effects, s.countdown.value.countdownId) == 1
  }

  lemma UserEndsOnce(s: RoomState, atMs: int, c: UserCommand, policy: Policy)
    requires Strong(policy.syntax, s) && s.phase.Countdown?
    ensures EndsOnce(s, HandleUser(s, atMs, c, policy))
  {
    var id := s.countdown.value.countdownId;
    EndingsOfOne(CountdownCancel(id, RosterChanged), id);
    EndingsOfOne(CountdownCancel(id, Unready), id);
    match c
    case Join(_, _, _, _) => JoinProposal(s, c, policy);
    case Leave(_, _) =>
    case SetSeat(_, _, _) =>
    case SetReady(_, _, _) =>
    case UpdateSettings(_, _, _) =>
    case TransferHost(_, _, _) =>
    case Kick(_, _, target) =>
      EndingsOfOne(Kicked(target), id);
      assert [] + [Kicked(target)] == [Kicked(target)];
    case Rematch(_, _, _) =>
    case CloseRoom(_, _) =>
  }

  lemma LostConnectionEndsOnce(s: RoomState, atMs: int, c: SystemCommand, policy: Policy)
    requires ShapeOk(s) && s.phase.Countdown? && c.ConnectionLost?
    ensures EndsOnce(s, LoseConnection(s, atMs, c, policy))
  {
    var id := s.countdown.value.countdownId;
    var deadline := ReconnectDeadline(c.playerId, atMs + ReconnectGrace(s, c.playerId, policy));
    EndingsOfOne(deadline, id);
    EndingsOfOne(CountdownCancel(id, Disconnect), id);
    EndingsAppend([deadline], [CountdownCancel(id, Disconnect)], id);
    hide Endings;
  }

  lemma ReconnectExpiryEndsOnce(s: RoomState, atMs: int, c: SystemCommand)
    requires ShapeOk(s) && ReadySeatOk(s, First) && ReadySeatOk(s, Second)
    requires s.phase.Countdown? && c.ReconnectElapsed?
    ensures EndsOnce(s, ExpireReconnect(s, atMs, c))
  {
    if IsConnected(s.members, c.playerId) || c.playerId !in s.members {
      return;
    }
    assert SeatOf(s, c.playerId).None?;
    EndingsOfOne(ReconnectExpired(c.playerId), s.countdown.value.countdownId);
    assert [] + [ReconnectExpired(c.playerId)] == [ReconnectExpired(c.playerId)];
  }

  lemma StartEndsOnce(v: Syntax, s: RoomState, atMs: int, c: SystemCommand, policy: Policy)
    requires Strong(v, s) && s.phase.Countdown? && c.CountdownElapsed?
    ensures EndsOnce(s, StartMatch(s, atMs, c, policy))
  {
    RosterNeverChangesDuringCountdown(v, s);
    EndingsOfOne(MatchStart(c.matchId, s.series.value.seriesId, s.countdown.value.gameNumber, RosterOf(s).value),
                 s.countdown.value.countdownId);
  }

  lemma SystemEndsOnce(s: RoomState, atMs: int, c: SystemCommand, policy: Policy)
    requires Strong(policy.syntax, s) && s.phase.Countdown?
    ensures EndsOnce(s, HandleSystem(s, atMs, c, policy))
  {
    match c
    case ConnectionLost(_, _, _) => LostConnectionEndsOnce(s, atMs, c, policy);
    case ConnectionResumed(_, _, _) =>
    case ConnectionReplace(_, _, _, _) =>
    case ReconnectElapsed(_, _) => ReconnectExpiryEndsOnce(s, atMs, c);
    case RoomExpired => EndingsOfOne(RoomClosedEffect(Expired), s.countdown.value.countdownId);
    case AdminClose => EndingsOfOne(RoomClosedEffect(ServerShutdown), s.countdown.value.countdownId);
    case CountdownElapsed(_, _) => StartEndsOnce(policy.syntax, s, atMs, c, policy);
    case MatchFinished(_, _, _, _) =>
  }

  /**
   A room leaves the countdown phase with exactly one announcement: this countdown's cancellation,
   the start of the match, or the closing of the room. While it stays, nothing of the kind is emitted
   and the countdown is untouched.
   */
  lemma LeavingCountdownIsAnnouncedOnce(s: RoomState, c: Command, policy: Policy)
    requires Strong(policy.syntax, s) && s.phase.Countdown?
    requires TransitionRoom(s, c, policy).Committed?
    ensures var t, id := TransitionRoom(s, c, policy), s.countdown.value.countdownId;
            if t.state.phase.Countdown? then t.state.countdown == s.countdown && Endings(t.effects, id) == 0
            else Endings(t.effects, id) == 1
  {
    var id := s.countdown.value.countdownId;
    CommitShape(s, c, policy);
    var d, t := Decide(s, c, policy), TransitionRoom(s, c, policy);
    assert EndsOnce(s, d) by {
      if ExpiresFirst(s, c) {
        EndingsOfOne(RoomClosedEffect(Expired), id);
      } else {
        match c
        case User(atMs, user) => UserEndsOnce(s, atMs, user, policy);
        case System(atMs, system) => SystemEndsOnce(s, atMs, system, policy);
      }
    }
    var last := StateChanged(t.state.revision, t.state.presenceSequence);
    EndingsOfOne(last, id);
    EndingsAppend(d.effects, [last], id);
  }

  /** The countdown ids scheduled by a list of effects. */
  function Schedules(es: seq<Effect>): seq<int> {
    if es == [] then []
    else Schedules(es[..|es| - 1]) + (if es[|es| - 1].CountdownSchedule? then [es[|es| - 1].countdownId] else [])
  }

  /** A proposal schedules nothing, or exactly the next countdown, which then becomes the room's own. */
  predicate SchedulesNext(s: RoomState, d: Decision) {
    d.Propose? ==>
      || (Schedules(d.effects) == [] && d.next.nextCountdownNumber == s.nextCountdownNumber)
      || (&& Schedules(d.effects) == [s.nextCountdownNumber]
          && d.next.nextCountdownNumber == s.nextCountdownNumber + 1
          && d.next.countdown.Some? && d.next.countdown.value.countdownId == s.nextCountdownNumber)
  }

  predicate NoSchedule(es: seq<Effect>) { forall e | e in es :: !e.CountdownSchedule? }

  lemma {:induction false} NoScheduleMeansNone(es: seq<Effect>)
    requires NoSchedule(es)
    ensures Schedules(es) == []
    decreases |es|
  {
    if es != [] {
      NoScheduleMeansNone(es[..|es| - 1]);
    }
  }

  lemma {:induction false} RenewingSchedulesNothing(members: Members, ids: seq<Id>, deadline: int)
    ensures NoSchedule(RenewDeadlines(members, ids, deadline).1)
    decreases |ids|
  {
    if ids != [] {
      RenewingSchedulesNothing(members, ids[..|ids| - 1], deadline);
    }
  }

  /** Nothing but getting ready and a rematch schedules a countdown. */
  lemma OtherUsersScheduleNothing(s: RoomState, atMs: int, c: UserCommand, policy: Policy)
    requires !c.SetReady? && !c.Rematch? && HandleUser(s, atMs, c, policy).Propose?
    ensures NoSchedule(HandleUser(s, atMs, c, policy).effects)
    ensures HandleUser(s, atMs, c, policy).next.nextCountdownNumber == s.nextCountdownNumber
  {
    if c.Join? {
      hide LeaveRoom, TakeSeat, ChangeSettings, PassHost, KickMember, HostCloses;
      JoinProposal(s, c, policy);
    }
  }

  lemma CountdownsAreNext(s: RoomState, atMs: int, c: UserCommand, policy: Policy)
    requires (c.SetReady? || c.Rematch?) && HandleUser(s, atMs, c, policy).Propose?
    ensures SchedulesNext(s, HandleUser(s, atMs, c, policy))
  {
    var d := HandleUser(s, atMs, c, policy);
    if NoSchedule(d.effects) {
      NoScheduleMeansNone(d.effects);
    } else {
      assert d.effects[..0] == [];
    }
  }

  lemma UserSchedulesNext(s: RoomState, atMs: int, c: UserCommand, policy: Policy)
    ensures SchedulesNext(s, HandleUser(s, atMs, c, policy))
  {
    hide HandleUser;
    var d := HandleUser(s, atMs, c, policy);
    if d.Propose? {
      if c.SetReady? || c.Rematch? {
        CountdownsAreNext(s, atMs, c, policy);
      } else {
        OtherUsersScheduleNothing(s, atMs, c, policy);
        NoScheduleMeansNone(d.effects);
      }
    }
  }

  lemma SystemSchedulesNext(s: RoomState, atMs: int, c: SystemCommand, policy: Policy)
    ensures SchedulesNext(s, HandleSystem(s, atMs, c, policy))
  {
    var d := HandleSystem(s, atMs, c, policy);
    if d.Propose? {
      SystemSchedulesNothing(s, atMs, c, policy);
      NoScheduleMeansNone(d.effects);
    }
  }

  lemma SystemSchedulesNothing(s: RoomState, atMs: int, c: SystemCommand, policy: Policy)
    requires HandleSystem(s, atMs, c, policy).Propose?
    ensures NoSchedule(HandleSystem(s, atMs, c, policy).effects)
    ensures HandleSystem(s, atMs, c, policy).next.nextCountdownNumber == s.nextCountdownNumber
  {
    match c
    case ConnectionLost(_, _, _) =>
    case ConnectionResumed(_, _, _) =>
    case ConnectionReplace(_, _, _, _) =>
    case ReconnectElapsed(_, _) =>
    case RoomExpired =>
    case AdminClose =>
    case CountdownElapsed(_, _) =>
    case MatchFinished(_, _, _, _) =>
      RenewingSchedulesNothing(s.members, Participants(s.activeMatch.value), atMs + policy.lobbyReconnectGraceMs);
  }

  /** The countdown ids scheduled over a run. */
  function ScheduledOver(s: RoomState, cs: seq<Command>, policy: Policy): seq<int>
    decreases |cs|
  {
    if cs == [] then []
    else
      var front := cs[..|cs| - 1];
      ScheduledOver(s, front, policy) + Schedules(Emitted(Run(s, front, policy), cs[|cs| - 1], policy))
  }

  lemma StepSchedulesNext(s: RoomState, c: Command, policy: Policy)
    ensures var es, next := Schedules(Emitted(s, c, policy)), After(s, c, policy).nextCountdownNumber;
            || (es == [] && next == s.nextCountdownNumber)
            || (es == [s.nextCountdownNumber] && next == s.nextCountdownNumber + 1)
  {
    var d, t := Decide(s, c, policy), TransitionRoom(s, c, policy);
    CommitShape(s, c, policy);
    if t.Committed? {
      assert SchedulesNext(s, d) by {
        if ExpiresFirst(s, c) {
          NoScheduleMeansNone(d.effects);
        } else {
          match c
          case User(atMs, user) => UserSchedulesNext(s, atMs, user, policy);
          case System(atMs, system) => SystemSchedulesNext(s, atMs, system, policy);
        }
      }
      assert t.effects[..|t.effects| - 1] == d.effects;
    }
  }

  /** Countdown ids are never reused: over any run the scheduled ids are consecutive numbers. */
  lemma {:induction false} CountdownIdsAreNeverReused(s: RoomState, cs: seq<Command>, policy: Policy)
    ensures var ids := ScheduledOver(s, cs, policy);
            && (forall i | 0 <= i < |ids| :: ids[i] == s.nextCountdownNumber + i)
            && Run(s, cs, policy).nextCountdownNumber == s.nextCountdownNumber + |ids|
    decreases |cs|
  {
    if cs != [] {
      CountdownIdsAreNeverReused(s, cs[..|cs| - 1], policy);
      StepSchedulesNext(Run(s, cs[..|cs| - 1], policy), cs[|cs| - 1], policy);
    }
  }

  // ---------------------------------------------------------------- matches

  predicate Starts(c: Command, m: Id) { c.System? && c.system.CountdownElapsed? && c.system.matchId == m }

  predicate IsPlaying(s: RoomState, m: Id) { s.activeMatch.Some? && s.activeMatch.value.matchId == m }

  predicate AwaitsForfeit(s: RoomState, m: Id) { IsPlaying(s, m) && !s.activeMatch.value.resolutionRequested }

  /** Do the effects announce the start of match `m`? */
  predicate Announces(es: seq<Effect>, m: Id) { exists i | 0 <= i < |es| :: es[i].MatchStart? && es[i].matchId == m }

  /** How often match `m` was started over a run. */
  function StartedOver(s: RoomState, cs: seq<Command>, m: Id, policy: Policy): nat
    decreases |cs|
  {
    if cs == [] then 0
    else
      var front := cs[..|cs| - 1];
      StartedOver(s, front, m, policy) + Bit(Announces(Emitted(Run(s, front, policy), cs[|cs| - 1], policy), m))
  }

  /** Does the command commit the result of match `m`? */
  predicate Scores(s: RoomState, c: Command, m: Id, policy: Policy) {
    && c.System? && c.system.MatchFinished? && c.system.matchId == m
    && !ExpiresFirst(s, c) && TransitionRoom(s, c, policy).Committed?
  }

  /** How often match `m` was scored over a run. */
  function ScoredOver(s: RoomState, cs: seq<Command>, m: Id, policy: Policy): nat
    decreases |cs|
  {
    if cs == [] then 0
    else
      var front, c := cs[..|cs| - 1], cs[|cs| - 1];
      ScoredOver(s, front, m, policy) +
      Bit(Scores(Run(s, front, policy), c, m, policy))
  }

  function Forfeits(es: seq<Effect>, m: Id): nat {
    if es == [] then 0
    else Forfeits(es[..|es| - 1], m) +
         (if es[|es| - 1].DisconnectForfeit? && es[|es| - 1].matchId == m then 1 else 0)
  }

  /** How many disconnect forfeits of match `m` were requested over a run. */
  function ForfeitsOver(s: RoomState, cs: seq<Command>, m: Id, policy: Policy): nat
    decreases |cs|
  {
    if cs == [] then 0
    else
      var front := cs[..|cs| - 1];
      ForfeitsOver(s, front, m, policy) + Forfeits(Emitted(Run(s, front, policy), cs[|cs| - 1], policy), m)
  }

  function Bit(b: bool): nat { if b then 1 else 0 }

  /** A step becomes a player of `m` only by starting `m`, and scoring `m` stops playing it. */
  lemma MatchStep(s: RoomState, c: Command, m: Id, policy: Policy)
    ensures var t := After(s, c, policy);
            && (IsPlaying(t, m) ==> IsPlaying(s, m) || Announces(Emitted(s, c, policy), m))
            && (AwaitsForfeit(t, m) ==> AwaitsForfeit(s, m) || Announces(Emitted(s, c, policy), m))
            && (Scores(s, c, m, policy) ==> IsPlaying(s, m) && !IsPlaying(t, m))
  {
    hide HandleUser, HandleSystem, Announces;
    CommitShape(s, c, policy);
    if TransitionRoom(s, c, policy).Committed? {
      AnnouncementsAreEmitted(s, c, m, policy);
    }
    if !ExpiresFirst(s, c) {
      match c
      case User(atMs, user) =>
        UserKeepsOrDropsMatch(s, atMs, user, policy);
      case System(atMs, system) =>
        SystemMatchStep(s, atMs, system, m, policy);
    }
  }

  lemma UserKeepsOrDropsMatch(s: RoomState, atMs: int, c: UserCommand, policy: Policy)
    ensures var d := HandleUser(s, atMs, c, policy);
            d.Propose? ==> d.next.activeMatch == s.activeMatch || d.next.activeMatch.None?
  {
    if c.Join? {
      JoinProposal(s, c, policy);
    }
  }

  lemma SystemMatchStep(s: RoomState, atMs: int, c: SystemCommand, m: Id, policy: Policy)
    ensures var d := HandleSystem(s, atMs, c, policy);
            d.Propose? ==>
              && (IsPlaying(d.next, m) ==> IsPlaying(s, m) || Announces(d.effects, m))
              && (AwaitsForfeit(d.next, m) ==> AwaitsForfeit(s, m) || Announces(d.effects, m))
              && (c.MatchFinished? && c.matchId == m ==> IsPlaying(s, m) && !IsPlaying(d.next, m))
  {
    if c.CountdownElapsed? {
      StartsAreAnnounced(s, atMs, c, policy);
    }
  }

  lemma StartsAreAnnounced(s: RoomState, atMs: int, c: SystemCommand, policy: Policy)
    requires c.CountdownElapsed?
    ensures var d := StartMatch(s, atMs, c, policy);
            d.Propose? ==>
              || d.next.activeMatch == s.activeMatch || d.next.activeMatch.None?
              || (IsPlaying(d.next, c.matchId) && Announces(d.effects, c.matchId))
  {
    var d := StartMatch(s, atMs, c, policy);
    assert d.Propose? && d.effects != [] && d.effects[0].MatchStart? ==> Announces(d.effects, d.effects[0].matchId);
  }

  /** What a decision announces the commit emits. */
  lemma AnnouncementsAreEmitted(s: RoomState, c: Command, m: Id, policy: Policy)
    requires TransitionRoom(s, c, policy).Committed?
    ensures Decide(s, c, policy).Propose? && Announces(Decide(s, c, policy).effects, m) ==> Announces(Emitted(s, c, policy), m)
  {
    CommitShape(s, c, policy);
    var d, t := Decide(s, c, policy), TransitionRoom(s, c, policy);
    if d.Propose? && Announces(d.effects, m) {
      var i :| 0 <= i < |d.effects| && d.effects[i].MatchStart? && d.effects[i].matchId == m;
      assert t.effects[..|t.effects| - 1] == d.effects;
      assert t.effects[i] == d.effects[i];
    }
  }

  /**
   With fresh match ids, each match is scored at most once: over any run the number of times a
   match is scored, plus one if it is being played, is bounded by how often it was started.
   */
  lemma {:induction false} MatchesAreScoredAtMostOncePerStart(s: RoomState, cs: seq<Command>, m: Id, policy: Policy)
    ensures ScoredOver(s, cs, m, policy) + Bit(IsPlaying(Run(s, cs, policy), m))
            <= StartedOver(s, cs, m, policy) + Bit(IsPlaying(s, m))
    decreases |cs|
  {
    if cs != [] {
      var front, c := cs[..|cs| - 1], cs[|cs| - 1];
      MatchesAreScoredAtMostOncePerStart(s, front, m, policy);
      MatchStep(Run(s, front, policy), c, m, policy);
    }
  }

  lemma {:induction false} OnlyForfeitsCount(es: seq<Effect>, m: Id)
    requires forall e | e in es :: !e.DisconnectForfeit?
    ensures Forfeits(es, m) == 0
    decreases |es|
  {
    if es != [] {
      OnlyForfeitsCount(es[..|es| - 1], m);
    }
  }

  lemma {:induction false} RenewingForfeitsNothing(members: Members, ids: seq<Id>, deadline: int)
    ensures forall e | e in RenewDeadlines(members, ids, deadline).1 :: !e.DisconnectForfeit?
    decreases |ids|
  {
    if ids != [] {
      RenewingForfeitsNothing(members, ids[..|ids| - 1], deadline);
    }
  }

  lemma UserForfeitsNothing(s: RoomState, atMs: int, c: UserCommand, policy: Policy)
    ensures var d := HandleUser(s, atMs, c, policy);
            d.Propose? ==> forall e | e in d.effects :: !e.DisconnectForfeit?
  {
    if c.Join? {
      JoinProposal(s, c, policy);
    }
  }

  lemma SystemForfeitsOnce(s: RoomState, atMs: int, c: SystemCommand, policy: Policy)
    ensures var d := HandleSystem(s, atMs, c, policy);
            d.Propose? ==>
              || (forall e | e in d.effects :: !e.DisconnectForfeit?)
              || (&& s.activeMatch.Some? && !s.activeMatch.value.resolutionRequested
                  && d.next.activeMatch == Some(s.activeMatch.value.(resolutionRequested := true))
                  && |d.effects| == 1 && d.effects[0].DisconnectForfeit?
                  && d.effects[0].matchId == s.activeMatch.value.matchId)
  {
    var d := HandleSystem(s, atMs, c, policy);
    if d.Propose? && c.MatchFinished? {
      RenewingForfeitsNothing(s.members, Participants(s.activeMatch.value), atMs + policy.lobbyReconnectGraceMs);
    }
  }

  /** What a proposal's effects and next state may do to the pending forfeit of match `m`. */
  predicate ForfeitsWithinCredit(s: RoomState, d: Decision, m: Id) {
    d.Propose? ==> Forfeits(d.effects, m) + Bit(AwaitsForfeit(d.next, m)) <= Bit(AwaitsForfeit(s, m))
  }

  lemma UserForfeitsWithinCredit(s: RoomState, atMs: int, c: UserCommand, m: Id, policy: Policy)
    ensures ForfeitsWithinCredit(s, HandleUser(s, atMs, c, policy), m)
  {
    var d := HandleUser(s, atMs, c, policy);
    if d.Propose? {
      UserKeepsOrDropsMatch(s, atMs, c, policy);
      UserForfeitsNothing(s, atMs, c, policy);
      OnlyForfeitsCount(d.effects, m);
    }
  }

  lemma SystemForfeitsWithinCredit(s: RoomState, atMs: int, c: SystemCommand, m: Id, policy: Policy)
    requires !(c.CountdownElapsed? && c.matchId == m)
    ensures ForfeitsWithinCredit(s, HandleSystem(s, atMs, c, policy), m)
  {
    var d := HandleSystem(s, atMs, c, policy);
    if d.Propose? {
      SystemMatchStep(s, atMs, c, m, policy);
      SystemForfeitsOnce(s, atMs, c, policy);
      if forall e | e in d.effects :: !e.DisconnectForfeit? {
        OnlyForfeitsCount(d.effects, m);
      } else {
        assert d.effects[..|d.effects| - 1] == [];
        assert Forfeits(d.effects, m) == Bit(s.activeMatch.value.matchId == m);
      }
    }
  }

  lemma StartForfeitsNothing(s: RoomState, atMs: int, c: SystemCommand, m: Id, policy: Policy)
    requires c.CountdownElapsed?
    ensures var d := StartMatch(s, atMs, c, policy); d.Propose? ==> Forfeits(d.effects, m) == 0
  {
    var d := StartMatch(s, atMs, c, policy);
    if d.Propose? {
      OnlyForfeitsCount(d.effects, m);
    }
  }

  lemma DecisionForfeits(s: RoomState, c: Command, m: Id, policy: Policy)
    ensures var d := Decide(s, c, policy);
            d.Propose? ==>
              Forfeits(d.effects, m) + Bit(AwaitsForfeit(d.next, m)) <= Bit(AwaitsForfeit(s, m)) + Bit(Announces(d.effects, m))
  {
    if ExpiresFirst(s, c) {
      OnlyForfeitsCount([RoomClosedEffect(Expired)], m);
    } else {
      match c
      case User(atMs, user) => UserForfeitsWithinCredit(s, atMs, user, m, policy);
      case System(atMs, system) =>
        if Starts(c, m) {
          StartForfeitsNothing(s, atMs, system, m, policy);
        } else {
          SystemForfeitsWithinCredit(s, atMs, system, m, policy);
        }
    }
  }

  lemma ForfeitStep(s: RoomState, c: Command, m: Id, policy: Policy)
    ensures Forfeits(Emitted(s, c, policy), m) + Bit(AwaitsForfeit(After(s, c, policy), m)) <=
            Bit(AwaitsForfeit(s, m)) + Bit(Announces(Emitted(s, c, policy), m))
  {
    CommitShape(s, c, policy);
    DecisionForfeits(s, c, m, policy);
    var d, t := Decide(s, c, policy), TransitionRoom(s, c, policy);
    if t.Committed? {
      AnnouncementsAreEmitted(s, c, m, policy);
      assert t.effects[..|t.effects| - 1] == d.effects;
    }
  }

  /** Each started match is asked to end by disconnect forfeit at most once. */
  lemma {:induction false} MatchesForfeitAtMostOncePerStart(s: RoomState, cs: seq<Command>, m: Id, policy: Policy)
    ensures ForfeitsOver(s, cs, m, policy) + Bit(AwaitsForfeit(Run(s, cs, policy), m)) <=
            StartedOver(s, cs, m, policy) + Bit(AwaitsForfeit(s, m))
    decreases |cs|
  {
    if cs != [] {
      var front, c := cs[..|cs| - 1], cs[|cs| - 1];
      MatchesForfeitAtMostOncePerStart(s, front, m, policy);
      ForfeitStep(Run(s, front, policy), c, m, policy);
    }
  }
}

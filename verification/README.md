# TETR-D in Dafny

A verification project for TETR-D, an authoritative 1v1 block-stacking server with a predicting
client. It models the server's and the client's state machines, states what each of them promises
over every input and every run, and proves it. `dafny verify dfyconfig.toml` checks everything.

## How the project is built

Every component appears twice where the source changes state in place. A *value* module gives the
state as a datatype and each step as a function; a *class* (or a method with loops) has the source's
fields and updates them, and its contracts tie the new state to those functions. The properties are
lemmas about the functions, over single steps and over whole runs (`Run`, `RunMatch`, `Ran`, …, which
fold a list of calls, messages or events). The laws of an operation are stated in terms of what a
caller sees (the lock log, the commands and effects so far, the cells of the board), not of the
functions that compute it. Exceptions of the source are values: `Result`, `Option`, or a
`threw` flag.

- **Room** (`RoomModel`, `RoomReducer`, `RoomInvariants`, `RoomSafety`, `RoomTraces`, `RoomScores`, `RoomGuards`,
  `RoomPresence`, `RoomAnnouncements`): the room reducer with all its commands, the runtime assertion it ends every commit with, the
  strengthened inductive invariant that shows when this assertion can fail, trace properties, the score sheet as a
  count of committed results, who may do what when, deadlines, and what is announced.
- **Player simulation** (`Pieces`, `Boards`, `Rotation`, `SrsPlus`, `Garbage`, `Attack`, `Simulation`,
  `PlayerSimulation`, and the laws in `SimulationLaws`, `SimulationLedger`, `SimulationHolds`, `SimulationFlow`,
  `SimulationTraces`, `SimulationClock`, `SimulationDrift`, `SimulationKeys`, `LockLedger`, `GarbageRows`, `SpinLaws`, `SpawnLaws`; the
  arithmetic is in `Quotients`): geometry, locking, garbage, attack, generation buffers, movement, gravity, lock
  delay; safety and conservation over runs, and what a lock is worth, read off the log of the locks before it.
- **Match** (`MatchInputQueue`, `InputAcceptance`, `MatchCoordinator`, `MatchEvents`, `MatchReplay`, `MatchReplayLaws`,
  `MatchReplayReconstructor`, `ReplayFidelity`, `MatchLedger`, `MatchEndings`, `MatchPlayers`, `CrowdedMatch`): the
  epoch-numbered input queue, the coordinator over two abstract player steps, the replay recorder and the
  reconstruction, the same with the concrete simulation plugged in, and who wins.
- **Delta synchronisation** (`StateDelta`, `MatchDelta`, `DeltaSoundness`, `DeltaEconomy`): patches, baselines, the
  client receiver, soundness over a lossy channel, and what an update may and must contain.
- **Delivery** (`CommitOutbox`, `CommitOutboxLaws`, `CommitAttempts`, `RoomRuntime`, `RuntimeOrder`, `RoomActors`): the
  room runtimes and the commit outbox cut into atomic steps at every `await`.
- **Time and rate** (`FixedStepLoop`, `FixedStepPace`, `RateLimiter`, `RateAnswers`): integer nanoseconds for pacing,
  exact reals for the tokens.
- **Client** (`HandlingEngine`, `HandlingLaws`, `HandlingKeys`, `HandlingOrder`, `HandlingTiming`, `Prediction`,
  `PredictionLaws`, `PredictionFailures`): key handling with two merged timers, and the prediction of the
  own player, with matches in which it fails.
- **Pieces to come** (`SevenBag`, `MatchPieceSequence`): the shuffle, the lazily extended shared
  sequence, the per-player cursors, and the commitment to the seed.

Times in milliseconds that the source keeps as doubles are reals, counters are unbounded integers,
ids are natural numbers, and board rows are sets of columns. Kick tables, the logarithmic combo
floor, rounding rolls, the random number generator and hash functions are parameters; nothing is
known of them but that they are functions (rolls lie in [0, 1), the generator stays below its bound,
and the state hash is injective where a lemma says so). The game's own kick tests are in `SrsPlus`.

## What turned out not to hold

Each of these is a property one would expect of the code, with an input that breaks it and the exact
condition under which it holds.

- The room assertion can fail: a `member.join` that passes every guard and carries a connection id
  that a connected member already holds makes the reducer throw. Input: `RoomTraces.CollidingJoinThrows`;
  nothing else does it: `RoomSafety.TransitionThrowsExactlyOnCollision`,
  `RoomTraces.RunsThrowExactlyOnCollision`.
- A frame that is handed more than 64 actions of one player raises an error in the simulation, and
  the log of such a match does not reconstruct. Input: five full envelopes before the first frame,
  `CrowdedMatches.CrowdedMatchesDoNotReplay`; condition: `MatchLedger.MatchesReplayUnlessCrowded`.
- A delta silently carries a player over whose board changed height. Input:
  `StateDelta.GrownBoardsAreCarriedOver`; condition: `StateDelta.PatchesRoundTrip`. Boards of this
  system always have 40 rows.
- The rate bound of capacity plus refill does not survive a removal of the connection, nor limits whose
  idle time is too short for a full refill. Input: `RateLimiter.RemovalBreaksTheRate`; condition on the
  limits: `RateLimiter.PlainBoundHoldsExactlyWhenEvictionIsFair`; the bound that always holds:
  `RateLimiter.RequestsStayWithinTheRate`.
- A commit's retry is lost when the clock reads invalid or both schedulers throw, and its lane sleeps
  until the next commit of that room. Input: `CommitOutboxLaws.LostRetrySleeps`; condition, on every run:
  `CommitOutboxLaws.LanesSleepExactlyWhileDormant`, and `CommitOutboxLaws.SchedulableRetriesAreNeverLost`.
- Duplicate detection ends with the completed commits the outbox still remembers: a commit offered again
  to an idle room settles again exactly when its key is neither pending nor retained,
  `CommitOutboxLaws.ReofferedCommitsSettleAgainExactlyWhenForgotten`. Input: one commit more than the
  outbox retains and then the first again, `CommitOutboxLaws.ForgottenCommitsSettleTwice`. So the outbox's
  laws ask that a room's commits arrive in increasing order, which the runtimes guarantee for every room
  (`RoomDelivery.EffectsFollowTheCommits`).
- One advance of the handling engine can emit 513 actions, and then the backlog is not skipped. Input:
  two keys held for a second, `HandlingTiming.HeldKeysCanOvershoot`; condition, on the timers before the
  call: `HandlingTiming.BacklogRemainsExactlyAfterAMeeting`.
- With an instant repeat rate, 512 soft drop cells in one advance forget a charging auto shift whose
  key stays down. Input: `HandlingTiming.HeldKeysCanStarve`; condition:
  `HandlingTiming.AutoShiftDiesExactlyWhenStarved`.
- Reporting a spawn cuts the auto shift before the clock advances, so its outcome depends on whether
  the engine was polled, with or without a cut delay. Input: one direction key held a little past the
  delay, `HandlingTiming.HeldKeysMakePollingMatter`; condition:
  `HandlingTiming.SpawnsDependOnPollingExactlyWhenAShiftIsDue`.
- Prediction and server disagree in four ways, each shown on a match from its first piece on, and while
  no garbage is ready and the preview suffices in no other (`PredictionLaws.PredictionIsRightThroughoutExactlyWhenForeseen`):
  - a rotation that rescues a blocked spawn: input `PredictionFailures.RescuesAreLost`, condition
    `PredictionLaws.RescuesAreMispredicted`;
  - a direction key event that repeats or reverses: input `PredictionFailures.RepeatedPressesAreMispredicted`,
    condition `PredictionLaws.MovesAlikeExactlyWhenForeseen`;
  - a hold whose piece the server lifts: input `PredictionFailures.LiftedHoldsAreLost`, condition
    `PredictionLaws.HoldsSpawnAlikeExactlyWhenForeseen`;
  - rotations after a hold of which the last does not decide: input
    `PredictionFailures.TurnsAfterAHoldAreLost`, condition
    `PredictionLaws.RotationsAfterAHoldExactlyWhenTheLastDecides`.

## Model

| member | source | states |
|---|---|---|
| RoomInvariants.AssertMembers | packages/room-core/src/invariants.ts:40-88 | the member loop, which remembers ordinals and live connection ids, finds a fault exactly when a member is malformed or two members clash, in whatever order they are visited |
| RoomInvariants.AssertRoomInvariants | packages/room-core/src/invariants.ts:13-208 | the runtime assertion succeeds if and only if the room satisfies the declarative invariant |
| RoomReducer.RenewAll | packages/room-core/src/handlers/matchCommands.ts:92-177 | the participant loop of a finished match renews the deadlines of those who are away, in order, with their timer effects |
| RoomSafety.ChooseHostFindsTheBest | packages/room-core/src/validation.ts:108-120 | a room with a connected member gets a host, and it is the best one: a seated member before any spectator, the earliest joiner within its group |
| RoomSafety.ChooseHostBySorting | packages/room-core/src/validation.ts:108-120 | sorting the connected members with the four-group comparator and taking the first gives that host, whatever order they were in |
| RoomSafety.LeastHost | packages/room-core/src/validation.ts:108-120 | any non-empty set of members has a least element in the host order, because ordinals are distinct |
| RoomSafety.MembersAdded | packages/room-core/src/handlers/roomCommands.ts:41-102 | adding a newcomer keeps the members free of clashes exactly when no connected member holds its connection id |
| RoomSafety.RosterNeverChangesDuringCountdown | packages/room-core/src/handlers/matchCommands.ts:40-57 | the branch that cancels an elapsed countdown because the roster changed is unreachable |
| RoomSafety.ScoringKeepsSeries | packages/room-core/src/handlers/matchCommands.ts:121-144 | one more game adds one to the games, one to the winner's count and nothing to the other's, and keeps the score sheet consistent: there is a winner exactly when somebody has just reached the target, and it is the winner of this game |
| RoomSafety.TransitionThrowsExactlyOnCollision | packages/room-core/src/room.ts:24-59 | from the strengthened invariant a command makes the reducer throw exactly when it is an admitted join on a connection id in use; otherwise it commits a state with the invariant, or rejects, or ignores |
| RoomTraces.FreshRoomIsStrong | packages/room-core/src/createRoom.ts:17-78 | a created room satisfies the strengthened invariant |
| RoomTraces.ReachableRoomsAreStrong | packages/room-core/src/operations.ts:35-62 | every state reachable from `createRoom` under any commands satisfies it |
| RoomTraces.RunsThrowExactlyOnCollision | packages/room-core/src/operations.ts:35-62 | on every run the assertion fails exactly on an admitted join with a connection id in use |
| RoomTraces.CollidingJoinThrows | packages/room-core/src/handlers/roomCommands.ts:41-102 | a concrete room and join for which it fails |
| RoomTraces.CommitsAreNumberedConsecutively | packages/room-core/src/operations.ts:35-62 | over any run the commits announce consecutive presence numbers |
| RoomTraces.ClosedRoomsStayClosed | packages/room-core/src/room.ts:32-57 | no command commits from the closed phase |
| RoomTraces.LeavingCountdownIsAnnouncedOnce | packages/room-core/src/operations.ts:110-212 | leaving the countdown emits exactly one of its cancellation, a match start or the closing; while it stays nothing of the kind is emitted |
| RoomTraces.CountdownIdsAreNeverReused | packages/room-core/src/operations.ts:178-212 | over any run the scheduled countdown ids are consecutive numbers |
| RoomTraces.MatchesAreScoredAtMostOncePerStart | packages/room-core/src/handlers/matchCommands.ts:29-177 | over any run a match is scored, and played at the end, at most as often as its start was committed and announced, so once with fresh match ids |
| RoomTraces.MatchesForfeitAtMostOncePerStart | packages/room-core/src/handlers/presenceCommands.ts:204-275 | over any run a match is asked to end by disconnect forfeit at most once per committed start |
| RoomScores.WinsAreCountedResults | packages/room-core/src/handlers/matchCommands.ts:92-177 | on every run each seat's wins are the committed results of its series that its roster player has won, results without a winner count for nobody, the games played are all of them; the series is complete exactly when a count reaches the target, its winner is that player, and the room is in that phase exactly then |
| RoomScores.ResultsAreCommittedExactlyWhenConsistent | packages/room-core/src/handlers/matchCommands.ts:92-120 | a reported result is committed if and only if it is that of the match in play, its frame is a safe counter, and winner and reason fit each other and the match |
| RoomScores.OpenSeriesSurvive | packages/room-core/src/operations.ts:125-176 | on every run no command touches a series that is not decided, but by a result, unless the room closes or the seats change |
| RoomScores.StartsAnnounceTheNextGame | packages/room-core/src/handlers/matchCommands.ts:61-89 | on every run a match start names the open series, its roster and the game number one above the results committed so far |
| RoomGuards.CommandsAreTakenExactlyWhenAllowed | packages/room-core/src/handlers/roomCommands.ts:40-366 | from any state with the strengthened invariant a user command is committed if and only if its actor may give it in this phase (a join on a connection id in use excepted), and then has its effect on members, seats, host, settings, readiness, votes and phase |
| RoomGuards.RefusalsAreTruthful | packages/room-core/src/handlers/roomCommands.ts:40-366 | a user command is never passed over in silence, and the code of a refusal is true of the room and the command |
| RoomGuards.CountdownsBeginExactlyWhenBothAreReady | packages/room-core/src/handlers/roomCommands.ts:153-206 | a player's readiness starts the countdown exactly when the other seat is ready and both are present, with the time of its end in the scheduled timer; otherwise only this readiness changes |
| RoomGuards.MatchesStartExactlyWhenTheirCountdownElapses | packages/room-core/src/handlers/matchCommands.ts:29-90 | a match starts if and only if its own countdown has run its time, and the start names the countdown's game and the roster |
| RoomGuards.MembersMayReturnUntilTheDeadline | packages/room-core/src/handlers/presenceCommands.ts:31-215 | a lost connection is noted exactly for the connection it was, with the grace of the phase; the member may return exactly before that deadline and with a free connection id; the timer acts only from the deadline on |
| RoomGuards.KickedPlayersStayOut | packages/room-core/src/operations.ts:214-242 | after any run with fewer further kicks than the room remembers, a kicked player's join is not committed |
| RoomPresence.InputIsClearedExactlyForPlayersInAMatch | packages/room-core/src/handlers/presenceCommands.ts:85-94 | losing or replacing a connection asks to release keys exactly for that player and exactly if seated in a match in play |
| RoomPresence.DeadlinesForfeitOrRemove | packages/room-core/src/handlers/presenceCommands.ts:204-274 | at the deadline a player in a match forfeits to the opponent, if that one is connected, and stays seated; anyone else is removed |
| RoomPresence.ResultsRenewTheDeadlines | packages/room-core/src/handlers/matchCommands.ts:145-165 | a result gives each player who is away the lobby's grace from now, with its timer and without a pending forfeit, and changes no other member |
| RoomPresence.AbsentPlayersAgreeToNothing | packages/room-core/src/handlers/presenceCommands.ts:67-88 | on every run only players who are seated and present are ready or have voted for a rematch: absence withdraws both |
| RoomPresence.RoomsExpireInTime | packages/room-core/src/operations.ts:21-33 | on every run the room's deadline is the last commit plus the idle time of its situation, and never past its absolute limit |
| RoomPresence.ExpiredRoomsClose | packages/room-core/src/room.ts:35-49 | a command at or after the deadline closes a room without a match in play; the expiry timer is taken exactly from the deadline on |
| RoomPresence.RevisionsCountWhatPlayersSee | packages/room-core/src/operations.ts:35-62 | a commit takes the next revision or keeps it; every user command takes it; where it is kept only connections, times and the commit number differ; losing, resuming and replacing a connection take it exactly when a seat or the host is concerned |
| RoomAnnouncements.EffectsTellExactlyWhatHappened | packages/room-core/src/operations.ts:35-62 | an effect is among those of a commit if and only if it is the commit's number or describes what happened between the states before and after: countdowns begun and called off with the cause, the start, keys to release, forfeits, deadlines, departures and the closing with its reason |
| Pieces.LocalCellsFillTheBox | packages/game-core/src/pieces.ts:76-98 | every rotation of every kind has four distinct cells inside its box |
| Pieces.TurnCells | packages/game-core/src/pieces.ts:86-98 | the turning loop computes the cells of a rotation |
| Pieces.WorldCellsAreDistinct | packages/game-core/src/pieces.ts:100-110 | a placed piece covers four different cells within three of its origin |
| Pieces.FourTurnsAreNone | packages/game-core/src/pieces.ts:76-98 | four quarter turns bring every cell back |
| Rotation.TryRotateByLoop | packages/game-core/src/rotation.ts:45-81 | the index loop over the kick tests finds the first candidate that fits |
| Rotation.RotationTakesTheFirstFit | packages/game-core/src/rotation.ts:45-81 | rotation succeeds with the first kick whose placement is legal, and fails exactly when none is |
| SrsPlus.MirroredBoardsTurnAlike | packages/game-core/src/srsPlus.ts:29-171 | with the game's kick tests neither side is favoured: on the mirrored board the mirrored piece makes the opposite quarter turn by the same test to the mirrored place, or fails alike |
| Boards.Compact | packages/game-core/src/board.ts:207-220 | the compaction loop separates full rows from the rest, flags beside them |
| Boards.LockPieceByLoops | packages/game-core/src/board.ts:188-243 | occupying, compacting and padding by loops is the locking function, including its error |
| Boards.LockingConservesCells | packages/game-core/src/board.ts:188-243 | locking changes the cell count by exactly 4 − 10·cleared, and a perfect clear is reported exactly when nothing is left |
| Boards.LockingKeepsRowOrder | packages/game-core/src/board.ts:188-243 | a surviving row moves down by the cleared rows below it and keeps its garbage flag; the reported indices are the full rows |
| Boards.LockingLeavesNoFullRow | packages/game-core/src/board.ts:188-243 | the resulting board is well formed and has no full row |
| Boards.LockingClearsAtMostFour | packages/game-core/src/board.ts:188-243 | from a board without full rows at most four lines clear |
| Boards.InsertingKeepsBoard | packages/game-core/src/board.ts:245-284 | garbage insertion keeps a board well formed and creates no full row |
| Boards.InsertingLosesOnlyTheTop | packages/game-core/src/board.ts:245-284 | inserting k rows loses the top k rows and nothing else: every other row moves up by k with its flag, the flagged rows below have the given holes, and overflow is reported exactly when a cell was lost |
| Garbage.CancelByLoop | packages/game-core/src/garbageQueue.ts:44-73 | the cancellation loop computes the cancellation function |
| Garbage.CancellationConserves | packages/game-core/src/garbageQueue.ts:44-73 | what is cancelled left the queue, the attack is either spent or sent on, and something is sent on only when the queue is empty |
| Garbage.CancellationIsAdditive | packages/game-core/src/garbageQueue.ts:44-73 | cancelling with a and then b gives the queue, the cancelled and the outgoing total of a + b, under either multiplier |
| Garbage.SplittingAttackIsNeutral | packages/game-core/src/playerLockResolution.ts:108-119 | cancelling packet by packet neither gains nor loses attack against one packet of their sum |
| Garbage.TakeByLoop | packages/game-core/src/garbageQueue.ts:75-112 | the application loop computes the rows taken and the queue left |
| Garbage.TakingConserves | packages/game-core/src/garbageQueue.ts:75-112 | rows taken and rows left add up to the queue, and no more than the cap is taken |
| Garbage.SortedQueuesGiveAllReadyRows | packages/game-core/src/garbageQueue.ts:75-112 | a queue sorted by due frame gives exactly min(cap, ready rows) |
| GarbageRows.CancellingTakesTheFront | packages/game-core/src/garbageQueue.ts:44-73 | with packets unrolled to single rows, cancelling removes exactly as many rows from the front of the queue as it reports, and no other row moves or changes |
| GarbageRows.CancellingLeavesTheUnspent | packages/game-core/src/playerLockResolution.ts:108-119 | the packets sent on are the attacks with what was spent taken off their front, under either multiplier |
| GarbageRows.TakingTakesTheFront | packages/game-core/src/garbageQueue.ts:75-112 | application takes the leading rows that are due, up to the cap, with their own holes, and leaves the rest as it was |
| Attack.SurgePacketsAddUp | packages/game-core/src/versusAttack.ts:92-101 | a surge splits into three nearly equal packets that add up to the charge |
| SpinLaws.SpinsAreWhatTheCellsSay | packages/game-core/src/spinDetection.ts:14-65 | a lock is a full spin exactly for a T that last rotated, has three corners filled, and has both facing corners filled or came in by the fifth kick of a quarter turn; it is no spin exactly without a last rotation, or when it neither has the corners nor is wedged in on all sides; any other lock is a mini spin |
| SpawnLaws.SearchStopsAtTheLowestPlace | packages/game-core/src/pieceGenerationController.ts:40-102 | the upward search stops at the lowest height that has a legal place, turned if a kick fits and plain otherwise, and finds nothing only if no height has one |
| SpawnLaws.PiecesAppearAtTheLowestPlace | packages/game-core/src/pieceGenerationController.ts:77-139 | a pending piece appears at the lowest height that has a place for the kind and turn the buffers chose, lifted only after a clear, and is reported with its cause and lift; the player tops out exactly when there is none |
| PlayerSimulations.PieceGeneration.Request | packages/game-core/src/playerPieceGeneration.ts:34-51 | a second pending generation is an error and changes nothing; the buffers are kept |
| PlayerSimulations.PieceGeneration.Consume | packages/game-core/src/playerPieceGeneration.ts:53-60 | holds and rotations are buffered exactly while a generation is pending; anything else completes it first |
| PlayerSimulations.FindPlacement | packages/game-core/src/pieceGenerationController.ts:77-102 | the upward search tries the buffered rotation, then the footprint, at each height |
| PlayerSimulations.PlayerSimulation.constructor | packages/game-core/src/playerSimulation.ts:63-74 | a new player has drawn and placed its first piece |
| PlayerSimulations.PlayerSimulation.QueueGarbage | packages/game-core/src/playerSimulation.ts:100-107 | packets join the end of the queue unless malformed or the player is out |
| PlayerSimulations.PlayerSimulation.ClearHeld | packages/game-core/src/playerSimulation.ts:109-113 | releases every held key |
| PlayerSimulations.PlayerSimulation.AcceptManipulation | packages/game-core/src/playerSimulation.ts:258-275 | accepts exactly legal candidates and spends a lock reset only when grounded |
| PlayerSimulations.PlayerSimulation.SetHorizontalInput | packages/game-core/src/playerSimulation.ts:190-211 | held-direction transitions, with the step they cause |
| PlayerSimulations.PlayerSimulation.RepeatHeldDirection | packages/game-core/src/playerSimulation.ts:213-227 | delayed auto shift and repeat |
| PlayerSimulations.PlayerSimulation.FallByGravity | packages/game-core/src/playerSimulation.ts:277-292 | gravity with its remainder and the cap of forty cells |
| PlayerSimulations.PlayerSimulation.TickLock | packages/game-core/src/playerSimulation.ts:294-307 | the object's clock step is that of `Simulation.AdvanceLock`; which pieces it locks, and when, is `SimulationClock.ClockLocksOnTime` |
| PlayerSimulations.PlayerSimulation.HoldActive | packages/game-core/src/playerSimulation.ts:309-317 | a hold swaps the active piece and places the replacement at once |
| PlayerSimulations.PlayerSimulation.LockActive | packages/game-core/src/playerSimulation.ts:319-355 | the object's lock is that of `Simulation.Lock`, which requests the next piece unless the player is out; what a lock is worth, sends, cancels and inserts is `LockLedger.LocksFollowTheLog` |
| PlayerSimulations.PlayerSimulation.FinishGeneration | packages/game-core/src/playerSimulation.ts:366-396 | completing a generation applies the buffered hold before the buffered rotation |
| PlayerSimulations.PlayerSimulation.Perform | packages/game-core/src/playerSimulation.ts:154-188 | every action moves the object to the state of its transition |
| PlayerSimulations.PlayerSimulation.AdvanceOneFrame | packages/game-core/src/playerSimulation.ts:115-152 | a whole frame leaves the object in the state of the frame transition and returns its report, or raises the same error |
| SimulationLaws.FramesAreSafe | packages/game-core/src/playerSimulation.ts:115-396 | on a well-formed state a frame is refused only for its number or for more than 64 actions, and leaves a well-formed state with nothing pending |
| SimulationLaws.LockOutcomeIsSafe | packages/game-core/src/playerLockResolution.ts:74-154 | a lock of a fitting piece never raises an error and clears at most four lines |
| SimulationLaws.FinishSettles | packages/game-core/src/playerPieceGeneration.ts:66-88 | completing a generation empties the buffers and leaves a piece that fits or a player that is out |
| SimulationLedger.RunsRaiseNoError | packages/game-core/src/playerSimulation.ts:115-396 | on every run from a board without full rows an operation is refused only when malformed in itself, and a live player has a piece that fits and empty buffers |
| SimulationLedger.PiecesAreConserved | packages/game-core/src/playerSimulation.ts:309-396 | the multiset of pieces drawn is the locked ones plus active plus hold, and the cursor is placed + 1 (+ 1 with a hold) |
| SimulationLedger.GarbageIsConserved | packages/game-core/src/playerLockResolution.ts:74-154 | every row queued is pending, cancelled or inserted, and the attack account is what the locks sent |
| SimulationHolds.AtMostOneHoldPerLock | packages/game-core/src/pieceGenerationController.ts:119-139 | between two locks at most one hold happens |
| SimulationFlow.FrameFlows | packages/game-core/src/garbageQueue.ts:44-112 | a frame leaves a suffix of the queue's due frames and reports only positive attacks |
| SimulationTraces.FrameIsTraced | packages/game-core/src/playerSimulation.ts:115-152 | a frame is a chain of locks, each at a moment its piece rests, with at most one per hard drop before the clock and at most one by the clock; its report lists exactly these, and it sends what they send, in their order |
| SimulationClock.ClockLocksOnTime | packages/game-core/src/playerSimulation.ts:294-307 | the clock reports a lock if and only if the piece, where repeat and gravity leave it, cannot move down and its lock delay is complete; otherwise the lock counter is one more if it rests and 0 if it can fall |
| SimulationClock.RestingPiecesLockOnTime | packages/game-core/src/playerSimulation.ts:294-307 | on every run a resting piece that is left alone stays where it is and is locked by exactly the frame that completes its delay |
| SimulationClock.OnlyRestingPiecesLock | packages/game-core/src/playerSimulation.ts:115-355 | on every run every lock of a frame, automatic or by hard drop, is of a piece that rests on the floor or the stack |
| SimulationClock.LocksDescribeThemselves | packages/game-core/src/playerLockResolution.ts:74-154 | a lock's report names the piece, spin, lines, flagged lines and perfect clear of the board and place it happened at, and the board after it is what is left with its garbage below |
| SimulationClock.ManipulationsRestartTheDelay | packages/game-core/src/playerSimulation.ts:229-275 | a move or turn takes the piece to its legal candidate or leaves all as it was, forgets or records the rotation, and restarts the lock delay exactly when it was taken from rest with a reset left, which it spends |
| SimulationDrift.FallsStraight | packages/game-core/src/playerSimulation.ts:238-244 | falling goes straight down by legal rows, as far as asked or until the next row is taken |
| SimulationDrift.PiecesDriftLikeClockwork | packages/game-core/src/playerSimulation.ts:213-292 | over n idle frames with room on the way, a held direction steps once when the delay completes and once per repeat period, gravity brings the piece down by the quotient of the accumulated rate by the threshold (for rates within the forty cells a frame), the remainder is carried over, and nothing locks |
| SimulationDrift.InstantRepeatReachesTheWall | packages/game-core/src/playerSimulation.ts:213-227 | with no repeat period a held direction waits for its delay and then is at the wall or the stack in every frame |
| SimulationKeys.HeldKeysSteer | packages/game-core/src/playerSimulation.ts:109-211 | on every run, while the player is in the game, the keys held down are those pressed and not let go, and the direction that repeats is that of the side key pressed last among them |
| SimulationKeys.ChangesStepOnce | packages/game-core/src/playerSimulation.ts:190-211 | a press or release that changes the direction steps once that way and starts the delay anew; one that leaves none, or leaves it as it was, moves nothing |
| LockLedger.LocksFollowTheLog | packages/game-core/src/playerLockResolution.ts:74-154 | on every run each lock obeys a law over the locks before it and the rows queued by then: combo and chain, worth, cancellation, packets sent, garbage inserted with its holes, and perfect clears by the cells that are left |
| LockLedger.ClearsSendTheirWorth | packages/game-core/src/versusAttack.ts:57-241 | on every run what a clear sends and cancels is together its rounded scaled base, 5 more for an all clear, 1 more for a four-line or spin clear through garbage, and the chain's charge exactly when an easy clear breaks a chain of 5 or more; an attack row cancels two rows exactly with fewer than 14 pieces placed and more pending than ever sent, and something is sent only when nothing is left pending |
| LockLedger.WorthIsFromTheLog | packages/game-core/src/versusAttack.ts:57-224 | packets, charge and the next chain are read off the log: the chain is the number of difficult clears since the last easy one, plain locks skipped |
| LockLedger.CountersFollowTheLog | packages/game-core/src/playerLockResolution.ts:74-154 | on every run chain, combo, rounding rolls used and pending rows are those of the lock log |
| LockLedger.CellsAreConserved | packages/game-core/src/playerSimulation.ts:319-355 | on every run the board holds its first cells, four for each lock, ten fewer for each line and nine more for each inserted row, and fewer only after garbage has pushed cells over the top, which ends the game; the flagged rows are the inserted ones not yet cleared |
| InputQueueLaws.EachInputIsDrainedOnce | apps/server/src/matches/matchInputQueue.ts:102-190 | the inputs drained for a player within an epoch are sequences 0, 1, 2, … of the accepted ones, each once; the rest of the current epoch is still scheduled |
| InputQueueLaws.NoInputOutlivesItsEpoch | apps/server/src/matches/matchInputQueue.ts:178-190 | after a reset nothing of an older epoch is ever drained |
| InputQueueLaws.RetransmissionChangesNothing | apps/server/src/matches/matchInputQueue.ts:102-148 | anything but the next sequence of the current epoch leaves the queue as it is; which of those are taken is `InputAcceptance.InputsAreTakenExactlyInOrder` |
| InputQueueLaws.RetransmissionsAreAnsweredTruthfully | apps/server/src/matches/matchInputQueue.ts:214-226 | a retransmission is told where its input is scheduled or was applied, or that it is late, the latter exactly when its answer is no longer among those kept |
| InputAcceptance.InputsAreTakenExactlyInOrder | apps/server/src/matches/matchInputQueue.ts:102-148 | an envelope changes the queue if and only if its player is known, it is well formed, its epoch is current, its sequence is next, and its client frame is at most the lag behind and the lead ahead; it is then scheduled for now plus the delay, behind the others of that frame, and nothing else changes |
| InputAcceptance.RefusalsNameTheFirstObjection | apps/server/src/matches/matchInputQueue.ts:102-148 | the answer to any envelope is the first thing wrong with it, the kept answer for an old sequence, or its schedule |
| InputAcceptance.CountersAreCounts | apps/server/src/matches/matchInputQueue.ts:145-190 | on every run a player's epoch is the number of its resets and its next sequence the number of its inputs taken in that epoch |
| InputAcceptance.TakenInputsAreHandedOutInTime | apps/server/src/matches/matchInputQueue.ts:150-190 | on every run an input taken is handed out by the first drain at or after its frame, unless its player is reset before |
| InputAcceptance.FramesAreHandedOutInOrder | apps/server/src/matches/matchInputQueue.ts:150-176 | the inputs of a frame are handed out by player order and sequence, all of them and nothing else |
| InputAcceptance.AnswersAreKeptNewestFirst | apps/server/src/matches/matchInputQueue.ts:214-226 | an answer is remembered as the newest, replaces an older one to the same sequence, and the oldest ones go when the bound is reached |
| InputAcceptance.EchoesGetTheSameAnswer | apps/server/src/matches/matchInputQueue.ts:115-117 | an input sent again right after it was taken changes nothing and gets the very same answer, however late |
| MatchInputQueues.MatchInputQueue.Enqueue | apps/server/src/matches/matchInputQueue.ts:102-148 | the object's state and answer are those of `InputQueues.Enqueued`; which envelopes that takes and how it answers the others is `InputAcceptance.InputsAreTakenExactlyInOrder` and `InputAcceptance.RefusalsNameTheFirstObjection` |
| MatchInputQueues.MatchInputQueue.Drain | apps/server/src/matches/matchInputQueue.ts:150-176 | state and handed-out inputs are those of the drain function |
| MatchInputQueues.MatchInputQueue.ResetPlayer | apps/server/src/matches/matchInputQueue.ts:178-190 | a reset starts the player's next epoch and forgets its schedule and history |
| MatchCoordination.NetPacketLists | apps/server/src/matches/matchCoordinatorHelpers.ts:47-61 | the netting loop computes the netting function |
| MatchCoordination.NettingIsFair | apps/server/src/matches/matchCoordinatorHelpers.ts:47-61 | netting removes equal amounts from both sides, leaves one side empty and sends nothing empty |
| MatchCoordinators.MatchCoordinator.EnqueueInput | apps/server/src/matches/matchCoordinator.ts:151-171 | a submission goes to the queue stamped with the current frame, finished match or not, and its disposition is the answer; nothing else changes |
| MatchCoordinators.MatchCoordinator.ClearHeldInput | apps/server/src/matches/matchCoordinator.ts:173-179 | releases one player's keys and changes nothing else |
| MatchCoordinators.MatchCoordinator.ResetInput | apps/server/src/matches/matchCoordinator.ts:181-189 | releases one player's keys, starts that player's next input epoch and returns it |
| MatchCoordinators.MatchCoordinator.AdvanceOneFrame | apps/server/src/matches/matchCoordinator.ts:191-234 | the object's frame is that of `MatchCoordination.AdvanceOneFrame`: drain, both players, netting, queueing, end or snapshot, or an error exactly when the step raises one; who wins is `MatchEndings.MatchesEndFairly` |
| MatchCoordinators.MatchCoordinator.QueueAll | apps/server/src/matches/matchCoordinator.ts:259-287 | each packet is queued at the opponent and announced as the next event |
| MatchCoordinators.MatchCoordinator.ForceFinish | apps/server/src/matches/matchCoordinator.ts:236-245 | a forced end happens once and names the other player the winner |
| MatchEvents.RunsRetainLatest | apps/server/src/matches/matchCoordinator.ts:259-287 | on every run the retained events are the latest 2048, numbered without a gap up to the last |
| MatchEndings.MatchesEndFairly | apps/server/src/matches/matchCoordinator.ts:217-227 | on every match an end by topout has a winner whose own simulation is not topped out and a loser whose simulation is; it is simultaneous, without winner, exactly when both are out; an unfinished match has nobody out; an end carries the frame and the hashes of the two states it ended in |
| MatchEndings.ForcedEndsNameTheOther | apps/server/src/matches/matchCoordinator.ts:236-251 | on every match an end by forfeit or disconnection was asked for in that very way, of a player of the match that is not the winner |
| MatchEndings.SnapshotsKeepTheRate | apps/server/src/matches/matchCoordinator.ts:228-233 | on every match the frame is the number of advances, and after n frames without an end the state sequence is n times the snapshot rate divided by the tick rate, rounded down |
| MatchPlayers.NettingSpendsTheFront | apps/server/src/matches/matchCoordinatorHelpers.ts:47-61 | each side keeps of its packets what is left when the other side's total is taken off their front |
| MatchPlayers.PlayersRunTheirSimulations | apps/server/src/matches/matchCoordinator.ts:191-287 | on every match each player's state is that of a single player's run of its own inputs frame by frame, its resets, and the packets the other side has left after netting, due after the travel time |
| MatchReplayReconstructor.MatchReplayRecorder.RecordAppliedFrame | apps/server/src/matches/matchReplayRecorder.ts:133-161 | a drained frame is logged grouped by player, idle frames are dropped, and frames that go back are refused |
| MatchReplayReconstructor.MatchReplayRecorder.RecordControlFrame | apps/server/src/matches/matchReplayRecorder.ts:163-185 | controls are logged at the frame they follow |
| MatchReplayReconstructor.MatchReplayRecorder.GroupInputs | apps/server/src/matches/matchReplayRecorder.ts:218-253 | inputs are grouped by player in participant order, with the counts that tell them apart |
| MatchReplayReconstructor.MatchReplayRecorder.Finalize | apps/server/src/matches/matchReplayRecorder.ts:187-216 | the log closes at an end frame that is not behind it |
| MatchReplayReconstructor.AdvanceMatchTo | apps/server/src/matches/matchReplayReconstructor.ts:162-175 | advances frame by frame to the target or reports why not |
| MatchReplayReconstructor.ApplyReplayFrame | apps/server/src/matches/matchReplayReconstructor.ts:109-160 | re-feeds one logged frame through the same queue |
| MatchReplayReconstructor.ReconstructMatchReplay | apps/server/src/matches/matchReplayReconstructor.ts:33-107 | the loops over a mutable coordinator compute the reconstruction function |
| ReplayFidelity.ReplaysReproduceTheMatch | apps/server/src/matches/matchReplayReconstructor.ts:33-208 | for every run of any two players the recorder accepts each frame; the ended run's log reconstructs if and only if no step raised an error, and then to the same players, events, counters, frame, winner, reason and hashes |
| MatchReplayLaws.ReconstructionsEndAsRecorded | apps/server/src/matches/matchReplayReconstructor.ts:85-107 | whatever the log, a reconstruction that succeeds has ended in just the recorded way |
| MatchLedger.MatchesReplayUnlessCrowded | apps/server/src/matches/matchCoordinator.ts:191-234 | with the concrete simulation, a finished match reconstructs if and only if no frame was handed more than 64 actions of one player |
| CrowdedMatches.CrowdedMatchesDoNotReplay | apps/server/src/matches/matchCoordinator.ts:151-234 | in any match five full envelopes of one player before the first frame make that frame raise, end the match, and leave a log that does not reconstruct |
| MatchLedger.GarbageLedger | apps/server/src/matches/matchCoordinator.ts:205-216 | at every point of an unfinished match, garbage queued to a player is pending, cancelled or inserted, queues are sorted by due frame, and netting has taken equal amounts from both |
| MatchLedger.ReadyRowsAreInserted | packages/game-core/src/garbageQueue.ts:75-112 | in an unfinished match a lock that clears nothing inserts exactly min(cap, ready rows) |
| StateDelta.WriteRowsByLoop | packages/protocol/src/matchStateDelta.ts:86-128 | the row loop over copied arrays writes exactly the changed rows, or fails at the first bad index |
| StateDelta.PatchesRoundTrip | packages/protocol/src/matchStateDelta.ts:18-145 | whenever patches exist, applying them to the earlier state gives the later one if and only if no board changed height |
| StateDelta.GrownBoardsAreCarriedOver | packages/protocol/src/matchStateDelta.ts:18-145 | a player whose board grew by an empty row gives no patch, and the old state is carried over |
| MatchDelta.HasContiguousEvents | apps/web/src/game/duel/matchDeltaReducer.ts:20-34 | the counting loop accepts exactly events numbered without a gap from the client's last one to the delta's |
| MatchDelta.MatchDeltaReceiver.TakeSnapshot | apps/web/src/game/duel/MatchDeltaReceiver.ts:36-48 | takes a full state of the current match unless it is stale |
| MatchDelta.MatchDeltaReceiver.TakeDelta | apps/web/src/game/duel/MatchDeltaReceiver.ts:50-73 | takes a delta that fits, ignores a stale one, and asks for one resync otherwise |
| MatchDelta.MatchDeliveryBaselines.Get | apps/server/src/matches/matchDeliveryBaselines.ts:16-30 | returns the baseline of this very connection; one of another generation is dropped, all others stay |
| MatchDelta.MatchDeliveryBaselines.Accept | apps/server/src/matches/matchDeliveryBaselines.ts:32-47 | replaces one viewer's baseline and no other |
| MatchDelta.MatchDeliveryBaselines.Reject | apps/server/src/matches/matchDeliveryBaselines.ts:49-54 | forgets one viewer's baseline and no other |
| DeltaSoundness.EventsAfterAreTheMissing | apps/server/src/matches/matchDeltaProjection.ts:44-61 | the server hands over a viewer's missing events if and only if it still retains them all |
| DeltaSoundness.AcceptedIsTheProjection | apps/web/src/game/duel/matchDeltaReducer.ts:36-70 | a message the client takes, however late, leaves it with the full state the server projected for it |
| DeltaSoundness.DeltasAreSound | apps/server/src/matches/matchDeltaProjection.ts:67-122 | under any loss, duplication and reordering the client only ever holds states the server projected, and an accepted delta carries exactly the events it had missed |
| DeltaSoundness.SynchronisedClientsStayInSync | apps/web/src/game/duel/MatchDeltaReceiver.ts:36-73 | a client that holds the server's baseline takes the next update, in either form, without a resync |
| DeltaSoundness.ResyncsAreAnswered | apps/web/src/game/duel/MatchDeltaReceiver.ts:36-48 | after any run under loss, duplication and reordering, a full state sent to a client that waits for one leaves it with exactly the server's state and no request open, even if nothing has changed since |
| DeltaSoundness.StatesNeverGoBack | apps/web/src/game/duel/MatchDeltaReceiver.ts:36-73 | between any two moments of a run within one match the client's state sequence does not decrease, whatever is lost, repeated or reordered |
| DeltaEconomy.PatchesNameExactlyTheChanges | packages/protocol/src/matchStateDelta.ts:18-61 | a player without any change gives no patch, and a patch names exactly the rows and fields that differ, with their new values |
| DeltaEconomy.DeltasAreSentExactlyWhenSmaller | apps/server/src/matches/matchDeltaProjection.ts:67-122 | a delta is sent if and only if the baseline can be patched and it is strictly smaller than the full state, so an update is never larger than the full state |
| DeltaEconomy.UpdatesKeepSecrets | apps/server/src/matches/matchDeltaProjection.ts:28-61 | no update, in either form, tells a viewer a garbage hole queued to somebody else or another player's private state |
| DeltaEconomy.UpdatesCarryThePresentHashes | apps/server/src/matches/matchProjection.ts:75-113 | every update, in either form, carries the public hash of the present state and the viewer's own |
| DeltaEconomy.ResyncsAreAskedOnce | apps/web/src/game/duel/MatchDeltaReceiver.ts:50-73 | a client asks for a full state exactly at the first delta it cannot use, naming what it holds, and not again until it has taken one |
| DeltaEconomy.RepeatsChangeNothing | apps/web/src/game/duel/MatchDeltaReceiver.ts:36-73 | a message that comes again right after itself changes nothing, is not reported and asks for nothing |
| RoomCommitOutboxes.RoomCommitOutbox.Offer | apps/server/src/rooms/roomCommitOutbox.ts:113-130 | an offer is admitted, recognised as a duplicate, refused as a conflict or refused for capacity |
| RoomCommitOutboxes.RoomCommitOutbox.OfferDurably | apps/server/src/rooms/roomCommitOutbox.ts:132-150 | a durable offer waits in line when the outbox is full |
| RoomCommitOutboxes.RoomCommitOutbox.AdmitWaiters | apps/server/src/rooms/roomCommitOutbox.ts:186-205 | waiters are admitted in order while there is room |
| RoomCommitOutboxes.RoomCommitOutbox.PumpLane | apps/server/src/rooms/roomCommitOutbox.ts:244-303 | a lane runs up to its next handler call or to its end |
| RoomCommitOutboxes.RoomCommitOutbox.HandlerFailed | apps/server/src/rooms/roomCommitOutbox.ts:305-334 | a failure retries later, gives the effect up at the attempt limit, or loses its wake-up |
| RoomCommitOutboxes.RoomCommitOutbox.CompleteHead | apps/server/src/rooms/roomCommitOutbox.ts:360-375 | a completed commit leaves its lane, is remembered within the bound, and admits waiters |
| CommitOutboxLaws.EffectsAreDeliveredInOrder | apps/server/src/rooms/roomCommitOutbox.ts:132-374 | over every interleaving a room's settled effects are its admitted commits effect by effect, none skipped or repeated; with unlimited attempts all handled successfully |
| CommitOutboxLaws.LanesNeverSleep | apps/server/src/rooms/roomCommitOutbox.ts:132-374 | queues keep their bounds, waiters exist only when full, and every lane has work and is running, timed or queued to start, except exactly while it is dormant |
| CommitOutboxLaws.LanesSleepExactlyWhileDormant | apps/server/src/rooms/roomCommitOutbox.ts:207-358 | on every run a lane is asleep exactly from a failed call whose retry neither the clock nor a scheduler took until the room's next commit is admitted or the outbox closes |
| CommitOutboxLaws.SchedulableRetriesAreNeverLost | apps/server/src/rooms/roomCommitOutbox.ts:305-358 | where the clock is valid and a scheduler works at every failure of a room, its lane is always running, timed or queued to start |
| CommitOutboxLaws.LostRetrySleeps | apps/server/src/rooms/roomCommitOutbox.ts:305-358 | a concrete run loses its retry and sleeps, and the room's next commit wakes it |
| CommitOutboxLaws.ReofferedCommitsSettleAgainExactlyWhenForgotten | apps/server/src/rooms/roomCommitOutbox.ts:207-218 | offered again to an idle room, a commit settles once more if and only if its key is neither pending nor retained |
| CommitOutboxLaws.ForgottenCommitsSettleTwice | apps/server/src/rooms/roomCommitOutbox.ts:207-375 | for any limits, a run that delivers one commit more than the outbox retains and then the first again settles that one twice |
| CommitAttempts.EffectsAreTriedExactlyAsOftenAsAllowed | apps/server/src/rooms/roomCommitOutbox.ts:244-334 | on every run an effect settles as handled exactly when its call succeeds, as given up exactly when its failures reach the attempt limit, and otherwise stays the current one |
| CommitAttempts.OffersAreAnsweredByWhatIsHeld | apps/server/src/rooms/roomCommitOutbox.ts:113-184 | an offer, plain or durable, is a conflict, known, admitted, waiting or refused exactly by what the outbox holds of its key, effects and capacity |
| RoomRuntimes.RoomRuntime.Enqueue | apps/server/src/rooms/roomRuntime.ts:130-152 | a dispatch is queued behind the others, or refused when disposed or at capacity |
| RoomRuntimes.RoomRuntime.AfterDispatch | apps/server/src/rooms/roomRuntime.ts:154-167 | the actor's reply is published if it committed, and otherwise finishes the dispatch |
| RoomRuntimes.CommitsArePublishedOneByOne | apps/server/src/rooms/roomRuntime.ts:130-195 | on every run commits are numbered without a gap, at most one is unpublished, the accepted ones are all before it, and dispatches stay within capacity |
| RuntimeOrder.CommandsRunInOrder | apps/server/src/rooms/roomRuntime.ts:130-195 | on every run the state is the fold of the actor over the commands answered, these are the first of the commands taken, the rest are the one in progress and the queue in order, and the commits are theirs |
| RoomDelivery.EffectsFollowTheCommits | apps/server/src/rooms/roomRuntime.ts:130-195 | with every room driven by its own runtime, opened and closed at any time: a room's commits are numbered without a gap, all but the one being published have reached the outbox in order, and their effects are settled in (presence sequence, effect index) order, each once and none skipped, whatever is refused, retried or closed |
| RoomActors.RoomActorIsOk | apps/server/src/roomActor.ts:245-255 | every commit of the room reducer takes the next presence sequence and nothing else moves it |
| RoomActors.RoomEffectsAreDelivered | apps/server/src/roomActor.ts:245-255 | room reducer, the runtimes of all rooms and the outbox together: under any commands, openings, closings, refusals, failures and timers every room's commits carry consecutive presence sequences, reach the outbox in order and have their effects settled in that order, each once |
| FixedSteps.TargetReachesAtTheDeadline | apps/server/src/matches/fixedStepLoop.ts:205-227 | the floor-based target reaches frame k exactly from the ceiling-based deadline on |
| FixedSteps.WakesLandOnTheDeadline | apps/server/src/matches/fixedStepLoop.ts:214-235 | a scheduled wake lands on the deadline or less than a millisecond after it |
| FixedSteps.FramesAreConsecutiveAndNeverEarly | apps/server/src/matches/fixedStepLoop.ts:137-242 | on every run the completed frames are 1, 2, 3, …, none before its deadline, and a wake-up that will take effect is on its way exactly while the loop runs |
| FixedSteps.WakesTakeEffectOnce | apps/server/src/matches/fixedStepLoop.ts:171-260 | on every run the wake-ups that take effect have strictly rising generations, so none does twice, and from then on one of that generation or an older one changes only its own record |
| FixedSteps.DeadlinesMoveByThePauses | apps/server/src/matches/fixedStepLoop.ts:122-163 | on every run a frame's deadline is the start plus the time all pauses have taken, those called from inside a step included, plus its share of the clock |
| FixedSteps.PausesOweNothing | apps/server/src/matches/fixedStepLoop.ts:137-163 | after a resume the target is that of the pause and every deadline moves by the paused time |
| FixedStepPace.WakesCatchUp | apps/server/src/matches/fixedStepLoop.ts:171-242 | a wake that is n frames behind completes the lesser of n and the catch-up limit and schedules the next wake, at once if it is still behind and at the next deadline otherwise; the overload flag goes up when more frames are behind than the limit and down when none is |
| FixedStepPace.RetriesKeepTheFrame | apps/server/src/matches/fixedStepLoop.ts:171-203 | a step that asks for a retry is not completed, ends the batch and is due again at once |
| FixedStepPace.FailuresStopTheLoop | apps/server/src/matches/fixedStepLoop.ts:171-260 | a step that fails for good, or a wake that no scheduler takes, stops the loop after the frames completed so far |
| FixedStepLoops.FixedStepLoop.Pump | apps/server/src/matches/fixedStepLoop.ts:171-203 | a fired wake does what the step function says, through the catch-up loop and the next schedule |
| FixedStepLoops.FixedStepLoop.CatchUp | apps/server/src/matches/fixedStepLoop.ts:171-203 | the catch-up loop runs the batch, with whatever controls the steps call |
| FixedStepLoops.FixedStepLoop.ResumeLoop | apps/server/src/matches/fixedStepLoop.ts:150-163 | resuming shifts the epoch by the pause and schedules the next wake |
| RateLimiter.RequestsStayWithinTheRate | apps/server/src/gateway/rateLimiter.ts:131-239 | for any limits, in any window of a monotone clock a connection is allowed at most capacity plus refill, and once more the capacity for each time its state was removed or evicted before it could have refilled |
| RateLimiter.WaitingAsToldSuffices | apps/server/src/gateway/rateLimiter.ts:131-187 | for any limits, after a refusal the request is allowed if and only if at least the answered time has passed, while the state is retained |
| RateLimiter.PlainBoundHoldsExactlyWhenEvictionIsFair | apps/server/src/gateway/rateLimiter.ts:131-239 | without removals, capacity plus refill bounds every run if and only if the idle time lets a bucket refill |
| RateLimiter.RemovalBreaksTheRate | apps/server/src/gateway/rateLimiter.ts:189-191 | for any limits a burst, a removal and the same burst at one instant exceed capacity plus refill |
| RateLimiter.CleanupIsNeutral | apps/server/src/gateway/rateLimiter.ts:193-205 | evicting an idle connection gives it nothing |
| RateAnswers.SweepsComeInTime | apps/server/src/gateway/rateLimiter.ts:131-205 | on every run exactly every so many requests as configured drop all idle connections, and no other request drops a connection unless it needs the place |
| RateAnswers.RemainingIsWhatIsLeft | apps/server/src/gateway/rateLimiter.ts:131-187 | an allowed request is told the whole tokens left, a refused one has none; a request is refused for capacity exactly when its connection is new and the table is full after the sweep |
| ConnectionRateLimiters.ConnectionRateLimiter.ConsumeOne | apps/server/src/gateway/rateLimiter.ts:131-187 | answer and buckets are those of the consume function |
| ConnectionRateLimiters.ConnectionRateLimiter.Cleanup | apps/server/src/gateway/rateLimiter.ts:193-205 | the sweep drops exactly the idle connections and counts them |
| HandlingLaws.TimeSplitting | apps/web/src/input/handlingEngine.ts:149-177 | below 512 emissions, advancing in two steps reaches the same engine and, once coalesced cells are expanded, the same actions, whatever the settings |
| HandlingLaws.CoalescingLosesNothing | apps/web/src/input/handlingEngine.ts:338-352 | expanding the coalesced output gives every cell and action in order, and every piece has 1 to 40 cells |
| HandlingLaws.PollingBeforeKeysIsInvisible | apps/web/src/input/handlingEngine.ts:100-147 | an extra advance before a key event changes neither the state nor the actions |
| HandlingLaws.HeldKeysDecide | apps/web/src/input/handlingEngine.ts:100-147 | after every sequence of calls held counts are exact, the recorded presses are exactly the direction bindings of the pressed keys, a direction is active exactly while there is one, and the soft drop timer runs exactly while a timed soft drop is held |
| HandlingOrder.NewestKeyDecides | apps/web/src/input/handlingEngine.ts:100-147 | after every sequence of calls the recorded presses are those of the keys that are down, in the order they went down, and the active direction is that of the newest key bound to one, both told from the calls alone |
| HandlingKeys.KeysCommandTheirBindings | apps/web/src/input/handlingEngine.ts:100-240 | after every sequence of calls a fresh press of a key commands exactly the actions bound to it that no other pressed key holds, in order, except a hard drop within the safe lock of the last automatic spawn; a repeated press commands nothing |
| HandlingKeys.OtherCallsCommandNothing | apps/web/src/input/handlingEngine.ts:125-192 | releases and advances command nothing, and a spawn only drops the new piece at once if a sonic soft drop is held |
| HandlingKeys.TurnsStepAtOnce | apps/web/src/input/handlingEngine.ts:251-278 | a change of direction steps at once; it starts the charge anew, or keeps it where cancellation is off, and a charged shift without repeat period goes on to the wall; no direction forgets the charge |
| HandlingKeys.DirectionKeysTurn | apps/web/src/input/handlingEngine.ts:100-123 | after every sequence of calls a direction key turns the engine, with one step, exactly when the active direction changes |
| HandlingTiming.TimersAreIndependentClocks | apps/web/src/input/handlingEngine.ts:280-336 | the merged loop emits each timer exactly as often as its own start and period say, in the active direction |
| HandlingTiming.BacklogRemainsExactlyAfterAMeeting | apps/web/src/input/handlingEngine.ts:149-177 | an advance emits at most 513 actions, and leaves something due exactly when after 511 emissions both timers fire at one instant and one of them fires again in time |
| HandlingTiming.HeldKeysCanOvershoot | apps/web/src/input/handlingEngine.ts:149-177 | two keys pressed and held for a second under settings of the configuration leave events due in the past |
| HandlingTiming.AutoShiftDiesExactlyWhenStarved | apps/web/src/input/handlingEngine.ts:360-370 | advancing forgets a held direction exactly when 512 cells are due before an uncharged shift to the wall |
| HandlingTiming.HeldKeysCanStarve | apps/web/src/input/handlingEngine.ts:360-370 | two keys pressed and held for 300 milliseconds under settings of the configuration leave a held direction with no shift scheduled or charged |
| HandlingTiming.SpawnsDependOnPollingExactlyWhenAShiftIsDue | apps/web/src/input/handlingEngine.ts:179-192 | polling before a spawn notice is harmless exactly, with a cut delay, when no shift is due, and without one, when no shift is due or a repeating shift falls on that instant and does not trade places with a cell |
| HandlingTiming.HeldKeysMakePollingMatter | apps/web/src/input/handlingEngine.ts:179-192 | whatever the cut delay, a direction key pressed and held past the shortest delay makes a spawn notice differ with polling |
| HandlingEngines.HandlingEngine.AdvanceForward | apps/web/src/input/handlingEngine.ts:149-177 | the emission loop reaches the specified engine and returns the specified actions coalesced |
| HandlingEngines.HandlingEngine.KeyGoesDown | apps/web/src/input/handlingEngine.ts:100-123 | a key press reaches the specified engine and output, or throws for a time that goes back |
| HandlingEngines.HandlingEngine.KeyGoesUp | apps/web/src/input/handlingEngine.ts:125-147 | a release restores the newest direction still held |
| HandlingEngines.HandlingEngine.RemoveDirectionPress | apps/web/src/input/handlingEngine.ts:206-214 | removes the newest matching press and no other |
| HandlingEngines.HandlingEngine.NotifyPieceSpawned | apps/web/src/input/handlingEngine.ts:179-192 | cuts the shift, advances, sets the safe lock and restarts a held soft drop |
| HandlingEngines.HandlingEngine.BlurAt | apps/web/src/input/handlingEngine.ts:194-204 | forgets every key and timer without firing any |
| SevenBag.GenerateBagInPlace | packages/game-core/src/sevenBag.ts:79-92 | the in-place shuffle over an array computes the bag function |
| SevenBag.BagsHoldEveryKindOnce | packages/game-core/src/sevenBag.ts:79-92 | a bag is a permutation of the seven kinds |
| SevenBag.EveryBagComesFromExactlyOneDraw | packages/game-core/src/sevenBag.ts:79-92 | every order of the kinds is produced by exactly one choice of the drawn numbers |
| SevenBag.EnsureSharedByLoop | packages/game-core/src/sevenBag.ts:103-130 | the extension loop appends bags until there are enough pieces, or refuses the length |
| SevenBag.WindowsAreSlices | packages/game-core/src/sevenBag.ts:132-155 | a window is the slice of the seed's own sequence whatever was generated before, refused only for its bounds |
| SevenBag.AlignedBlocksAreBags | packages/game-core/src/sevenBag.ts:103-155 | every aligned block of seven holds every kind once |
| SevenBag.NoKindIsMissingForLong | packages/game-core/src/sevenBag.ts:103-155 | any thirteen consecutive pieces hold all seven kinds |
| PieceSequences.DealsAreFair | apps/server/src/matchPieceSequence.ts:190-223 | under any interleaving of peeks and draws a player has drawn a prefix of the seed's sequence and is shown the slice at its own cursor; refusals are exactly the stated ones |
| PieceSequences.RevealsRestoreTheSeed | apps/server/src/matchPieceSequence.ts:72-88 | the little-endian bytes of a seed give it back |
| PieceSequences.CommitmentsBind | apps/server/src/matchPieceSequence.ts:90-104 | with accepted identifiers, equal hashed bytes mean the same match, ruleset and seed |
| MatchPieceSequences.MatchPieceSequence.PeekPieces | apps/server/src/matchPieceSequence.ts:190-194 | a peek returns the window, may extend the bag, and moves no cursor |
| MatchPieceSequences.MatchPieceSequence.DrawPieces | apps/server/src/matchPieceSequence.ts:196-203 | a draw returns the window and moves only that player's cursor |
| Prediction.MoveVerticalByLoop | apps/web/src/game/duel/networkPlayerState.ts:70-82 | the falling loop moves down while the placement is legal |
| Prediction.StepToWallByLoop | apps/web/src/game/duel/networkPlayerState.ts:179-188 | the stepping loop moves until the wall or the stack refuses |
| Prediction.FindSpawnByLoop | packages/game-core/src/pieceSpawn.ts:26-47 | the upward search returns the lowest legal spawn |
| Prediction.PredictByLoop | apps/web/src/game/duel/networkPlayerState.ts:208-267 | the loop over a batch computes the prediction and the expected spawns |
| PredictionLaws.FortyRowsReachTheFloor | apps/web/src/game/duel/networkPlayerState.ts:111-126 | forty steps down always reach the floor |
| PredictionLaws.SpawnsAlike | packages/game-core/src/pieceGenerationController.ts:77-102 | spawning and then rotating equals placing with the buffered rotation when no rotation rescues a blocked footprint |
| PredictionLaws.RescuesAreMispredicted | packages/game-core/src/pieceGenerationController.ts:40-75 | the two sides place a piece with a buffered rotation alike exactly when no rotation rescues a blocked footprint, or the client lifts the spawn and its first fitting kick takes it back down to the place of the rescue; without a lift never after a rescue |
| PredictionLaws.FreeFootprintsAreForeseen | packages/game-core/src/pieceSpawn.ts:26-47 | a free spawn footprint satisfies the condition |
| PredictionLaws.HoldsSpawnAlikeExactlyWhenForeseen | apps/web/src/game/duel/networkPlayerState.ts:128-152 | a hold places its piece alike on both sides exactly when its footprint is free, or the server may not lift it or finds no lifted spawn |
| PredictionLaws.MovesAlikeExactlyWhenForeseen | apps/web/src/game/duel/networkPlayerState.ts:189-197 | held movement is predicted right exactly when the server's key state allows it |
| PredictionLaws.PlainBatchesAreForeseen | apps/web/src/game/duel/networkPlayerState.ts:208-267 | batches without hold, held movement or a rotation right after a hard drop satisfy every run-dependent condition |
| PredictionLaws.PredictionRefinesAuthority | apps/web/src/game/duel/networkPlayerState.ts:70-267 | for batches with or without holds, under conditions read off the server's run, prediction and action phase end with the same board, piece, hold, combo, cursor, preview, count and top-out, and neither raises an error |
| PredictionLaws.PredictionIsRightThroughoutExactlyWhenForeseen | apps/web/src/game/duel/networkPlayerState.ts:208-267 | these conditions are exact: a batch meets them if and only if client and server agree each time both have settled, from its first action to its end |
| PredictionLaws.RotationsAfterAHoldExactlyWhenTheLastDecides | apps/web/src/game/duel/networkPlayerState.ts:208-267 | any number of rotations after a hold is predicted right exactly when all but the last leave the held piece as it was, or the last turns both pieces to one place, or kicks one to where the other stays |
| PredictionLaws.OneRotationAfterAHoldIsForeseen | apps/web/src/game/duel/networkPlayerState.ts:208-267 | which is so for at most one rotation |
| PredictionLaws.RotationsAfterAHoldAreMispredicted | apps/web/src/game/duel/networkPlayerState.ts:225-260 | a concrete batch with a hold for which the two sides differ |
| PredictionFailures.RescuesAreLost | packages/game-core/src/pieceGenerationController.ts:40-75 | a new match and a batch in which the server kicks the next piece out of a blocked spawn and the client tops out |
| PredictionFailures.RepeatedPressesAreMispredicted | apps/web/src/game/duel/networkPlayerState.ts:189-197 | a new match in which a key event for a direction already down makes the client step once more than the server |
| PredictionFailures.LiftedHoldsAreLost | apps/web/src/game/duel/networkPlayerState.ts:128-152 | a new match and a batch in which the server lifts the piece a hold brings in after a clear and the client tops out |
| PredictionFailures.TurnsAfterAHoldAreLost | apps/web/src/game/duel/networkPlayerState.ts:225-260 | a new match in which the server makes both turns after a hold and the client ends elsewhere |

## Left out

- Simulation faults in mid-frame: after an error raised inside a frame the object's partial state is not specified; the registry ends such a match.
- PieceGeneration: the source's generation object and its controller are two classes; they are one class here with the same fields.
- Base attack numbers of combos, piece bags by seed: tables and generators are parameters or copied constants, not properties.
- SrsPlus.MirroredBoardsTurnAlike: quarter turns only; the tests of half turns try the right before the left and are not mirrored.
- Double rounding and `Math.log` in the attack formula and in millisecond timers: exact reals and an abstract non-negative function.
- PredictionLaws.PredictionRefinesAuthority: for the end of a batch alone the condition is sufficient, because after a difference the two sides may meet again by coincidence; for the whole way it is exact, `PredictionLaws.PredictionIsRightThroughoutExactlyWhenForeseen`. Back-to-back, pending garbage and attack are not predicted by the client and not compared.
- HandlingLaws.TimeSplitting: stated below the emission limit; beyond it the backlog is skipped and the two runs really differ.
- HandlingTiming.SpawnsDependOnPollingExactlyWhenAShiftIsDue: stated within the emission limit, beyond which an advance skips its backlog.
- CommitOutboxLaws.EffectsAreDeliveredInOrder: asks that a room's commits arrive in increasing order, because duplicates are recognised only within the retained completions; `RoomDelivery.EffectsFollowTheCommits` discharges it for every room.
- PieceSequences.CommitmentsBind: identifiers are their UTF-8 bytes; a reveal whose identifiers contain a zero byte is not covered, the constructor refuses them.
- Regular expressions and schema validation of ids, names and messages: abstract predicates or not modelled.
- Safe-integer limits of counters: room commands assume headroom below 2^53, everything else counts without bound.
- Replay files: the log is a list of entries; reading, parsing, writing, renaming and hashing of files are not modelled.
- MatchCoordinator: `close`, the start message and reporting to listeners are not modelled, nor controls between a match's end and its retirement.
- MatchCoordinators.MatchCoordinator.EnqueueInput: the acknowledgement and the state hash around the disposition are not modelled, nor that their view raises once the shared sequence has finished.
- MatchCoordinators.MatchCoordinator.ClearHeldInput: the control frame it reports to the recorder is modelled in `ReplayFidelity`, not by the class; a player id that is no participant is not a value here.
- MatchCoordinators.MatchCoordinator.ResetInput: the same, and the constant next sequence 0 of the answer.
- RoomCommitOutbox: a scheduler is assumed to call back at most once per retry, at once or at any later time; the delay of a retry is not computed.
- RoomRuntime: reconciliation of room timers and the immediate drain on disposal are not modelled; the delay of a retry is not computed.
- RoomActor: the per-session idempotency cache and the check of the current principal are not modelled.
- Microtask order: a queued start of a lane may happen at any later step, which covers every order.
- FixedStepLoop: schedulers are assumed to fire a callback at most once; any time, order or absence is covered.
- HandlingEngine: normalisation of the player configuration and the rejection of invalid start times.
- SevenBag: the validation of seeds, the xoshiro mixing and the termination of rejection sampling; the generator is a bounded deterministic function.
- Gateway, HTTP, sessions, registries, React components, canvas rendering, configuration storage and the DG-LAB device: input, output and user interface.

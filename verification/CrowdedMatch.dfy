/** A match whose log does not reconstruct: five full envelopes of one player reach the same frame. */
module CrowdedMatches {
  import opened Wrappers
  import opened Boards
  import opened Simulation
  import opened InputQueues
  import opened MatchCoordination
  import opened MatchReplay
  import opened SimulationLedger
  import opened MatchLedger

  function Keys(n: nat): (actions: seq<Action>)
    ensures |actions| == n
  {
    seq(n, _ => Action.ClearHeld)
  }

  /** The first player's envelope with a sequence number, as full as an envelope may be. */
  function Full(id: PlayerId, sequence: nat): Envelope<Action> { Envelope(id, 0, sequence, 0, Keys(16)) }

  function FullInput(id: PlayerId, sequence: nat): Input<Action> { Input(id, 0, sequence, 0, Keys(16), 1) }

  function Submissions(id: PlayerId, n: nat): seq<MatchOp<Action>>
    decreases n
  {
    if n == 0 then [] else Submissions(id, n - 1) + [SubmitInput(Full(id, n - 1))]
  }

  function Scheduled(id: PlayerId, n: nat): (xs: seq<Input<Action>>)
    ensures |xs| == n
    decreases n
  {
    if n == 0 then [] else Scheduled(id, n - 1) + [FullInput(id, n - 1)]
  }

  /** After `n` submissions: nothing has moved, and all of them wait for frame one. */
  ghost predicate Waiting(setup: Setup<Book, Action>, m: Match<Book, Action>, id: PlayerId, n: nat) {
    && m.frame == 0 && m.ending.None? && m.queue.order == setup.participants && m.queue.window.delay == 1
    && id in m.queue.players && m.queue.players[id].epoch == 0 && m.queue.players[id].next == n
    && m.queue.scheduled == if n == 0 then map[] else map[1 := Scheduled(id, n)]
  }

  lemma SubmittingWaits(setup: Setup<Book, Action>, m: Match<Book, Action>, id: PlayerId, n: nat)
    requires Waiting(setup, m, id, n)
    ensures Waiting(setup, EnqueueInput(m, Full(id, n)).0, id, n + 1)
  {
    var q, x := m.queue, Full(id, n);
    assert ValidEnvelope(x) && Answer(q, x, 0) == None;
    assert Timed(x, 1) == FullInput(id, n);
    assert Inputs(q.scheduled, 1) == Scheduled(id, n);
  }

  lemma {:induction false} SubmissionsWait(
    setup: Setup<Book, Action>, first: Book, second: Book, id: PlayerId, n: nat)
    requires TwoPlayers(setup.participants) && id == setup.participants[0]
    ensures Waiting(setup, RunMatch(setup, first, second, Submissions(id, n)).m, id, n)
    decreases n
  {
    if n > 0 {
      hide Waiting;
      SubmissionsWait(setup, first, second, id, n - 1);
      var before := RunMatch(setup, first, second, Submissions(id, n - 1));
      assert Submissions(id, n)[..n - 1] == Submissions(id, n - 1) by { SubmissionsCount(id, n - 1); }
      SubmissionsCount(id, n);
      assert before.m.ending.None? by { WaitingIsOpen(setup, before.m, id, n - 1); }
      SubmittingWaits(setup, before.m, id, n - 1);
    } else {
      assert Submissions(id, 0) == [];
    }
  }

  lemma WaitingIsOpen(setup: Setup<Book, Action>, m: Match<Book, Action>, id: PlayerId, n: nat)
    requires Waiting(setup, m, id, n)
    ensures m.ending.None?
  {
  }

  lemma {:induction false} SubmissionsCount(id: PlayerId, n: nat)
    ensures |Submissions(id, n)| == n
    decreases n
  {
    if n > 0 {
      SubmissionsCount(id, n - 1);
    }
  }

  lemma {:induction false} ScheduledAreSorted(order: seq<PlayerId>, id: PlayerId, n: nat)
    ensures Sorted(order, Scheduled(id, n)) == Scheduled(id, n)
    ensures n > 0 ==> Scheduled(id, n)[n - 1] == FullInput(id, n - 1)
    decreases n
  {
    if n > 0 {
      ScheduledAreSorted(order, id, n - 1);
      assert Scheduled(id, n)[..n - 1] == Scheduled(id, n - 1);
    }
  }

  lemma {:induction false} ScheduledAreCurrent(players: map<PlayerId, PlayerInput>, id: PlayerId, n: nat)
    requires id in players && players[id].epoch == 0
    ensures Current(players, Scheduled(id, n)) == Scheduled(id, n)
    decreases n
  {
    if n > 0 {
      ScheduledAreCurrent(players, id, n - 1);
      assert Scheduled(id, n)[..n - 1] == Scheduled(id, n - 1);
    }
  }

  lemma {:induction false} ScheduledActions(id: PlayerId, n: nat)
    ensures |Actions(Scheduled(id, n), id)| == 16 * n
    decreases n
  {
    if n > 0 {
      ScheduledActions(id, n - 1);
      assert Scheduled(id, n)[..n - 1] == Scheduled(id, n - 1);
    }
  }

  lemma WaitingAreDue(setup: Setup<Book, Action>, m: Match<Book, Action>, id: PlayerId, n: nat)
    requires Waiting(setup, m, id, n) && n > 0
    ensures DueInputs(m) == Scheduled(id, n)
  {
    var order, scheduled := m.queue.order, m.queue.scheduled;
    assert Batches(order, scheduled, 0) == [] && Batches(order, scheduled, 1) == [];
    assert Batches(order, scheduled, 2) == Sorted(order, Scheduled(id, n));
    ScheduledAreSorted(order, id, n);
    ScheduledAreCurrent(m.queue.players, id, n);
  }

  /**
   Every match can be crowded out: five full envelopes of one player before the first frame make that frame raise an
   error, the match is drawn, and its log does not reconstruct.
   */
  lemma CrowdedMatchesDoNotReplay(
    d: Duel, setup: Setup<Book, Action>, firstBoard: FieldBoard, secondBoard: FieldBoard)
    requires MatchOk(d, setup, firstBoard, secondBoard)
    ensures var r := RunDuel(d, setup, firstBoard, secondBoard, Submissions(setup.participants[0], 5) + [Advance]);
            && r.threw && r.log.Ok? && r.m.ending.Some?
            && Reconstruct(setup, Start(d.first, firstBoard), Start(d.second, secondBoard),
                           r.log.value.entries, r.m.ending.value).Err?
  {
    hide Waiting, Reconstruct, AdvanceOneFrame, MatchOk, BookMachine;
    assert TwoPlayers(setup.participants) by { MatchesHaveTwo(d, setup, firstBoard, secondBoard); }
    var id := setup.participants[0];
    var front := Submissions(id, 5);
    var ops := front + [Advance];
    SubmissionsWait(setup, Start(d.first, firstBoard), Start(d.second, secondBoard), id, 5);
    var m := RunDuel(d, setup, firstBoard, secondBoard, front).m;
    WaitingIsOpen(setup, m, id, 5);
    WaitingAreDue(setup, m, id, 5);
    ScheduledActions(id, 5);
    assert ops[..|front|] == front && ops[|front|] == Advance;
    assert CrowdedAt(d, setup, firstBoard, secondBoard, ops, |front|);
    assert EverCrowded(d, setup, firstBoard, secondBoard, ops);
    RunsAreBooked(d, setup, firstBoard, secondBoard, ops);
    ThrowsEndTheMatch(setup, RunDuel(d, setup, firstBoard, secondBoard, front));
    MatchesReplayUnlessCrowded(d, setup, firstBoard, secondBoard, ops);
  }

  lemma MatchesHaveTwo(d: Duel, setup: Setup<Book, Action>, firstBoard: FieldBoard, secondBoard: FieldBoard)
    requires MatchOk(d, setup, firstBoard, secondBoard)
    ensures TwoPlayers(setup.participants)
  {
  }

  lemma ThrowsEndTheMatch(setup: Setup<Book, Action>, r: Recording<Book, Action>)
    requires TwoPlayers(setup.participants) && r.m.ending.None?
    ensures TakeOp(setup, r, Advance).threw ==> TakeOp(setup, r, Advance).m.ending.Some?
  {
  }
}

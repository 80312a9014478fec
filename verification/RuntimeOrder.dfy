/** A room's runtime is serial: its actor sees the commands in the order they were taken, one after the other, each once. */
module RuntimeOrder {
  import opened Wrappers
  import opened CommitOutbox
  import opened RoomRuntimes

  /** The commands a runtime took, in order. */
  function Taken<S, C>(actor: Actor<S, C>, room: RoomId, capacity: nat, state: S, events: seq<Event<C>>): seq<C> {
    if events == [] then []
    else
      var front, e := events[..|events| - 1], events[|events| - 1];
      if e.Request? && Dispatch(RunEvents(actor, room, capacity, state, front), e.command).1.Enqueued?
      then Taken(actor, room, capacity, state, front) + [e.command]
      else Taken(actor, room, capacity, state, front)
  }

  /** Does this event bring the actor's answer to a command? */
  predicate Answers<S, C>(rt: Runtime<S, C>, e: Event<C>) { e.Answer? && !rt.disposed && rt.stage.Dispatching? }

  /** The commands the actor has answered, in order. */
  function Answered<S, C>(actor: Actor<S, C>, room: RoomId, capacity: nat, state: S, events: seq<Event<C>>): seq<C> {
    if events == [] then []
    else
      var front, e := events[..|events| - 1], events[|events| - 1];
      var rt := RunEvents(actor, room, capacity, state, front);
      if Answers(rt, e) then Answered(actor, room, capacity, state, front) + [rt.stage.command]
      else Answered(actor, room, capacity, state, front)
  }

  /** The actor's state after some commands in a row; a command that fails leaves it as it was. */
  function Folded<S, C>(actor: Actor<S, C>, state: S, commands: seq<C>): S {
    if commands == [] then state
    else
      var before := Folded(actor, state, commands[..|commands| - 1]);
      match actor.dispatch(before, commands[|commands| - 1])
      case None => before
      case Some(reply) => reply.state
  }

  /** The commits of some commands in a row. */
  function CommitsOf<S, C>(actor: Actor<S, C>, room: RoomId, state: S, commands: seq<C>): seq<Commit> {
    if commands == [] then []
    else
      var front := commands[..|commands| - 1];
      match actor.dispatch(Folded(actor, state, front), commands[|commands| - 1])
      case None => CommitsOf(actor, room, state, front)
      case Some(reply) =>
        if reply.committed then CommitsOf(actor, room, state, front) + [Commit(room, actor.revision(reply.state), reply.effects)]
        else CommitsOf(actor, room, state, front)
  }

  function UnderWay<C>(stage: Stage<C>): seq<C> { if stage.Dispatching? then [stage.command] else [] }

  predicate Serial<S(==), C(==)>(actor: Actor<S, C>, rt: Runtime<S, C>, state: S, taken: seq<C>, answered: seq<C>) {
    && rt.state == Folded(actor, state, answered)
    && rt.committed == CommitsOf(actor, rt.room, state, answered)
    && answered <= taken
    && (!rt.disposed ==> taken == answered + UnderWay(rt.stage) + rt.queue)
  }

  lemma FoldOneMore<S, C>(actor: Actor<S, C>, room: RoomId, state: S, commands: seq<C>, c: C)
    ensures var before := Folded(actor, state, commands);
            var reply := actor.dispatch(before, c);
            && Folded(actor, state, commands + [c]) == (if reply.None? then before else reply.value.state)
            && CommitsOf(actor, room, state, commands + [c]) ==
               if reply.Some? && reply.value.committed
               then CommitsOf(actor, room, state, commands) + [Commit(room, actor.revision(reply.value.state), reply.value.effects)]
               else CommitsOf(actor, room, state, commands)
  {
    assert (commands + [c])[..|commands|] == commands;
  }

  lemma AnswersAreSerial<S(!new), C(!new)>(
    actor: Actor<S, C>, rt: Runtime<S, C>, base: nat, state: S, taken: seq<C>, answered: seq<C>)
    requires ActorOk(actor) && RuntimeOk(actor, rt, base) && !rt.disposed && rt.stage.Dispatching?
    requires Serial(actor, rt, state, taken, answered)
    ensures Serial(actor, ActorReplies(actor, rt), state, taken, answered + [rt.stage.command])
    ensures ActorReplies(actor, rt).room == rt.room
  {
    FoldOneMore(actor, rt.room, state, answered, rt.stage.command);
    assert taken == (answered + [rt.stage.command]) + rt.queue;
    assert (answered + [rt.stage.command]) + [] + rt.queue == taken;
  }

  lemma OthersAreSerial<S(!new), C(!new)>(
    actor: Actor<S, C>, rt: Runtime<S, C>, e: Event<C>, state: S, taken: seq<C>, answered: seq<C>)
    requires Serial(actor, rt, state, taken, answered) && !Answers(rt, e)
    ensures var more := if e.Request? && Dispatch(rt, e.command).1.Enqueued? then [e.command] else [];
            Serial(actor, TakeEvent(actor, rt, e), state, taken + more, answered)
  {
    hide Folded, CommitsOf;
    assert taken + [] == taken;
    match e
    case Request(c) =>
      assert answered + UnderWay(rt.stage) + (rt.queue + [c]) == (answered + UnderWay(rt.stage) + rt.queue) + [c];
    case Proceed =>
      if !rt.disposed && rt.stage.Idle? && rt.queue != [] {
        assert rt.queue == [rt.queue[0]] + rt.queue[1..];
      }
    case _ =>
  }

  lemma {:induction false} RunsAreSerial<S(!new), C(!new)>(
    actor: Actor<S, C>, room: RoomId, capacity: nat, state: S, events: seq<Event<C>>)
    requires ActorOk(actor)
    ensures var rt := RunEvents(actor, room, capacity, state, events);
            && rt.room == room
            && Serial(actor, rt, state, Taken(actor, room, capacity, state, events), Answered(actor, room, capacity, state, events))
    decreases |events|
  {
    hide Serial, TakeEvent, RuntimeOk, ActorOk, Folded, CommitsOf;
    if events == [] {
      NothingIsSerial(actor, room, capacity, state);
    } else {
      var front, e := events[..|events| - 1], events[|events| - 1];
      var rt := RunEvents(actor, room, capacity, state, front);
      var taken, answered := Taken(actor, room, capacity, state, front), Answered(actor, room, capacity, state, front);
      RunsAreSerial(actor, room, capacity, state, front);
      CommitsArePublishedOneByOne(actor, room, capacity, state, front);
      RoomsStay(actor, rt, e);
      if Answers(rt, e) {
        AnswersAreSerial(actor, rt, actor.revision(state), state, taken, answered);
        AnswerIsAnswer(actor, rt, e);
      } else {
        OthersAreSerial(actor, rt, e, state, taken, answered);
        assert taken + [] == taken;
      }
    }
  }

  lemma AnswerIsAnswer<S, C>(actor: Actor<S, C>, rt: Runtime<S, C>, e: Event<C>)
    requires Answers(rt, e)
    ensures TakeEvent(actor, rt, e) == ActorReplies(actor, rt) && !e.Request?
  {
  }

  lemma RoomsStay<S, C>(actor: Actor<S, C>, rt: Runtime<S, C>, e: Event<C>)
    ensures TakeEvent(actor, rt, e).room == rt.room
  {
  }

  lemma NothingIsSerial<S, C>(actor: Actor<S, C>, room: RoomId, capacity: nat, state: S)
    ensures Serial(actor, NewRuntime<S, C>(room, capacity, state), state, [], [])
  {
  }

  /**
   Serial execution, on every run: the actor has answered the first of the commands the runtime took, in their order, each
   once; its state and its commits are those of these commands one after the other; and until the runtime is closed every
   other command it took is the one under way or waits in line, in order.
   */
  lemma CommandsRunInOrder<S(!new), C(!new)>(
    actor: Actor<S, C>, room: RoomId, capacity: nat, state: S, events: seq<Event<C>>)
    requires ActorOk(actor)
    ensures var rt := RunEvents(actor, room, capacity, state, events);
            var taken, answered := Taken(actor, room, capacity, state, events), Answered(actor, room, capacity, state, events);
            && rt.state == Folded(actor, state, answered)
            && rt.committed == CommitsOf(actor, room, state, answered)
            && answered <= taken
            && (!rt.disposed ==>
                taken == answered + (if rt.stage.Dispatching? then [rt.stage.command] else []) + rt.queue)
  {
    hide RunEvents, Taken, Answered, Folded, CommitsOf;
    RunsAreSerial(actor, room, capacity, state, events);
  }
}

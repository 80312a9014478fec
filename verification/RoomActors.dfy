/** The room state machine as the actor behind a runtime. */
module RoomActors {
  import opened Wrappers
  import opened RoomModel
  import opened RoomReducer
  import RoomTraces
  import Outboxes = CommitOutbox
  import OutboxLaws = CommitOutboxLaws
  import Runtimes = RoomRuntimes
  import Delivery = RoomDelivery

  /** Dispatching a command: a transition that raises an error rejects the dispatch and leaves the room alone. */
  function DispatchCommand(encode: Effect -> nat, policy: Policy, s: RoomState, c: Command): Option<Runtimes.Reply<RoomState>> {
    if s.presenceSequence < 0 then None
    else match TransitionRoom(s, c, policy)
      case Committed(next, effects) =>
        Some(Runtimes.Reply(next, true, seq(|effects|, i requires 0 <= i < |effects| => encode(effects[i]))))
      case Rejected(_) => Some(Runtimes.Reply(s, false, []))
      case Ignored(_) => Some(Runtimes.Reply(s, false, []))
      case Thrown => None
  }

  function PresenceOf(s: RoomState): nat { if s.presenceSequence < 0 then 0 else s.presenceSequence }

  function RoomActor(encode: Effect -> nat, policy: Policy): Runtimes.Actor<RoomState, Command> {
    Runtimes.Actor((s, c) => DispatchCommand(encode, policy, s, c), s => PresenceOf(s))
  }

  /** Every commit of a room takes the next presence sequence, and nothing else moves it. */
  lemma RoomActorIsOk(encode: Effect -> nat, policy: Policy)
    ensures Runtimes.ActorOk(RoomActor(encode, policy))
  {
    var actor := RoomActor(encode, policy);
    forall s, c | actor.dispatch(s, c).Some?
      ensures var r := actor.dispatch(s, c).value;
              actor.revision(r.state) == actor.revision(s) + (if r.committed then 1 else 0)
    {
      RoomTraces.CommitShape(s, c, policy);
      RoomTraces.ProposalsKeepNumbers(s, c, policy);
    }
  }

  /**
   The room state machine, the runtimes of all rooms and the outbox together: whatever commands arrive, whenever rooms are
   opened and closed, and however publications, handlers and timers go, every room's commits carry consecutive presence
   sequences and reach the outbox in order, all but the one being published, and their effects are settled in that order,
   each once and none skipped.
   */
  lemma RoomEffectsAreDelivered(
    encode: Effect -> nat, policy: Policy, limits: Outboxes.Limits,
    actions: seq<Delivery.Action<RoomState, Command>>, room: Outboxes.RoomId)
    requires Outboxes.LimitsOk(limits) && forall i | 0 <= i < |actions| :: Delivery.ActionOk(actions[i])
    requires room in Delivery.RunSystem(RoomActor(encode, policy), limits, actions).sites
    ensures var s := Delivery.RunSystem(RoomActor(encode, policy), limits, actions);
            var committed := s.sites[room].runtime.committed;
            && Runtimes.Consecutive(committed, room, s.sites[room].base)
            && Outboxes.Log(s.outbox.arrived, room) <= committed
            && |committed| <= |Outboxes.Log(s.outbox.arrived, room)| + 1
            && OutboxLaws.RoomDelivers(s.outbox, room)
  {
    RoomActorIsOk(encode, policy);
    Delivery.EffectsFollowTheCommits(RoomActor(encode, policy), limits, actions, room);
  }
}

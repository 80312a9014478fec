/**
 The match input queue as a state and its transitions: envelopes are accepted in sequence within an
 input epoch, scheduled a fixed delay ahead, drained frame by frame and forgotten on a reset.
 */
module InputQueues {
  import opened Wrappers

  /** Player ids are only ever compared, so a number stands for each. */
  type PlayerId = nat

  datatype Rejection = UnknownPlayer | WrongEpoch | Gap | Late | TooFarFuture | Invalid

  datatype Disposition =
    | Scheduled(sequence: int, serverFrame: nat)
    | Applied(sequence: int, serverFrame: nat)
    | Rejected(sequence: int, reason: Rejection)

  datatype Envelope<A> = Envelope(
    playerId: PlayerId, inputEpoch: int, sequence: int, clientFrame: int, actions: seq<A>)

  datatype Input<A> = Input(
    playerId: PlayerId, inputEpoch: nat, sequence: nat, clientFrame: nat, actions: seq<A>, serverFrame: nat)

  /** How far ahead inputs are scheduled, how far client frames may stray, and how many answers are kept. */
  datatype Window = Window(delay: nat, lag: nat, lead: nat, historySize: nat)

  datatype PlayerInput = PlayerInput(epoch: nat, next: nat, history: seq<Disposition>)

  type Schedule<A> = map<nat, seq<Input<A>>>

  datatype Queue<A> = Queue(
    order: seq<PlayerId>, window: Window, players: map<PlayerId, PlayerInput>, scheduled: Schedule<A>)

  predicate TwoPlayers(order: seq<PlayerId>) { |order| == 2 && order[0] != order[1] }

  function NewQueue<A>(order: seq<PlayerId>, window: Window): Queue<A>
    requires TwoPlayers(order)
  {
    var starting := PlayerInput(0, 0, []);
    Queue(order, window, map[order[0] := starting, order[1] := starting], map[])
  }

  // ---------------------------------------------------------------- accepting

  predicate ValidEnvelope<A>(input: Envelope<A>) {
    input.inputEpoch >= 0 && input.sequence >= 0 && input.clientFrame >= 0 && 1 <= |input.actions| <= 16
  }

  function Forget(history: seq<Disposition>, sequence: int): seq<Disposition> {
    if history == [] then []
    else
      var rest := Forget(history[..|history| - 1], sequence);
      if history[|history| - 1].sequence == sequence then rest else rest + [history[|history| - 1]]
  }

  function Newest(history: seq<Disposition>, size: nat): seq<Disposition> {
    if |history| <= size then history else history[|history| - size..]
  }

  /** The newest answers, one for each sequence number. */
  function Remember(p: PlayerInput, d: Disposition, size: nat): PlayerInput {
    p.(history := Newest(Forget(p.history, d.sequence) + [d], size))
  }

  function Recall(history: seq<Disposition>, sequence: int): Option<Disposition> {
    if history == [] then None
    else if history[|history| - 1].sequence == sequence then Some(history[|history| - 1])
    else Recall(history[..|history| - 1], sequence)
  }

  function Timed<A>(input: Envelope<A>, serverFrame: nat): Input<A>
    requires ValidEnvelope(input)
  {
    Input(input.playerId, input.inputEpoch, input.sequence, input.clientFrame, input.actions, serverFrame)
  }

  function Inputs<A>(scheduled: Schedule<A>, frame: nat): seq<Input<A>> {
    if frame in scheduled then scheduled[frame] else []
  }

  function Added<A>(s: Schedule<A>, at: nat, x: Input<A>): Schedule<A> { s[at := Inputs(s, at) + [x]] }

  /** The first objection to an envelope, if there is one. */
  function Answer<A>(q: Queue<A>, input: Envelope<A>, now: nat): Option<Disposition> {
    if input.playerId !in q.players then Some(Rejected(input.sequence, UnknownPlayer))
    else if !ValidEnvelope(input) then Some(Rejected(input.sequence, Invalid))
    else
      var p := q.players[input.playerId];
      if input.inputEpoch != p.epoch then Some(Rejected(input.sequence, WrongEpoch))
      else if input.sequence < p.next then
        Some(Recall(p.history, input.sequence).GetOr(Rejected(input.sequence, Late)))
      else if input.sequence > p.next then Some(Rejected(input.sequence, Gap))
      else if input.clientFrame < now - q.window.lag then Some(Rejected(input.sequence, Late))
      else if input.clientFrame > now + q.window.lead then Some(Rejected(input.sequence, TooFarFuture))
      else None
  }

  function Accept<A>(q: Queue<A>, x: Input<A>): Queue<A>
    requires x.playerId in q.players
  {
    var p := q.players[x.playerId];
    q.(players := q.players[x.playerId :=
         Remember(p.(next := p.next + 1), Scheduled(x.sequence, x.serverFrame), q.window.historySize)],
       scheduled := Added(q.scheduled, x.serverFrame, x))
  }

  function Enqueued<A>(q: Queue<A>, input: Envelope<A>, now: nat): (Queue<A>, Disposition) {
    match Answer(q, input, now)
    case Some(answer) => (q, answer)
    case None =>
      (Accept(q, Timed(input, now + q.window.delay)), Scheduled(input.sequence, now + q.window.delay))
  }

  // ---------------------------------------------------------------- draining

  function Rank(order: seq<PlayerId>, id: PlayerId): nat {
    if |order| >= 2 && id == order[1] && id != order[0] then 1 else 0
  }

  predicate Before<A>(order: seq<PlayerId>, a: Input<A>, b: Input<A>) {
    || Rank(order, a.playerId) < Rank(order, b.playerId)
    || (Rank(order, a.playerId) == Rank(order, b.playerId) && a.sequence < b.sequence)
  }

  function Insert<A>(order: seq<PlayerId>, s: seq<Input<A>>, x: Input<A>): seq<Input<A>> {
    if s == [] || !Before(order, x, s[|s| - 1]) then s + [x]
    else Insert(order, s[..|s| - 1], x) + [s[|s| - 1]]
  }

  /** The stable sort by player order, then sequence. */
  function Sorted<A>(order: seq<PlayerId>, s: seq<Input<A>>): seq<Input<A>> {
    if s == [] then [] else Insert(order, Sorted(order, s[..|s| - 1]), s[|s| - 1])
  }

  /** The scheduled frames below `bound`, ascending. */
  function DueFrames<A>(scheduled: Schedule<A>, bound: nat): seq<nat> {
    if bound == 0 then []
    else if bound - 1 in scheduled then DueFrames(scheduled, bound - 1) + [bound - 1]
    else DueFrames(scheduled, bound - 1)
  }

  /** Everything scheduled below `bound`, frame by frame, each frame sorted. */
  function Batches<A>(order: seq<PlayerId>, scheduled: Schedule<A>, bound: nat): seq<Input<A>> {
    if bound == 0 then []
    else if bound - 1 in scheduled then Batches(order, scheduled, bound - 1) + Sorted(order, scheduled[bound - 1])
    else Batches(order, scheduled, bound - 1)
  }

  predicate IsCurrent<A>(players: map<PlayerId, PlayerInput>, x: Input<A>) {
    x.playerId in players && players[x.playerId].epoch == x.inputEpoch
  }

  function Current<A>(players: map<PlayerId, PlayerInput>, xs: seq<Input<A>>): seq<Input<A>> {
    if xs == [] then []
    else if IsCurrent(players, xs[|xs| - 1]) then Current(players, xs[..|xs| - 1]) + [xs[|xs| - 1]]
    else Current(players, xs[..|xs| - 1])
  }

  function SettleOne<A>(players: map<PlayerId, PlayerInput>, x: Input<A>, size: nat): map<PlayerId, PlayerInput> {
    if IsCurrent(players, x)
    then players[x.playerId := Remember(players[x.playerId], Applied(x.sequence, x.serverFrame), size)]
    else players
  }

  function Settled<A>(players: map<PlayerId, PlayerInput>, xs: seq<Input<A>>, size: nat): map<PlayerId, PlayerInput> {
    if xs == [] then players else SettleOne(Settled(players, xs[..|xs| - 1], size), xs[|xs| - 1], size)
  }

  function After<A>(scheduled: Schedule<A>, frame: int): Schedule<A> { map f | f in scheduled && f > frame :: scheduled[f] }

  function Drained<A>(q: Queue<A>, frame: nat): (Queue<A>, seq<Input<A>>) {
    var due := Batches(q.order, q.scheduled, frame + 1);
    (q.(players := Settled(q.players, due, q.window.historySize), scheduled := After(q.scheduled, frame)),
     Current(q.players, due))
  }

  // ---------------------------------------------------------------- resetting

  function Without<A>(xs: seq<Input<A>>, id: PlayerId): seq<Input<A>> {
    if xs == [] then []
    else if xs[|xs| - 1].playerId != id then Without(xs[..|xs| - 1], id) + [xs[|xs| - 1]]
    else Without(xs[..|xs| - 1], id)
  }

  /** The next epoch of a player, with nothing scheduled and nothing remembered. */
  function Reset<A>(q: Queue<A>, id: PlayerId): Queue<A>
    requires id in q.players
  {
    q.(players := q.players[id := PlayerInput(q.players[id].epoch + 1, 0, [])],
       scheduled := map f | f in q.scheduled && Without(q.scheduled[f], id) != [] :: Without(q.scheduled[f], id))
  }
}

/** Within one epoch the inputs drained for a player are sequences 0, 1, 2, … in order, none lost and none repeated. */
module InputQueueLaws {
  import opened Wrappers
  import opened InputQueues

  // ---------------------------------------------------------------- one player's view of a list

  /** The inputs of one player. */
  function Of<A>(xs: seq<Input<A>>, id: PlayerId): seq<Input<A>> {
    if xs == [] then []
    else if xs[|xs| - 1].playerId == id then Of(xs[..|xs| - 1], id) + [xs[|xs| - 1]]
    else Of(xs[..|xs| - 1], id)
  }

  /** The inputs of one player's epoch. */
  function In<A>(xs: seq<Input<A>>, id: PlayerId, epoch: nat): seq<Input<A>> {
    if xs == [] then []
    else if xs[|xs| - 1].playerId == id && xs[|xs| - 1].inputEpoch == epoch then
      In(xs[..|xs| - 1], id, epoch) + [xs[|xs| - 1]]
    else In(xs[..|xs| - 1], id, epoch)
  }

  /** What is scheduled for one player below `bound`, frame by frame. */
  function Pending<A>(scheduled: Schedule<A>, id: PlayerId, bound: nat): seq<Input<A>> {
    if bound == 0 then []
    else if bound - 1 in scheduled then Pending(scheduled, id, bound - 1) + Of(scheduled[bound - 1], id)
    else Pending(scheduled, id, bound - 1)
  }

  predicate NumberedFrom<A>(xs: seq<Input<A>>, first: nat) { forall i | 0 <= i < |xs| :: xs[i].sequence == first + i }

  predicate AllOf<A>(xs: seq<Input<A>>, id: PlayerId, epoch: nat) {
    forall i | 0 <= i < |xs| :: xs[i].playerId == id && xs[i].inputEpoch == epoch
  }

  lemma Glue<T>(a: seq<T>, d: seq<T>, w: seq<T>, m: seq<T>, a': seq<T>, w': seq<T>)
    requires a == d + w && a' == a + m && w' == w + m
    ensures a' == d + w'
  {
  }

  lemma Assoc<T>(a: seq<T>, b: seq<T>, c: seq<T>)
    ensures (a + b) + c == a + (b + c)
  {
  }

  lemma {:induction false} OfAppend<A>(xs: seq<Input<A>>, ys: seq<Input<A>>, id: PlayerId)
    ensures Of(xs + ys, id) == Of(xs, id) + Of(ys, id)
    decreases |ys|
  {
    if ys == [] {
      assert xs + ys == xs;
    } else {
      var n := |ys| - 1;
      OfAppend(xs, ys[..n], id);
      assert (xs + ys)[..|xs + ys| - 1] == xs + ys[..n];
    }
  }

  lemma {:induction false} InAppend<A>(xs: seq<Input<A>>, ys: seq<Input<A>>, id: PlayerId, epoch: nat)
    ensures In(xs + ys, id, epoch) == In(xs, id, epoch) + In(ys, id, epoch)
    decreases |ys|
  {
    if ys == [] {
      assert xs + ys == xs;
    } else {
      var n := |ys| - 1;
      InAppend(xs, ys[..n], id, epoch);
      assert (xs + ys)[..|xs + ys| - 1] == xs + ys[..n];
    }
  }

  lemma OfSnoc<A>(xs: seq<Input<A>>, x: Input<A>, id: PlayerId)
    ensures Of(xs + [x], id) == if x.playerId == id then Of(xs, id) + [x] else Of(xs, id)
  {
    assert (xs + [x])[..|xs|] == xs;
  }

  lemma InSnoc<A>(xs: seq<Input<A>>, x: Input<A>, id: PlayerId, epoch: nat)
    ensures In(xs + [x], id, epoch)
         == if x.playerId == id && x.inputEpoch == epoch then In(xs, id, epoch) + [x] else In(xs, id, epoch)
  {
    assert (xs + [x])[..|xs|] == xs;
  }

  lemma {:induction false} InBelongs<A>(xs: seq<Input<A>>, id: PlayerId, epoch: nat)
    ensures AllOf(In(xs, id, epoch), id, epoch)
    decreases |xs|
  {
    if xs != [] {
      InBelongs(xs[..|xs| - 1], id, epoch);
    }
  }

  // ---------------------------------------------------------------- sorting keeps each player's order

  predicate AtMost<A>(xs: seq<Input<A>>, sequence: nat) { forall i | 0 <= i < |xs| :: xs[i].sequence <= sequence }

  lemma LastIsAtMost<A>(s: seq<Input<A>>, last: Input<A>, id: PlayerId, sequence: nat)
    requires AtMost(Of(s + [last], id), sequence) && last.playerId == id
    ensures last.sequence <= sequence
  {
    OfSnoc(s, last, id);
    assert Of(s + [last], id)[|Of(s, id)|] == last;
  }

  lemma {:induction false} InsertKeepsPlayer<A>(order: seq<PlayerId>, s: seq<Input<A>>, x: Input<A>, id: PlayerId)
    requires x.playerId == id ==> AtMost(Of(s, id), x.sequence)
    ensures Of(Insert(order, s, x), id) == Of(s, id) + (if x.playerId == id then [x] else [])
    decreases |s|
  {
    OfSnoc(s, x, id);
    if s != [] && Before(order, x, s[|s| - 1]) {
      var m := |s| - 1;
      var last := s[m];
      assert s[..m] + [last] == s;
      OfSnoc(s[..m], last, id);
      if x.playerId == id {
        if last.playerId == id {
          LastIsAtMost(s[..m], last, id, x.sequence);
          assert false;
        }
        assert Of(s, id) == Of(s[..m], id);
      }
      InsertKeepsPlayer(order, s[..m], x, id);
      OfSnoc(Insert(order, s[..m], x), last, id);
    }
  }

  lemma {:induction false} SortKeepsPlayer<A>(order: seq<PlayerId>, s: seq<Input<A>>, id: PlayerId, first: nat)
    requires NumberedFrom(Of(s, id), first)
    ensures Of(Sorted(order, s), id) == Of(s, id)
    decreases |s|
  {
    if s != [] {
      var m := |s| - 1;
      var before := Of(s[..m], id);
      assert forall i | 0 <= i < |before| :: before[i] == Of(s, id)[i];
      SortKeepsPlayer(order, s[..m], id, first);
      if s[m].playerId == id {
        assert Of(s, id)[|before|] == s[m];
      }
      InsertKeepsPlayer(order, Sorted(order, s[..m]), s[m], id);
    }
  }

  /** Batches hold exactly what was pending for each player. */
  lemma {:induction false} BatchesKeepPlayer<A>(order: seq<PlayerId>, s: Schedule<A>, id: PlayerId, bound: nat, first: nat)
    requires NumberedFrom(Pending(s, id, bound), first)
    ensures Of(Batches(order, s, bound), id) == Pending(s, id, bound)
    decreases bound
  {
    if bound > 0 {
      var before, here := Pending(s, id, bound - 1), Of(Inputs(s, bound - 1), id);
      forall i | 0 <= i < |before| ensures before[i].sequence == first + i {
        assert Pending(s, id, bound)[i] == before[i];
      }
      forall i | 0 <= i < |here| ensures here[i].sequence == first + |before| + i {
        assert Pending(s, id, bound)[|before| + i] == here[i];
      }
      BatchesKeepPlayer(order, s, id, bound - 1, first);
      SortKeepsPlayer(order, Inputs(s, bound - 1), id, first + |before|);
      OfAppend(Batches(order, s, bound - 1), Sorted(order, Inputs(s, bound - 1)), id);
    }
  }

  // ---------------------------------------------------------------- schedules

  predicate Below<A>(s: Schedule<A>, bound: nat) { forall f | f in s :: f < bound }

  lemma {:induction false} PendingBeyond<A>(s: Schedule<A>, id: PlayerId, bound: nat, far: nat)
    requires Below(s, bound) && bound <= far
    ensures Pending(s, id, far) == Pending(s, id, bound)
    decreases far
  {
    if far > bound {
      PendingBeyond(s, id, bound, far - 1);
    }
  }

  lemma {:induction false} PendingAgrees<A>(s: Schedule<A>, t: Schedule<A>, id: PlayerId, bound: nat)
    requires forall f: nat | f < bound :: Of(Inputs(s, f), id) == Of(Inputs(t, f), id)
    ensures Pending(s, id, bound) == Pending(t, id, bound)
    decreases bound
  {
    if bound > 0 {
      PendingAgrees(s, t, id, bound - 1);
      var before, here := Pending(s, id, bound - 1), Of(Inputs(s, bound - 1), id);
      if here == [] {
        assert before + here == before;
      }
      assert Of(Inputs(t, bound - 1), id) == here;
    }
  }

  lemma {:induction false} PendingSplits<A>(s: Schedule<A>, id: PlayerId, cut: nat, bound: nat)
    requires cut <= bound
    ensures Pending(s, id, bound) == Pending(s, id, cut) + Pending(After(s, cut - 1), id, bound)
    decreases bound
  {
    var t := After(s, cut - 1);
    if bound == cut {
      PendingAgrees(t, map[], id, cut);
      NothingPending<A>(id, cut);
    } else {
      PendingSplits(s, id, cut, bound - 1);
      assert Inputs(t, bound - 1) == Inputs(s, bound - 1);
    }
  }

  lemma {:induction false} NothingPending<A>(id: PlayerId, bound: nat)
    ensures Pending<A>(map[], id, bound) == []
  {
    if bound > 0 {
      NothingPending<A>(id, bound - 1);
    }
  }

  lemma PendingStep<A>(s: Schedule<A>, id: PlayerId, bound: nat)
    ensures Pending(s, id, bound + 1) == Pending(s, id, bound) + Of(Inputs(s, bound), id)
  {
  }

  lemma AddedBelow<A>(s: Schedule<A>, id: PlayerId, at: nat, x: Input<A>)
    ensures Pending(Added(s, at, x), id, at) == Pending(s, id, at)
  {
    var t := Added(s, at, x);
    forall f: nat | f < at ensures Of(Inputs(s, f), id) == Of(Inputs(t, f), id) {
      assert Inputs(s, f) == Inputs(t, f);
    }
    PendingAgrees(s, t, id, at);
  }

  lemma PendingGrows<A>(s: Schedule<A>, id: PlayerId, bound: nat, at: nat, x: Input<A>)
    requires Below(s, bound) && bound <= at + 1
    ensures Pending(Added(s, at, x), id, at + 1) == Pending(s, id, bound) + (if x.playerId == id then [x] else [])
  {
    var t := Added(s, at, x);
    AddedBelow(s, id, at, x);
    PendingBeyond(s, id, bound, at + 1);
    PendingStep(s, id, at);
    PendingStep(t, id, at);
    OfSnoc(Inputs(s, at), x, id);
    Assoc(Pending(s, id, at), Of(Inputs(s, at), id), if x.playerId == id then [x] else []);
  }

  lemma {:induction false} OfWithout<A>(xs: seq<Input<A>>, gone: PlayerId, id: PlayerId)
    ensures Of(Without(xs, gone), id) == if id == gone then [] else Of(xs, id)
    decreases |xs|
  {
    if xs != [] {
      var m := |xs| - 1;
      OfWithout(xs[..m], gone, id);
      OfSnoc(Without(xs[..m], gone), xs[m], id);
      assert Without(xs[..m], gone) + [] == Without(xs[..m], gone);
    }
  }

  lemma ResetPending<A>(q: Queue<A>, gone: PlayerId, id: PlayerId, bound: nat)
    requires gone in q.players
    ensures Pending(Reset(q, gone).scheduled, id, bound) == if id == gone then [] else Pending(q.scheduled, id, bound)
  {
    var t := Reset(q, gone).scheduled;
    forall f: nat | f < bound ensures Of(Inputs(t, f), id) == if id == gone then [] else Of(Inputs(q.scheduled, f), id) {
      OfWithout(Inputs(q.scheduled, f), gone, id);
      assert Of<A>([], id) == [];
    }
    if id == gone {
      PendingAgrees(t, map[], id, bound);
      NothingPending<A>(id, bound);
    } else {
      PendingAgrees(t, q.scheduled, id, bound);
    }
  }

  // ---------------------------------------------------------------- draining one player's inputs

  lemma {:induction false} CurrentIn<A>(players: map<PlayerId, PlayerInput>, xs: seq<Input<A>>, id: PlayerId, epoch: nat)
    requires id in players
    ensures In(Current(players, xs), id, epoch) == if epoch == players[id].epoch then In(xs, id, epoch) else []
    decreases |xs|
  {
    if xs != [] {
      var m := |xs| - 1;
      CurrentIn(players, xs[..m], id, epoch);
      if IsCurrent(players, xs[m]) {
        InSnoc(Current(players, xs[..m]), xs[m], id, epoch);
      } else {
        assert Current(players, xs) == Current(players, xs[..m]);
      }
    }
  }

  lemma {:induction false} InIsOf<A>(xs: seq<Input<A>>, id: PlayerId, epoch: nat)
    requires AllOf(Of(xs, id), id, epoch)
    ensures In(xs, id, epoch) == Of(xs, id)
    decreases |xs|
  {
    if xs != [] {
      var m := |xs| - 1;
      forall i | 0 <= i < |Of(xs[..m], id)| ensures Of(xs[..m], id)[i].playerId == id && Of(xs[..m], id)[i].inputEpoch == epoch {
        assert Of(xs, id)[i] == Of(xs[..m], id)[i];
      }
      InIsOf(xs[..m], id, epoch);
      if xs[m].playerId == id {
        assert Of(xs, id)[|Of(xs[..m], id)|] == xs[m];
      }
    }
  }

  lemma {:induction false} SettledKeepsCounters<A>(players: map<PlayerId, PlayerInput>, xs: seq<Input<A>>, size: nat)
    ensures Settled(players, xs, size).Keys == players.Keys
    ensures forall id | id in players ::
              && Settled(players, xs, size)[id].epoch == players[id].epoch
              && Settled(players, xs, size)[id].next == players[id].next
    decreases |xs|
  {
    if xs != [] {
      SettledKeepsCounters(players, xs[..|xs| - 1], size);
    }
  }

  // ---------------------------------------------------------------- runs

  datatype Op<A> = Submit(envelope: Envelope<A>, now: nat) | Drain(frame: nat) | ResetPlayer(playerId: PlayerId)

  /** A queue with everything it has accepted and everything it has handed out. */
  datatype Trace<A> = Trace(queue: Queue<A>, accepted: seq<Input<A>>, drained: seq<Input<A>>, clock: nat)

  function Take<A>(t: Trace<A>, op: Op<A>): Trace<A> {
    match op
    case Submit(envelope, now) =>
      t.(queue := Enqueued(t.queue, envelope, now).0,
         accepted := if Answer(t.queue, envelope, now).None?
                     then t.accepted + [Timed(envelope, now + t.queue.window.delay)] else t.accepted,
         clock := now)
    case Drain(frame) =>
      t.(queue := Drained(t.queue, frame).0, drained := t.drained + Drained(t.queue, frame).1)
    case ResetPlayer(id) => if id in t.queue.players then t.(queue := Reset(t.queue, id)) else t
  }

  function Run<A>(order: seq<PlayerId>, window: Window, ops: seq<Op<A>>): Trace<A>
    requires TwoPlayers(order)
  {
    if ops == [] then Trace(NewQueue(order, window), [], [], 0)
    else Take(Run(order, window, ops[..|ops| - 1]), ops[|ops| - 1])
  }

  /** The server frame of the latest submission. */
  function LastSubmit<A>(ops: seq<Op<A>>): nat {
    if ops == [] then 0
    else if ops[|ops| - 1].Submit? then ops[|ops| - 1].now
    else LastSubmit(ops[..|ops| - 1])
  }

  /** Inputs are submitted at server frames that never go back. Drained frames are free. */
  predicate NeverBack<A>(ops: seq<Op<A>>) {
    ops == []
    || (NeverBack(ops[..|ops| - 1])
        && (ops[|ops| - 1].Submit? ==> LastSubmit(ops[..|ops| - 1]) <= ops[|ops| - 1].now))
  }

  function Horizon<A>(t: Trace<A>): nat { t.clock + t.queue.window.delay + 1 }

  /** In the current epoch everything accepted has been drained or is pending, in one consecutive numbering. */
  ghost predicate CurrentEpochOk<A>(t: Trace<A>, id: PlayerId)
    requires id in t.queue.players
  {
    var p := t.queue.players[id];
    Accounted(In(t.accepted, id, p.epoch), In(t.drained, id, p.epoch), Pending(t.queue.scheduled, id, Horizon(t)), p.next)
  }

  /** Concatenation that keeps a lone side as it is. */
  function Joined<T>(a: seq<T>, b: seq<T>): (r: seq<T>)
    ensures |r| == |a| + |b|
  {
    if |a| == 0 then b else if |b| == 0 then a else a + b
  }

  /** Everything accepted was drained or is pending, numbered from 0 in one run. */
  ghost predicate Accounted<A>(accepted: seq<Input<A>>, drained: seq<Input<A>>, pending: seq<Input<A>>, next: nat) {
    accepted == Joined(drained, pending) && NumberedFrom(accepted, 0) && |accepted| == next
  }

  ghost predicate EpochOk<A>(t: Trace<A>, id: PlayerId, epoch: nat) {
    && In(t.drained, id, epoch) <= In(t.accepted, id, epoch)
    && NumberedFrom(In(t.accepted, id, epoch), 0)
  }

  /** A player's inputs carry no epoch beyond the given one. */
  predicate NoneLater<A>(xs: seq<Input<A>>, id: PlayerId, epoch: nat) {
    forall i | 0 <= i < |xs| && xs[i].playerId == id :: xs[i].inputEpoch <= epoch
  }

  lemma {:induction false} NoneLaterIsEmpty<A>(xs: seq<Input<A>>, id: PlayerId, epoch: nat, later: nat)
    requires NoneLater(xs, id, epoch) && later > epoch
    ensures In(xs, id, later) == []
    decreases |xs|
  {
    if xs != [] {
      NoneLaterIsEmpty(xs[..|xs| - 1], id, epoch, later);
    }
  }

  ghost predicate Orderly<A>(t: Trace<A>, id: PlayerId) {
    && id in t.queue.players
    && Below(t.queue.scheduled, Horizon(t))
    && CurrentEpochOk(t, id)
    && NoneLater(t.accepted, id, t.queue.players[id].epoch)
    && NoneLater(t.drained, id, t.queue.players[id].epoch)
  }

  lemma AcceptedIsPending<A>(t: Trace<A>, id: PlayerId, x: Input<A>)
    requires Orderly(t, id)
    requires t.clock + t.queue.window.delay <= x.serverFrame
    requires x.playerId == id ==> x.inputEpoch == t.queue.players[id].epoch
    ensures In(t.accepted + [x], id, t.queue.players[id].epoch)
         == In(t.drained, id, t.queue.players[id].epoch)
            + Pending(Added(t.queue.scheduled, x.serverFrame, x), id, x.serverFrame + 1)
  {
    var e := t.queue.players[id].epoch;
    PendingGrows(t.queue.scheduled, id, Horizon(t), x.serverFrame, x);
    InSnoc(t.accepted, x, id, e);
    Glue(In(t.accepted, id, e), In(t.drained, id, e), Pending(t.queue.scheduled, id, Horizon(t)),
         if x.playerId == id then [x] else [],
         In(t.accepted + [x], id, e), Pending(Added(t.queue.scheduled, x.serverFrame, x), id, x.serverFrame + 1));
  }

  lemma AcceptingKeepsOrderly<A>(t: Trace<A>, id: PlayerId, x: Input<A>, now: nat)
    requires Orderly(t, id) && t.clock <= now && x.serverFrame == now + t.queue.window.delay
    requires x.playerId in t.queue.players && x.inputEpoch == t.queue.players[x.playerId].epoch
    requires x.sequence == t.queue.players[x.playerId].next
    ensures Orderly(t.(queue := Accept(t.queue, x), accepted := t.accepted + [x], clock := now), id)
  {
    var u := t.(queue := Accept(t.queue, x), accepted := t.accepted + [x], clock := now);
    var e := t.queue.players[id].epoch;
    assert u.queue.players[id].epoch == e;
    assert u.queue.scheduled == Added(t.queue.scheduled, x.serverFrame, x);
    assert Horizon(u) == x.serverFrame + 1;
    assert In(u.accepted, id, e) == In(u.drained, id, e) + Pending(u.queue.scheduled, id, Horizon(u)) by {
      AcceptedIsPending(t, id, x);
    }
    assert NumberedFrom(In(u.accepted, id, e), 0) && |In(u.accepted, id, e)| == u.queue.players[id].next by {
      InSnoc(t.accepted, x, id, e);
    }
  }

  lemma SubmitKeepsOrderly<A>(t: Trace<A>, id: PlayerId, envelope: Envelope<A>, now: nat)
    requires Orderly(t, id) && t.clock <= now
    ensures Orderly(Take(t, Submit(envelope, now)), id)
  {
    if Answer(t.queue, envelope, now).Some? {
      PendingBeyond(t.queue.scheduled, id, Horizon(t), Horizon(Take(t, Submit(envelope, now))));
    } else {
      AcceptingKeepsOrderly(t, id, Timed(envelope, now + t.queue.window.delay), now);
    }
  }

  lemma PendingIsNumbered<A>(t: Trace<A>, id: PlayerId)
    requires Orderly(t, id)
    ensures var p := t.queue.players[id];
            NumberedFrom(Pending(t.queue.scheduled, id, Horizon(t)), |In(t.drained, id, p.epoch)|)
            && AllOf(Pending(t.queue.scheduled, id, Horizon(t)), id, p.epoch)
  {
    var epoch := t.queue.players[id].epoch;
    var a, d, w := In(t.accepted, id, epoch), In(t.drained, id, epoch), Pending(t.queue.scheduled, id, Horizon(t));
    InBelongs(t.accepted, id, epoch);
    forall i | 0 <= i < |w| ensures w[i].sequence == |d| + i && w[i].playerId == id && w[i].inputEpoch == epoch {
      assert a[|d| + i] == w[i];
    }
  }

  lemma NothingAfter<A>(s: Schedule<A>, frame: nat)
    requires Below(s, frame + 1)
    ensures After(s, frame) == map[]
  {
    assert forall f | f in s :: f < frame + 1;
  }

  /** A schedule splits into what is due and what stays. */
  lemma DueAndLater<A>(s: Schedule<A>, id: PlayerId, frame: nat, horizon: nat)
    requires Below(s, horizon)
    ensures Pending(s, id, frame + 1) + Pending(After(s, frame), id, horizon) == Pending(s, id, horizon)
  {
    if frame + 1 <= horizon {
      PendingSplits(s, id, frame + 1, horizon);
    } else {
      PendingBeyond(s, id, horizon, frame + 1);
      NothingAfter(s, frame);
      NothingPending<A>(id, horizon);
    }
  }

  lemma DueIsNumbered<A>(t: Trace<A>, id: PlayerId, frame: nat)
    requires Orderly(t, id)
    ensures NumberedFrom(Pending(t.queue.scheduled, id, frame + 1), |In(t.drained, id, t.queue.players[id].epoch)|)
    ensures AllOf(Pending(t.queue.scheduled, id, frame + 1), id, t.queue.players[id].epoch)
  {
    var due, w := Pending(t.queue.scheduled, id, frame + 1), Pending(t.queue.scheduled, id, Horizon(t));
    PendingIsNumbered(t, id);
    DueAndLater(t.queue.scheduled, id, frame, Horizon(t));
    assert forall i | 0 <= i < |due| :: due[i] == w[i];
  }

  /** What one drain hands out to a player: what was due, all in the current epoch. */
  lemma DrainHandsOutPending<A>(t: Trace<A>, id: PlayerId, frame: nat, epoch: nat)
    requires Orderly(t, id)
    ensures In(Drained(t.queue, frame).1, id, epoch)
         == if epoch == t.queue.players[id].epoch then Pending(t.queue.scheduled, id, frame + 1) else []
  {
    var s, now := t.queue.scheduled, t.queue.players[id].epoch;
    DueIsNumbered(t, id, frame);
    BatchesKeepPlayer(t.queue.order, s, id, frame + 1, |In(t.drained, id, now)|);
    CurrentIn(t.queue.players, Batches(t.queue.order, s, frame + 1), id, epoch);
    InIsOf(Batches(t.queue.order, s, frame + 1), id, now);
  }

  lemma {:induction false} CurrentNoneLater<A>(players: map<PlayerId, PlayerInput>, xs: seq<Input<A>>, id: PlayerId)
    requires id in players
    ensures NoneLater(Current(players, xs), id, players[id].epoch)
    decreases |xs|
  {
    if xs != [] {
      CurrentNoneLater(players, xs[..|xs| - 1], id);
    }
  }

  lemma DrainKeepsOrderly<A>(t: Trace<A>, id: PlayerId, frame: nat)
    requires Orderly(t, id)
    ensures Orderly(Take(t, Drain(frame)), id)
  {
    var s := t.queue.scheduled;
    var epoch := t.queue.players[id].epoch;
    DrainHandsOutPending(t, id, frame, epoch);
    DueAndLater(s, id, frame, Horizon(t));
    SettledKeepsCounters(t.queue.players, Batches(t.queue.order, s, frame + 1), t.queue.window.historySize);
    InAppend(t.drained, Drained(t.queue, frame).1, id, epoch);
    CurrentNoneLater(t.queue.players, Batches(t.queue.order, s, frame + 1), id);
    Assoc(In(t.drained, id, epoch), Pending(s, id, frame + 1), Pending(After(s, frame), id, Horizon(t)));
  }

  lemma NothingAccounted<A>(accepted: seq<Input<A>>, drained: seq<Input<A>>, pending: seq<Input<A>>)
    requires accepted == [] && drained == [] && pending == []
    ensures Accounted(accepted, drained, pending, 0)
  {
  }

  lemma ResetKeepsCurrentEpoch<A>(t: Trace<A>, id: PlayerId, gone: PlayerId)
    requires Orderly(t, id) && gone in t.queue.players
    ensures CurrentEpochOk(t.(queue := Reset(t.queue, gone)), id)
  {
    var epoch := t.queue.players[id].epoch;
    ResetPending(t.queue, gone, id, Horizon(t));
    if id == gone {
      NoneLaterIsEmpty(t.accepted, id, epoch, epoch + 1);
      NoneLaterIsEmpty(t.drained, id, epoch, epoch + 1);
      NothingAccounted(In(t.accepted, id, epoch + 1), In(t.drained, id, epoch + 1),
                       Pending(Reset(t.queue, gone).scheduled, id, Horizon(t)));
    }
  }

  lemma ResetKeepsOrderly<A>(t: Trace<A>, id: PlayerId, gone: PlayerId)
    requires Orderly(t, id) && gone in t.queue.players
    ensures Orderly(t.(queue := Reset(t.queue, gone)), id)
  {
    ResetKeepsCurrentEpoch(t, id, gone);
  }

  lemma {:induction false} RunsAreOrderly<A>(order: seq<PlayerId>, window: Window, ops: seq<Op<A>>, id: PlayerId)
    requires TwoPlayers(order) && id in order && NeverBack(ops)
    ensures Orderly(Run(order, window, ops), id)
    ensures Run(order, window, ops).clock == LastSubmit(ops)
    decreases |ops|
  {
    if ops == [] {
      NothingPending<A>(id, window.delay + 1);
    } else {
      var m := |ops| - 1;
      var t := Run(order, window, ops[..m]);
      RunsAreOrderly(order, window, ops[..m], id);
      match ops[m]
      case Submit(envelope, now) => SubmitKeepsOrderly(t, id, envelope, now);
      case Drain(frame) => DrainKeepsOrderly(t, id, frame);
      case ResetPlayer(gone) =>
        if gone in t.queue.players {
          ResetKeepsOrderly(t, id, gone);
        }
    }
  }

  lemma StepKeepsEpochs<A>(t: Trace<A>, id: PlayerId, op: Op<A>, epoch: nat)
    requires Orderly(t, id) && EpochOk(t, id, epoch) && Orderly(Take(t, op), id)
    ensures EpochOk(Take(t, op), id, epoch)
  {
    var u := Take(t, op);
    match op
    case Submit(envelope, now) =>
      if Answer(t.queue, envelope, now).None? {
        var x := Timed(envelope, now + t.queue.window.delay);
        InSnoc(t.accepted, x, id, epoch);
      }
    case Drain(frame) =>
      DrainHandsOutPending(t, id, frame, epoch);
      InAppend(t.drained, Drained(t.queue, frame).1, id, epoch);
      SettledKeepsCounters(t.queue.players, Batches(t.queue.order, t.queue.scheduled, frame + 1), t.queue.window.historySize);
    case ResetPlayer(_) =>
  }

  lemma {:induction false} EpochsAreOrderly<A>(order: seq<PlayerId>, window: Window, ops: seq<Op<A>>, id: PlayerId, epoch: nat)
    requires TwoPlayers(order) && id in order && NeverBack(ops)
    ensures EpochOk(Run(order, window, ops), id, epoch)
    decreases |ops|
  {
    if ops != [] {
      var m := |ops| - 1;
      EpochsAreOrderly(order, window, ops[..m], id, epoch);
      RunsAreOrderly(order, window, ops[..m], id);
      RunsAreOrderly(order, window, ops, id);
      StepKeepsEpochs(Run(order, window, ops[..m]), id, ops[m], epoch);
    }
  }

  /**
   Exactly-once input: whatever the interleaving of submissions, drains and resets, the inputs drained
   for a player within an epoch are its accepted inputs with sequences 0, 1, 2, … in order, each once;
   what the current epoch has accepted but not drained is still scheduled, and later epochs are empty.
   */
  lemma EachInputIsDrainedOnce<A>(order: seq<PlayerId>, window: Window, ops: seq<Op<A>>, id: PlayerId, epoch: nat)
    requires TwoPlayers(order) && id in order && NeverBack(ops)
    ensures var t := Run(order, window, ops);
            var drained, accepted := In(t.drained, id, epoch), In(t.accepted, id, epoch);
            && NumberedFrom(drained, 0) && drained <= accepted && NumberedFrom(accepted, 0)
            && id in t.queue.players
            && (epoch == t.queue.players[id].epoch ==>
                  accepted == drained + Pending(t.queue.scheduled, id, Horizon(t)) && |accepted| == t.queue.players[id].next)
            && (epoch > t.queue.players[id].epoch ==> accepted == [])
  {
    RunsAreOrderly(order, window, ops, id);
    EpochsAreOrderly(order, window, ops, id, epoch);
    var t := Run(order, window, ops);
    if epoch > t.queue.players[id].epoch {
      NoneLaterIsEmpty(t.accepted, id, t.queue.players[id].epoch, epoch);
    }
  }

  /** The number of a player's current epoch. */
  function EpochOf<A>(t: Trace<A>, id: PlayerId): nat {
    if id in t.queue.players then t.queue.players[id].epoch else 0
  }

  lemma StepKeepsOldEpoch<A>(t: Trace<A>, id: PlayerId, op: Op<A>, epoch: nat)
    requires Orderly(t, id) && epoch < EpochOf(t, id)
    ensures In(Take(t, op).drained, id, epoch) == In(t.drained, id, epoch) && epoch < EpochOf(Take(t, op), id)
  {
    match op
    case Submit(_, _) =>
    case Drain(frame) =>
      DrainHandsOutPending(t, id, frame, epoch);
      InAppend(t.drained, Drained(t.queue, frame).1, id, epoch);
      SettledKeepsCounters(t.queue.players, Batches(t.queue.order, t.queue.scheduled, frame + 1), t.queue.window.historySize);
    case ResetPlayer(_) =>
  }

  /** Once a player is reset, no later drain ever hands out an input of an older epoch. */
  lemma {:induction false} NoInputOutlivesItsEpoch<A>(
    order: seq<PlayerId>, window: Window, ops: seq<Op<A>>, more: seq<Op<A>>, id: PlayerId, epoch: nat)
    requires TwoPlayers(order) && id in order && NeverBack(ops + more)
    requires epoch < EpochOf(Run(order, window, ops), id)
    ensures In(Run(order, window, ops + more).drained, id, epoch) == In(Run(order, window, ops).drained, id, epoch)
    ensures EpochOf(Run(order, window, ops + more), id) > epoch
    decreases |more|
  {
    if more == [] {
      assert ops + more == ops;
    } else {
      var m := |more| - 1;
      assert (ops + more)[..|ops + more| - 1] == ops + more[..m];
      NoInputOutlivesItsEpoch(order, window, ops, more[..m], id, epoch);
      RunsAreOrderly(order, window, ops + more[..m], id);
      StepKeepsOldEpoch(Run(order, window, ops + more[..m]), id, more[m], epoch);
    }
  }

  /** Only the next sequence of the current epoch is ever scheduled: a retransmission changes nothing. */
  lemma RetransmissionChangesNothing<A>(q: Queue<A>, envelope: Envelope<A>, now: nat)
    ensures Enqueued(q, envelope, now).0 != q ==>
              && envelope.playerId in q.players && ValidEnvelope(envelope)
              && envelope.inputEpoch == q.players[envelope.playerId].epoch
              && envelope.sequence == q.players[envelope.playerId].next
              && q.players[envelope.playerId].next + 1 == Enqueued(q, envelope, now).0.players[envelope.playerId].next
  {
  }

  // ---------------------------------------------------------------- remembered answers

  lemma {:induction false} ForgetKeeps(history: seq<Disposition>, sequence: int, d: Disposition)
    requires d in Forget(history, sequence)
    ensures d in history && d.sequence != sequence
    decreases |history|
  {
    if d != history[|history| - 1] || history[|history| - 1].sequence == sequence {
      ForgetKeeps(history[..|history| - 1], sequence, d);
    }
  }

  lemma RememberKeeps(p: PlayerInput, d: Disposition, size: nat, e: Disposition)
    requires e in Remember(p, d, size).history
    ensures e == d || (e in p.history && e.sequence != d.sequence)
  {
    var all := Forget(p.history, d.sequence) + [d];
    assert e in all;
    if e != d {
      assert e in Forget(p.history, d.sequence);
      ForgetKeeps(p.history, d.sequence, e);
    }
  }

  lemma {:induction false} RecallIsRemembered(history: seq<Disposition>, sequence: int)
    requires Recall(history, sequence).Some?
    ensures Recall(history, sequence).value in history && Recall(history, sequence).value.sequence == sequence
    decreases |history|
  {
    if history[|history| - 1].sequence != sequence {
      RecallIsRemembered(history[..|history| - 1], sequence);
    }
  }

  /** What became of an input: applied once it has been handed out, scheduled until then. */
  function Fate<A>(x: Input<A>, applied: bool): Disposition {
    if applied then Applied(x.sequence, x.serverFrame) else Scheduled(x.sequence, x.serverFrame)
  }

  /** `d` is the true fate of one of the accepted inputs, of which the first `taken` were handed out. */
  predicate Truthful<A>(d: Disposition, accepted: seq<Input<A>>, taken: nat) {
    0 <= d.sequence < |accepted| && d == Fate(accepted[d.sequence], d.sequence < taken)
  }

  ghost predicate RemembersTruth<A>(t: Trace<A>, id: PlayerId)
    requires id in t.queue.players
  {
    var p := t.queue.players[id];
    AllTruthful(p.history, In(t.accepted, id, p.epoch), |In(t.drained, id, p.epoch)|)
  }

  predicate AllTruthful<A>(history: seq<Disposition>, accepted: seq<Input<A>>, taken: nat) {
    forall d | d in history :: Truthful(d, accepted, taken)
  }

  predicate AppliesOne<A>(xs: seq<Input<A>>, d: Disposition) {
    exists i :: 0 <= i < |xs| && xs[i].sequence == d.sequence && d == Applied(d.sequence, xs[i].serverFrame)
  }

  predicate AnswersNone<A>(xs: seq<Input<A>>, d: Disposition) { forall i | 0 <= i < |xs| :: xs[i].sequence != d.sequence }

  /** After settling a list, an answer is the application of one of its inputs or an older answer to none of them. */
  lemma {:induction false} SettledAnswers<A>(
    players: map<PlayerId, PlayerInput>, xs: seq<Input<A>>, size: nat, id: PlayerId, d: Disposition)
    requires id in players && id in Settled(players, xs, size) && d in Settled(players, xs, size)[id].history
    ensures || AppliesOne(In(xs, id, players[id].epoch), d)
            || (d in players[id].history && AnswersNone(In(xs, id, players[id].epoch), d))
    decreases |xs|
  {
    if xs != [] {
      var m := |xs| - 1;
      var epoch := players[id].epoch;
      SettledKeepsCounters(players, xs[..m], size);
      var before := Settled(players, xs[..m], size);
      var mine, mine' := In(xs, id, epoch), In(xs[..m], id, epoch);
      assert mine == mine' + (if xs[m].playerId == id && xs[m].inputEpoch == epoch then [xs[m]] else []);
      if xs[m].playerId == id && xs[m].inputEpoch == epoch {
        RememberKeeps(before[id], Applied(xs[m].sequence, xs[m].serverFrame), size, d);
        assert mine[|mine'|] == xs[m];
        if d == Applied(xs[m].sequence, xs[m].serverFrame) {
          return;
        }
        assert d.sequence != xs[m].sequence;
      }
      SettledAnswers(players, xs[..m], size, id, d);
      if AppliesOne(mine', d) {
        var i :| 0 <= i < |mine'| && mine'[i].sequence == d.sequence && d == Applied(d.sequence, mine'[i].serverFrame);
        assert mine[i] == mine'[i];
      }
    }
  }

  lemma AnswersStayTruthful<A>(accepted: seq<Input<A>>, drained: seq<Input<A>>, mine: seq<Input<A>>, d: Disposition)
    requires NumberedFrom(accepted, 0) && drained + mine <= accepted
    requires AppliesOne(mine, d) || (Truthful(d, accepted, |drained|) && AnswersNone(mine, d))
    ensures Truthful(d, accepted, |drained + mine|)
  {
    if AppliesOne(mine, d) {
      var i :| 0 <= i < |mine| && mine[i].sequence == d.sequence && d == Applied(d.sequence, mine[i].serverFrame);
      assert accepted[|drained| + i] == mine[i];
    } else if |drained| <= d.sequence {
      assert forall i | 0 <= i < |mine| :: accepted[|drained| + i] == mine[i];
    }
  }

  lemma DrainRemembersTruth<A>(t: Trace<A>, id: PlayerId, frame: nat)
    requires Orderly(t, id) && RemembersTruth(t, id) && Orderly(Take(t, Drain(frame)), id)
    ensures RemembersTruth(Take(t, Drain(frame)), id)
  {
    var u := Take(t, Drain(frame));
    var epoch := t.queue.players[id].epoch;
    var xs := Batches(t.queue.order, t.queue.scheduled, frame + 1);
    var mine := In(xs, id, epoch);
    var drained := In(t.drained, id, epoch);
    SettledKeepsCounters(t.queue.players, xs, t.queue.window.historySize);
    CurrentIn(t.queue.players, xs, id, epoch);
    InAppend(t.drained, Current(t.queue.players, xs), id, epoch);
    assert In(u.drained, id, epoch) == drained + mine;
    forall d | d in u.queue.players[id].history
      ensures Truthful(d, In(u.accepted, id, epoch), |drained + mine|)
    {
      SettledAnswers(t.queue.players, xs, t.queue.window.historySize, id, d);
      AnswersStayTruthful(In(t.accepted, id, epoch), drained, mine, d);
    }
  }

  lemma AcceptedAnswerIsTruthful<A>(p: PlayerInput, accepted: seq<Input<A>>, taken: nat, x: Input<A>, size: nat)
    requires AllTruthful(p.history, accepted, taken) && x.sequence == |accepted| && taken <= |accepted|
    ensures AllTruthful(Remember(p, Scheduled(x.sequence, x.serverFrame), size).history, accepted + [x], taken)
  {
    var d := Scheduled(x.sequence, x.serverFrame);
    forall e | e in Remember(p, d, size).history ensures Truthful(e, accepted + [x], taken) {
      RememberKeeps(p, d, size, e);
    }
  }

  lemma AcceptRemembersTruth<A>(t: Trace<A>, id: PlayerId, x: Input<A>, now: nat)
    requires Orderly(t, id) && RemembersTruth(t, id)
    requires x.playerId in t.queue.players && x.inputEpoch == t.queue.players[x.playerId].epoch
    requires x.sequence == t.queue.players[x.playerId].next
    ensures RemembersTruth(t.(queue := Accept(t.queue, x), accepted := t.accepted + [x], clock := now), id)
  {
    var p := t.queue.players[id];
    InSnoc(t.accepted, x, id, p.epoch);
    if x.playerId == id {
      AcceptedAnswerIsTruthful(p.(next := p.next + 1), In(t.accepted, id, p.epoch), |In(t.drained, id, p.epoch)|, x,
                               t.queue.window.historySize);
    }
  }

  lemma StepRemembersTruth<A>(t: Trace<A>, id: PlayerId, op: Op<A>)
    requires Orderly(t, id) && RemembersTruth(t, id) && Orderly(Take(t, op), id)
    ensures RemembersTruth(Take(t, op), id)
  {
    match op
    case Submit(envelope, now) =>
      if Answer(t.queue, envelope, now).None? {
        AcceptRemembersTruth(t, id, Timed(envelope, now + t.queue.window.delay), now);
      } else {
        assert Take(t, op) == t.(clock := now);
      }
    case Drain(frame) => DrainRemembersTruth(t, id, frame);
    case ResetPlayer(_) =>
  }

  lemma {:induction false} RunsRememberTruth<A>(order: seq<PlayerId>, window: Window, ops: seq<Op<A>>, id: PlayerId)
    requires TwoPlayers(order) && id in order && NeverBack(ops)
    ensures id in Run(order, window, ops).queue.players && RemembersTruth(Run(order, window, ops), id)
    decreases |ops|
  {
    if ops != [] {
      var m := |ops| - 1;
      RunsRememberTruth(order, window, ops[..m], id);
      RunsAreOrderly(order, window, ops[..m], id);
      RunsAreOrderly(order, window, ops, id);
      StepRemembersTruth(Run(order, window, ops[..m]), id, ops[m]);
    }
  }

  lemma {:induction false} RecallFindsWhatIsThere(history: seq<Disposition>, sequence: int)
    ensures Recall(history, sequence).None? <==> forall d | d in history :: d.sequence != sequence
    decreases |history|
  {
    if history != [] {
      var rest, last := history[..|history| - 1], history[|history| - 1];
      RecallFindsWhatIsThere(rest, sequence);
      assert history == rest + [last];
    }
  }

  /**
   A retransmission is never scheduled again, and is answered with the truth: where its input is
   scheduled if no drain has handed it out yet, where it was applied once one has, or only that it is late, and that
   exactly when its answer is no longer among the newest ones kept.
   */
  lemma RetransmissionsAreAnsweredTruthfully<A>(
    order: seq<PlayerId>, window: Window, ops: seq<Op<A>>, envelope: Envelope<A>, now: nat)
    requires TwoPlayers(order) && envelope.playerId in order && NeverBack(ops) && ValidEnvelope(envelope)
    requires var p := PlayerOf(Run(order, window, ops), envelope.playerId);
             envelope.inputEpoch == p.epoch && envelope.sequence < p.next
    ensures var t := Run(order, window, ops);
            && Enqueued(t.queue, envelope, now).0 == t.queue
            && (Enqueued(t.queue, envelope, now).1 == Rejected(envelope.sequence, Late)
                || Truthful(Enqueued(t.queue, envelope, now).1, In(t.accepted, envelope.playerId, envelope.inputEpoch),
                            |In(t.drained, envelope.playerId, envelope.inputEpoch)|))
            && (Enqueued(t.queue, envelope, now).1.sequence == envelope.sequence)
            && (Enqueued(t.queue, envelope, now).1 == Rejected(envelope.sequence, Late) <==>
                forall d | d in PlayerOf(t, envelope.playerId).history :: d.sequence != envelope.sequence)
  {
    var t := Run(order, window, ops);
    var id := envelope.playerId;
    RunsRememberTruth(order, window, ops, id);
    RunsAreOrderly(order, window, ops, id);
    RecallFindsWhatIsThere(t.queue.players[id].history, envelope.sequence);
    if Recall(t.queue.players[id].history, envelope.sequence).Some? {
      RecallIsRemembered(t.queue.players[id].history, envelope.sequence);
    }
  }

  function PlayerOf<A>(t: Trace<A>, id: PlayerId): PlayerInput {
    if id in t.queue.players then t.queue.players[id] else PlayerInput(0, 0, [])
  }
}

/** The queue as the object it is, with its maps changed in place. */
module MatchInputQueues {
  import opened Wrappers
  import opened InputQueues
  import opened InputQueueLaws

  function BatchesOf<A>(order: seq<PlayerId>, s: Schedule<A>, frames: seq<nat>): seq<Input<A>> {
    if frames == [] then []
    else BatchesOf(order, s, frames[..|frames| - 1]) + Sorted(order, Inputs(s, frames[|frames| - 1]))
  }

  lemma {:induction false} DueFramesAreDue<A>(s: Schedule<A>, bound: nat)
    ensures forall f: nat :: f in DueFrames(s, bound) <==> f in s && f < bound
    ensures forall i, j | 0 <= i < j < |DueFrames(s, bound)| :: DueFrames(s, bound)[i] < DueFrames(s, bound)[j]
  {
    if bound > 0 {
      DueFramesAreDue(s, bound - 1);
      var before := DueFrames(s, bound - 1);
      forall i | 0 <= i < |before| ensures before[i] < bound - 1 {
        assert before[i] in before;
      }
    }
  }

  lemma {:induction false} DueFramesMakeTheBatches<A>(order: seq<PlayerId>, s: Schedule<A>, bound: nat)
    ensures BatchesOf(order, s, DueFrames(s, bound)) == Batches(order, s, bound)
  {
    if bound > 0 {
      DueFramesMakeTheBatches(order, s, bound - 1);
      var before := DueFrames(s, bound - 1);
      if bound - 1 in s {
        assert (before + [bound - 1])[..|before|] == before;
      } else {
        assert before + [] == before;
        assert Batches(order, s, bound) == Batches(order, s, bound - 1) + [];
      }
    }
  }

  function Except<A>(s: Schedule<A>, frames: seq<nat>): Schedule<A> { map f | f in s && f !in frames :: s[f] }

  lemma ExceptDueIsAfter<A>(s: Schedule<A>, frame: nat)
    ensures Except(s, DueFrames(s, frame + 1)) == After(s, frame)
  {
    DueFramesAreDue(s, frame + 1);
  }

  lemma ExceptOneMore<A>(s: Schedule<A>, frames: seq<nat>, f: nat)
    ensures Except(s, frames + [f]) == Except(s, frames) - {f}
  {
  }

  /** Drops the oldest answers beyond the limit. */
  method Evict(all: seq<Disposition>, size: nat) returns (history: seq<Disposition>)
    ensures history == Newest(all, size)
  {
    history := all;
    while |history| > size
      invariant |history| <= |all| && (|history| >= size || history == all)
      invariant history == all[|all| - |history|..]
    {
      history := history[1..];
    }
  }

  class MatchInputQueue<A> {
    const order: seq<PlayerId>
    const window: Window
    var players: map<PlayerId, PlayerInput>
    var scheduled: Schedule<A>

    function View(): Queue<A>
      reads this
    {
      Queue(order, window, players, scheduled)
    }

    constructor (order: seq<PlayerId>, window: Window)
      requires TwoPlayers(order) && window.historySize >= 1
      ensures View() == NewQueue(order, window)
    {
      this.order, this.window := order, window;
      var starting := PlayerInput(0, 0, []);
      players := map[order[0] := starting, order[1] := starting];
      scheduled := map[];
    }

    /** Moves an answer to the end of a player's history and drops the oldest beyond the limit. */
    method Note(id: PlayerId, d: Disposition)
      requires id in players
      modifies this`players
      ensures players == old(players)[id := Remember(old(players)[id], d, window.historySize)]
    {
      var history := Evict(Forget(players[id].history, d.sequence) + [d], window.historySize);
      players := players[id := players[id].(history := history)];
    }

    method Enqueue(input: Envelope<A>, now: nat) returns (d: Disposition)
      modifies this
      ensures (View(), d) == Enqueued(old(View()), input, now)
    {
      if input.playerId !in players {
        return Rejected(input.sequence, UnknownPlayer);
      }
      if !ValidEnvelope(input) {
        return Rejected(input.sequence, Invalid);
      }
      var player := players[input.playerId];
      if input.inputEpoch != player.epoch {
        return Rejected(input.sequence, WrongEpoch);
      }
      if input.sequence < player.next {
        return Recall(player.history, input.sequence).GetOr(Rejected(input.sequence, Late));
      }
      if input.sequence > player.next {
        return Rejected(input.sequence, Gap);
      }
      if input.clientFrame < now - window.lag {
        return Rejected(input.sequence, Late);
      }
      if input.clientFrame > now + window.lead {
        return Rejected(input.sequence, TooFarFuture);
      }
      var serverFrame := now + window.delay;
      d := Scheduled(input.sequence, serverFrame);
      scheduled := scheduled[serverFrame := Inputs(scheduled, serverFrame) + [Timed(input, serverFrame)]];
      ghost var before := players;
      players := players[input.playerId := player.(next := player.next + 1)];
      Note(input.playerId, d);
      assert players == before[input.playerId := players[input.playerId]];
    }

    /** The frames taken so far have been handed out and deleted. */
    ghost predicate HandedOut(
      p0: map<PlayerId, PlayerInput>, s0: Schedule<A>, frames: seq<nat>, drained: seq<Input<A>>)
      reads this
    {
      && players == Settled(p0, BatchesOf(order, s0, frames), window.historySize)
      && drained == Current(p0, BatchesOf(order, s0, frames))
      && scheduled == Except(s0, frames)
    }

    method Drain(frame: nat) returns (drained: seq<Input<A>>)
      modifies this
      ensures (View(), drained) == Drained(old(View()), frame)
    {
      ghost var p0, s0 := players, scheduled;
      var due := DueFrames(scheduled, frame + 1);
      DueFramesAreDue(s0, frame + 1);
      drained := [];
      assert Except(s0, []) == s0;
      for k := 0 to |due|
        invariant HandedOut(p0, s0, due[..k], drained)
      {
        assert due[k] in due && due[k] !in due[..k];
        drained := HandOut(due[k], drained, p0, s0, due[..k]);
        assert due[..k + 1] == due[..k] + [due[k]];
      }
      assert due[..|due|] == due;
      DueFramesMakeTheBatches(order, s0, frame + 1);
      ExceptDueIsAfter(s0, frame);
    }

    /** Takes one due frame off the schedule and hands out its inputs in order. */
    method HandOut(
      f: nat, before: seq<Input<A>>, ghost p0: map<PlayerId, PlayerInput>, ghost s0: Schedule<A>, ghost frames: seq<nat>)
      returns (drained: seq<Input<A>>)
      requires HandedOut(p0, s0, frames, before) && f in s0 && f !in frames
      modifies this
      ensures HandedOut(p0, s0, frames + [f], drained)
    {
      var inputs := Sorted(order, scheduled[f]);
      ExceptOneMore(s0, frames, f);
      assert (frames + [f])[..|frames|] == frames;
      scheduled := scheduled - {f};
      drained := DrainFrame(inputs, before, p0, BatchesOf(order, s0, frames));
    }

    /** Hands out one frame's inputs, skipping those of an older epoch. */
    method DrainFrame(
      inputs: seq<Input<A>>, before: seq<Input<A>>, ghost p0: map<PlayerId, PlayerInput>, ghost done: seq<Input<A>>)
      returns (drained: seq<Input<A>>)
      requires players == Settled(p0, done, window.historySize) && before == Current(p0, done)
      modifies this`players
      ensures players == Settled(p0, done + inputs, window.historySize)
      ensures drained == Current(p0, done + inputs)
    {
      drained := before;
      assert done + inputs[..0] == done;
      for j := 0 to |inputs|
        invariant players == Settled(p0, done + inputs[..j], window.historySize)
        invariant drained == Current(p0, done + inputs[..j])
      {
        assert (done + inputs[..j + 1])[..|done| + j] == done + inputs[..j];
        SettledKeepsCounters(p0, done + inputs[..j], window.historySize);
        var input := inputs[j];
        if input.playerId in players && players[input.playerId].epoch == input.inputEpoch {
          Note(input.playerId, Applied(input.sequence, input.serverFrame));
          drained := drained + [input];
        }
      }
      assert inputs[..|inputs|] == inputs;
    }

    method ResetPlayer(id: PlayerId) returns (epoch: nat)
      requires id in players
      modifies this
      ensures View() == Reset(old(View()), id)
      ensures epoch == players[id].epoch
    {
      epoch := players[id].epoch + 1;
      players := players[id := PlayerInput(epoch, 0, [])];
      scheduled := map f | f in scheduled && Without(scheduled[f], id) != [] :: Without(scheduled[f], id);
    }
  }
}

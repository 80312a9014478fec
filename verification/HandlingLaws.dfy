/**
 Laws of the key handling: coalescing loses nothing, splitting the time changes nothing below the
 emission limit, and the held-key book-keeping is exact after every sequence of calls.
 */
module HandlingLaws {
  import opened Wrappers
  import opened Handling

  // ---------------------------------------------------------------- coalescing

  lemma {:induction false} CellsAdd(m: nat, n: nat)
    ensures Cells(m + n) == Cells(m) + Cells(n)
    decreases n
  {
    if n > 0 {
      CellsAdd(m, n - 1);
    }
  }

  lemma ExpandNothing()
    ensures Expand([]) == []
  {
  }

  lemma ExpandLast(output: seq<Expanded>, a: Expanded)
    ensures Expand(output + [a]) == Expand(output) + Unit(a)
  {
    assert (output + [a])[..|output|] == output;
  }

  lemma OneCell()
    ensures Cells(1) == [SoftDropCells(1)]
  {
    assert Cells(0) == [];
  }

  lemma JoiningExpands(front: seq<Expanded>, k: nat)
    ensures Expand(front + [SoftDropCells(k + 1)]) == Expand(front + [SoftDropCells(k)]) + [SoftDropCells(1)]
  {
    hide Expand, Cells;
    ExpandLast(front, SoftDropCells(k));
    ExpandLast(front, SoftDropCells(k + 1));
    OneCell();
    CellsAdd(k, 1);
    assert Expand(front) + (Cells(k) + [SoftDropCells(1)]) == (Expand(front) + Cells(k)) + [SoftDropCells(1)];
  }

  lemma AppendingExpands(output: seq<Expanded>, a: Expanded)
    requires Single(a) && Chunked(output)
    ensures Expand(Append(output, a)) == Expand(output) + [a]
    ensures Chunked(Append(output, a))
  {
    hide Expand, Cells;
    var n := |output| - 1;
    if a.SoftDropCells? && n >= 0 && output[n].SoftDropCells? && output[n].cells + a.cells <= MAX_CELLS {
      assert output == output[..n] + [SoftDropCells(output[n].cells)];
      JoiningExpands(output[..n], output[n].cells);
    } else {
      ExpandLast(output, a);
      OneCell();
    }
  }

  /** The caller receives every soft drop cell and every other action, in order, in pieces of 1 to 40 cells. */
  lemma {:induction false} CoalescingLosesNothing(actions: seq<Expanded>)
    requires AllSingle(actions)
    ensures Expand(Coalesced(actions)) == actions
    ensures Chunked(Coalesced(actions))
    decreases |actions|
  {
    hide Expand, Unit, Append;
    if actions == [] {
      ExpandNothing();
    } else {
      var n := |actions| - 1;
      CoalescingLosesNothing(actions[..n]);
      AppendingExpands(Coalesced(actions[..n]), actions[n]);
      assert actions == actions[..n] + [actions[n]];
    }
  }

  lemma {:induction false} ExpandConcatenates(a: seq<Expanded>, b: seq<Expanded>)
    ensures Expand(a + b) == Expand(a) + Expand(b)
    decreases |b|
  {
    hide Expand, Unit;
    if b == [] {
      assert a + b == a;
      assert Expand(b) == [] by { ExpandNothing(); }
    } else {
      var n := |b| - 1;
      var front, last := b[..n], b[n];
      assert b == front + [last] && a + b == (a + front) + [last];
      ExpandConcatenates(a, front);
      ExpandLast(front, last);
      ExpandLast(a + front, last);
      assert (Expand(a) + Expand(front)) + Unit(last) == Expand(a) + (Expand(front) + Unit(last));
    }
  }

  // ---------------------------------------------------------------- time splitting

  lemma TicksCount(c: Config, e: Engine)
    requires Earliest(e.nextH, e.nextS).Some?
    ensures 1 <= TickCount(e) <= 2
    ensures AllSingle(TickActions(c, e))
  {
  }

  lemma DrainUnfolds(c: Config, e: Engine, to: real, emitted: nat)
    requires emitted < MAX_EMISSIONS && Due(Earliest(e.nextH, e.nextS), to)
    ensures var rest := Drain(c, Tick(c, e), to, emitted + TickCount(e));
            Drain(c, e, to, emitted) == Drained(rest.engine, TickActions(c, e) + rest.actions, rest.emitted)
  {
  }

  lemma {:induction false} DrainIsSingle(c: Config, e: Engine, to: real, emitted: nat)
    ensures AllSingle(Drain(c, e, to, emitted).actions)
    ensures emitted <= Drain(c, e, to, emitted).emitted
    ensures emitted <= MAX_EMISSIONS + 1 ==> Drain(c, e, to, emitted).emitted <= MAX_EMISSIONS + 1
    decreases MAX_EMISSIONS - emitted
  {
    hide Tick, TickCount, TickActions;
    if emitted < MAX_EMISSIONS && Due(Earliest(e.nextH, e.nextS), to) {
      TicksCount(c, e);
      DrainIsSingle(c, Tick(c, e), to, emitted + TickCount(e));
    }
  }

  lemma DrainStops(c: Config, e: Engine, to: real, emitted: nat)
    requires emitted >= MAX_EMISSIONS || !Due(Earliest(e.nextH, e.nextS), to)
    ensures Drain(c, e, to, emitted) == Drained(e, [], emitted)
  {
  }

  /** Draining up to an earlier time first reaches the same point by the same actions. */
  lemma {:induction false} DrainSplits(c: Config, e: Engine, t1: real, t2: real, emitted: nat)
    requires t1 <= t2 && Drain(c, e, t2, emitted).emitted < MAX_EMISSIONS
    ensures var whole, first := Drain(c, e, t2, emitted), Drain(c, e, t1, emitted);
            var second := Drain(c, first.engine, t2, first.emitted);
            && second.engine == whole.engine && second.emitted == whole.emitted
            && first.actions + second.actions == whole.actions
    decreases MAX_EMISSIONS - emitted
  {
    hide Tick, TickCount, TickActions, Drain;
    if emitted < MAX_EMISSIONS && Due(Earliest(e.nextH, e.nextS), t1) {
      var ticked, count := Tick(c, e), emitted + TickCount(e);
      TicksCount(c, e);
      DrainUnfolds(c, e, t1, emitted);
      DrainUnfolds(c, e, t2, emitted);
      DrainSplits(c, ticked, t1, t2, count);
      var first := Drain(c, ticked, t1, count);
      var second := Drain(c, first.engine, t2, first.emitted);
      assert TickActions(c, e) + (first.actions + second.actions) == (TickActions(c, e) + first.actions) + second.actions;
    } else {
      DrainStops(c, e, t1, emitted);
      assert [] + Drain(c, e, t2, emitted).actions == Drain(c, e, t2, emitted).actions;
    }
  }

  /** Below the limit neither the count so far nor the clock matters to what fires. */
  lemma {:induction false} DrainFromZero(c: Config, e: Engine, now: real, to: real, fewer: nat, emitted: nat)
    requires fewer <= emitted && Drain(c, e, to, emitted).emitted < MAX_EMISSIONS
    ensures var d, z := Drain(c, e, to, emitted), Drain(c, e.(now := now), to, fewer);
            && z.engine.(now := to) == d.engine.(now := to) && z.actions == d.actions
            && z.emitted == d.emitted - (emitted - fewer)
    decreases MAX_EMISSIONS - emitted
  {
    if emitted < MAX_EMISSIONS && Due(Earliest(e.nextH, e.nextS), to) {
      TicksCount(c, e);
      DrainFromZero(c, Tick(c, e), Tick(c, e).now, to, fewer + TickCount(e), emitted + TickCount(e));
      assert Tick(c, e.(now := now)) == Tick(c, e);
      assert Tick(c, e).(now := Tick(c, e).now) == Tick(c, e);
    }
  }

  predicate WithinLimit(c: Config, e: Engine, to: real) { Drain(c, e, to, 0).emitted < MAX_EMISSIONS }

  /** An extra advance on the way changes neither the engine reached nor the actions produced. */
  lemma AdvancesSplit(c: Config, e: Engine, t1: real, t2: real)
    requires t1 <= t2 && WithinLimit(c, e, t2)
    ensures var first := AdvanceTo(c, e, t1);
            var second := AdvanceTo(c, first.engine, t2);
            && second.engine == AdvanceTo(c, e, t2).engine
            && first.actions + second.actions == AdvanceTo(c, e, t2).actions
            && WithinLimit(c, first.engine, t2)
  {
    DrainSplits(c, e, t1, t2, 0);
    var first := Drain(c, e, t1, 0);
    DrainIsSingle(c, first.engine, t2, first.emitted);
    DrainFromZero(c, first.engine, t1, t2, 0, first.emitted);
  }

  /**
   Time splitting: below the emission limit, whatever the repeat rate, the soft drop factor and the
   priority, advancing in two steps reaches the same engine, and the two outputs hold the same
   actions once their coalesced soft drops are expanded.
   */
  lemma TimeSplitting(c: Config, e: Engine, t1: real, t2: real)
    requires Forward(e, t1) && t1 <= t2 && WithinLimit(c, e, t2)
    ensures var first := Advance(c, e, t1).value;
            && Advance(c, first.engine, t2).Some?
            && var second, whole := Advance(c, first.engine, t2).value, Advance(c, e, t2).value;
            && second.engine == whole.engine
            && Expand(Coalesced(first.actions) + Coalesced(second.actions)) == Expand(Coalesced(whole.actions))
  {
    AdvancesSplit(c, e, t1, t2);
    var first := AdvanceTo(c, e, t1);
    DrainIsSingle(c, e, t1, 0);
    DrainIsSingle(c, first.engine, t2, 0);
    DrainIsSingle(c, e, t2, 0);
    SplitOutputsExpand(first.actions, AdvanceTo(c, first.engine, t2).actions, AdvanceTo(c, e, t2).actions);
  }

  lemma SplitOutputsExpand(first: seq<Expanded>, second: seq<Expanded>, whole: seq<Expanded>)
    requires AllSingle(first) && AllSingle(second) && AllSingle(whole) && first + second == whole
    ensures Expand(Coalesced(first) + Coalesced(second)) == Expand(Coalesced(whole))
  {
    hide Expand, Coalesced;
    CoalescingLosesNothing(first);
    CoalescingLosesNothing(second);
    CoalescingLosesNothing(whole);
    ExpandConcatenates(Coalesced(first), Coalesced(second));
  }

  // ---------------------------------------------------------------- polling around key events

  function After(pre: seq<Expanded>, o: Outcome): Outcome { Outcome(o.engine, pre + o.actions) }

  lemma SelectingAppends(c: Config, pre: seq<Expanded>, o: Outcome, direction: Option<Direction>)
    ensures SelectDirection(c, After(pre, o), direction) == After(pre, SelectDirection(c, o, direction))
  {
  }

  lemma RotatingAppends(c: Config, pre: seq<Expanded>, o: Outcome, turn: Turn)
    ensures Rotated(c, After(pre, o), turn) == After(pre, Rotated(c, o, turn))
  {
    assert pre + (o.actions + [Rotate(turn)]) == (pre + o.actions) + [Rotate(turn)];
  }

  lemma ActingAppends(c: Config, pre: seq<Expanded>, o: Outcome, a: ActionName)
    ensures PressAction(c, After(pre, o), a) == After(pre, PressAction(c, o, a))
  {
    hide Rotated;
    match a
    case RotateCW => RotatingAppends(c, pre, o, Clockwise);
    case RotateCCW => RotatingAppends(c, pre, o, Counterclockwise);
    case Rotate180 => RotatingAppends(c, pre, o, HalfTurn);
    case _ =>
  }

  lemma PressingOneAppends(c: Config, pre: seq<Expanded>, o: Outcome, code: Code, a: ActionName)
    ensures PressOne(c, After(pre, o), code, a) == After(pre, PressOne(c, o, code, a))
  {
    hide SelectDirection, PressAction;
    var e := o.engine.(held := o.engine.held[a := CountOf(o.engine.held, a) + 1]);
    ActingAppends(c, pre, o.(engine := e), a);
    if DirectionOf(a).Some? {
      var d := DirectionOf(a);
      SelectingAppends(c, pre, o.(engine := e.(order := o.engine.order + [Press(code, d.value)])), d);
    }
  }

  lemma {:induction false} PressingAppends(c: Config, pre: seq<Expanded>, o: Outcome, code: Code, actions: seq<ActionName>)
    ensures PressAll(c, After(pre, o), code, actions) == After(pre, PressAll(c, o, code, actions))
    decreases |actions|
  {
    if actions != [] {
      PressingOneAppends(c, pre, o, code, actions[0]);
      PressingAppends(c, pre, PressOne(c, o, code, actions[0]), code, actions[1..]);
    }
  }

  /** Polling just before a key goes down or up is invisible. */
  lemma PollingBeforeKeysIsInvisible(c: Config, e: Engine, code: Code, repeated: bool, t1: real, t2: real)
    requires Forward(e, t1) && t1 <= t2 && WithinLimit(c, e, t2)
    ensures var polled := Advance(c, e, t1).value;
            && KeyDown(c, polled.engine, code, repeated, t2).Some?
            && KeyUp(c, polled.engine, code, t2).Some?
            && After(polled.actions, KeyDown(c, polled.engine, code, repeated, t2).value)
               == KeyDown(c, e, code, repeated, t2).value
            && After(polled.actions, KeyUp(c, polled.engine, code, t2).value) == KeyUp(c, e, code, t2).value
  {
    AdvancesSplit(c, e, t1, t2);
    var polled := AdvanceTo(c, e, t1);
    var o := AdvanceTo(c, polled.engine, t2);
    assert AdvanceTo(c, e, t2) == After(polled.actions, o);
    PressingAppends(c, polled.actions, o.(engine := o.engine.(pressed := o.engine.pressed + {code})), code, Bound(c, code));
    var released := o.(engine := Released(o.engine, code, Bound(c, code)));
    SelectingAppends(c, polled.actions, released, Newest(released.engine.order));
  }

  // ---------------------------------------------------------------- consistency

  function Occurrences(actions: seq<ActionName>, a: ActionName): nat
    decreases |actions|
  {
    if actions == [] then 0 else (if actions[0] == a then 1 else 0) + Occurrences(actions[1..], a)
  }

  ghost function Chosen(pressed: set<Code>): Code
    requires pressed != {}
  {
    var code :| code in pressed;
    code
  }

  /** How often an action is bound to the keys that are down. */
  ghost function HeldBy(c: Config, pressed: set<Code>, a: ActionName): nat
    decreases |pressed|
  {
    if pressed == {} then 0
    else
      var code := Chosen(pressed);
      Occurrences(Bound(c, code), a) + HeldBy(c, pressed - {code}, a)
  }

  lemma {:induction false} HeldBySplits(c: Config, pressed: set<Code>, code: Code, a: ActionName)
    requires code in pressed
    ensures HeldBy(c, pressed, a) == Occurrences(Bound(c, code), a) + HeldBy(c, pressed - {code}, a)
    decreases |pressed|
  {
    var first := Chosen(pressed);
    if first != code {
      HeldBySplits(c, pressed - {first}, code, a);
      HeldBySplits(c, pressed - {code}, first, a);
      assert pressed - {first} - {code} == pressed - {code} - {first};
    }
  }

  /** Timers run only for what is held, the soft drop timer exactly while a timed soft drop is held. */
  predicate TimersOk(c: Config, e: Engine) {
    && (e.active.None? ==> e.nextH.None? && !e.charged)
    && (e.nextS.Some? <==> SoftDrop in e.held && c.factor.EveryMs?)
  }

  ghost predicate Positive(held: map<ActionName, nat>) { forall a | a in held :: held[a] > 0 }

  ghost predicate PositiveCounts(e: Engine) { Positive(e.held) }

  /** Held counts are those of the pressed keys, apart from bindings still to be processed. */
  ghost predicate CountsOk(c: Config, e: Engine, coming: seq<ActionName>, leaving: seq<ActionName>) {
    forall a :: CountOf(e.held, a) + Occurrences(coming, a) == HeldBy(c, e.pressed, a) + Occurrences(leaving, a)
  }

  function ActionFor(d: Direction): ActionName { if d.Left? then MoveLeft else MoveRight }

  function PressCount(order: seq<Press>, p: Press): nat
    decreases |order|
  {
    if order == [] then 0
    else PressCount(order[..|order| - 1], p) + (if order[|order| - 1] == p then 1 else 0)
  }

  function BoundPresses(c: Config, pressed: set<Code>, p: Press): nat {
    if p.code in pressed then Occurrences(Bound(c, p.code), ActionFor(p.direction)) else 0
  }

  ghost predicate PressesOk(c: Config, e: Engine, code: Code, coming: seq<ActionName>, leaving: seq<ActionName>) {
    forall p: Press ::
      PressCount(e.order, p) + (if p.code == code then Occurrences(coming, ActionFor(p.direction)) else 0)
      == BoundPresses(c, e.pressed, p) + (if p.code == code then Occurrences(leaving, ActionFor(p.direction)) else 0)
  }

  /**
   The book-keeping of held keys: an action is held as often as pressed keys are bound to it, the
   recorded direction presses are those of pressed keys, and the active direction is the newest.
   */
  ghost predicate Consistent(c: Config, e: Engine) {
    && TimersOk(c, e)
    && PositiveCounts(e)
    && CountsOk(c, e, [], [])
    && PressesOk(c, e, 0, [], [])
    && e.active == Newest(e.order)
  }

  /** What a clock change leaves alone. */
  predicate SameKeys(e: Engine, f: Engine) {
    e.pressed == f.pressed && e.held == f.held && e.order == f.order && e.active == f.active
  }

  lemma KeysDecide(c: Config, e: Engine, f: Engine, code: Code, coming: seq<ActionName>, leaving: seq<ActionName>)
    requires e.pressed == f.pressed && e.held == f.held && e.order == f.order
    ensures PositiveCounts(e) <==> PositiveCounts(f)
    ensures CountsOk(c, e, coming, leaving) <==> CountsOk(c, f, coming, leaving)
    ensures PressesOk(c, e, code, coming, leaving) <==> PressesOk(c, f, code, coming, leaving)
  {
  }

  lemma {:induction false} DrainKeepsKeys(c: Config, e: Engine, to: real, emitted: nat)
    requires TimersOk(c, e)
    ensures var d := Drain(c, e, to, emitted).engine;
            SameKeys(e, d) && TimersOk(c, d) && (e.charged ==> d.charged) && e.blockedUntil == d.blockedUntil
    decreases MAX_EMISSIONS - emitted
  {
    if emitted < MAX_EMISSIONS && Due(Earliest(e.nextH, e.nextS), to) {
      TicksCount(c, e);
      DrainKeepsKeys(c, Tick(c, e), to, emitted + TickCount(e));
    }
  }

  lemma AdvancingStaysConsistent(c: Config, e: Engine, to: real)
    requires Consistent(c, e)
    ensures Consistent(c, AdvanceTo(c, e, to).engine) && SameKeys(e, AdvanceTo(c, e, to).engine)
  {
    DrainKeepsKeys(c, e, to, 0);
    KeysDecide(c, e, AdvanceTo(c, e, to).engine, 0, [], []);
  }

  lemma SelectingKeepsTimers(c: Config, o: Outcome, direction: Option<Direction>)
    requires TimersOk(c, o.engine)
    ensures var e, f := o.engine, SelectDirection(c, o, direction).engine;
            && f.active == direction && TimersOk(c, f)
            && f.pressed == e.pressed && f.held == e.held && f.order == e.order
  {
  }

  predicate TimersOkBut(c: Config, e: Engine, a: ActionName) {
    && (e.active.None? ==> e.nextH.None? && !e.charged)
    && (a != SoftDrop ==> (e.nextS.Some? <==> SoftDrop in e.held && c.factor.EveryMs?))
  }

  lemma RotatingKeepsTimers(c: Config, o: Outcome, turn: Turn)
    requires TimersOk(c, o.engine)
    ensures SameKeys(o.engine, Rotated(c, o, turn).engine) && TimersOk(c, Rotated(c, o, turn).engine)
  {
  }

  lemma PressActionKeepsTimers(c: Config, o: Outcome, a: ActionName)
    requires TimersOkBut(c, o.engine, a) && a in o.engine.held && DirectionOf(a).None?
    ensures SameKeys(o.engine, PressAction(c, o, a).engine) && TimersOk(c, PressAction(c, o, a).engine)
  {
    hide Rotated;
    match a
    case RotateCW => RotatingKeepsTimers(c, o, Clockwise);
    case RotateCCW => RotatingKeepsTimers(c, o, Counterclockwise);
    case Rotate180 => RotatingKeepsTimers(c, o, HalfTurn);
    case _ =>
  }

  predicate Turning(c: Config, e: Engine) { TimersOk(c, e) && e.active == Newest(e.order) }

  lemma PressingADirection(c: Config, o: Outcome, code: Code, a: ActionName)
    requires Turning(c, o.engine) && DirectionOf(a).Some?
    ensures var e, f := o.engine, PressOne(c, o, code, a).engine;
            && Turning(c, f) && f.pressed == e.pressed
            && f.held == e.held[a := CountOf(e.held, a) + 1]
            && f.order == e.order + [Press(code, DirectionOf(a).value)]
  {
    hide SelectDirection;
    var e := o.engine;
    var d := DirectionOf(a).value;
    var ordered := o.(engine := e.(held := e.held[a := CountOf(e.held, a) + 1], order := e.order + [Press(code, d)]));
    assert Newest(ordered.engine.order) == Some(d);
    SelectingKeepsTimers(c, ordered, Some(d));
  }

  lemma PressingAnAction(c: Config, o: Outcome, code: Code, a: ActionName)
    requires Turning(c, o.engine) && PositiveCounts(o.engine) && DirectionOf(a).None?
    ensures var e, f := o.engine, PressOne(c, o, code, a).engine;
            && Turning(c, f) && f.pressed == e.pressed
            && f.held == e.held[a := CountOf(e.held, a) + 1]
            && f.order == e.order
  {
    hide PressAction, Newest;
    var e := o.engine;
    var counted := o.(engine := e.(held := e.held[a := CountOf(e.held, a) + 1]));
    if CountOf(e.held, a) == 0 {
      PressActionKeepsTimers(c, counted, a);
    }
  }

  lemma PressingOneCounts(c: Config, e: Engine, f: Engine, code: Code, a: ActionName, rest: seq<ActionName>)
    requires PositiveCounts(e) && CountsOk(c, e, [a] + rest, []) && PressesOk(c, e, code, [a] + rest, [])
    requires f.pressed == e.pressed && f.held == e.held[a := CountOf(e.held, a) + 1]
    requires f.order == if DirectionOf(a).Some? then e.order + [Press(code, DirectionOf(a).value)] else e.order
    ensures PositiveCounts(f) && CountsOk(c, f, rest, []) && PressesOk(c, f, code, rest, [])
  {
    assert ([a] + rest)[1..] == rest;
    forall b
      ensures Occurrences([a] + rest, b) == (if a == b then 1 else 0) + Occurrences(rest, b)
      ensures CountOf(f.held, b) == CountOf(e.held, b) + (if a == b then 1 else 0)
    {
    }
    forall p: Press
      ensures PressCount(f.order, p) == PressCount(e.order, p) + (if p.code == code && a == ActionFor(p.direction) then 1 else 0)
    {
      if DirectionOf(a).Some? {
        assert f.order[..|f.order| - 1] == e.order;
      }
    }
  }

  lemma {:induction false} PressingAllStaysConsistent(c: Config, o: Outcome, code: Code, actions: seq<ActionName>)
    requires Turning(c, o.engine) && PositiveCounts(o.engine)
    requires CountsOk(c, o.engine, actions, []) && PressesOk(c, o.engine, code, actions, [])
    ensures var f := PressAll(c, o, code, actions).engine;
            Consistent(c, f) && f.pressed == o.engine.pressed
    decreases |actions|
  {
    if actions == [] {
      PendingNothing(c, o.engine, code);
    } else {
      hide PressOne;
      var next := PressOne(c, o, code, actions[0]);
      assert actions == [actions[0]] + actions[1..];
      if DirectionOf(actions[0]).Some? {
        PressingADirection(c, o, code, actions[0]);
      } else {
        PressingAnAction(c, o, code, actions[0]);
      }
      PressingOneCounts(c, o.engine, next.engine, code, actions[0], actions[1..]);
      PressingAllStaysConsistent(c, next, code, actions[1..]);
    }
  }

  lemma PendingNothing(c: Config, e: Engine, code: Code)
    ensures PressesOk(c, e, code, [], []) <==> PressesOk(c, e, 0, [], [])
  {
    assert forall a :: Occurrences([], a) == 0;
  }

  lemma PressingAddsTheKey(c: Config, e: Engine, code: Code)
    requires Consistent(c, e) && code !in e.pressed
    ensures var f := e.(pressed := e.pressed + {code});
            CountsOk(c, f, Bound(c, code), []) && PressesOk(c, f, code, Bound(c, code), [])
  {
    var f := e.(pressed := e.pressed + {code});
    PendingNothing(c, e, code);
    assert f.pressed - {code} == e.pressed;
    forall a
      ensures HeldBy(c, f.pressed, a) == Occurrences(Bound(c, code), a) + HeldBy(c, e.pressed, a)
    {
      HeldBySplits(c, f.pressed, code, a);
    }
    assert forall a :: Occurrences([], a) == 0;
  }

  // ---------------------------------------------------------------- releasing keys

  lemma {:induction false} RemovingUncounts(order: seq<Press>, p: Press, q: Press)
    ensures PressCount(RemovePress(order, p), q)
            == PressCount(order, q) - (if p == q && PressCount(order, p) > 0 then 1 else 0)
    decreases |order|
  {
    if order != [] {
      var n := |order| - 1;
      if order[n] != p {
        RemovingUncounts(order[..n], p, q);
        var removed := RemovePress(order[..n], p) + [order[n]];
        assert removed[..|removed| - 1] == RemovePress(order[..n], p);
      }
    }
  }

  predicate SoftTimerOk(c: Config, e: Engine) { e.nextS.Some? <==> SoftDrop in e.held && c.factor.EveryMs? }

  lemma OccurrencesOfCons(a: ActionName, rest: seq<ActionName>, b: ActionName)
    ensures Occurrences([a] + rest, b) == (if a == b then 1 else 0) + Occurrences(rest, b)
    ensures Occurrences([], b) == 0
  {
    assert ([a] + rest)[1..] == rest;
  }

  lemma UncountingOne(held: map<ActionName, nat>, a: ActionName, b: ActionName)
    requires Positive(held)
    ensures CountOf(Uncounted(held, a), b) == CountOf(held, b) - (if a == b && a in held then 1 else 0)
    ensures Positive(Uncounted(held, a))
    ensures a != b ==> (b in Uncounted(held, a) <==> b in held)
    ensures a in Uncounted(held, a) <==> CountOf(held, a) > 1
  {
  }

  lemma ReleasingOneHeld(c: Config, e: Engine, code: Code, a: ActionName, rest: seq<ActionName>)
    requires PositiveCounts(e) && CountsOk(c, e, [], [a] + rest) && SoftTimerOk(c, e)
    ensures var f := ReleaseOne(e, code, a);
            PositiveCounts(f) && CountsOk(c, f, [], rest) && SoftTimerOk(c, f)
  {
    hide Occurrences, RemovePress, Uncounted, HeldBy;
    var f := ReleaseOne(e, code, a);
    assert f.held == Uncounted(e.held, a) && f.pressed == e.pressed;
    OccurrencesOfCons(a, rest, a);
    assert a in e.held by {
      assert CountOf(e.held, a) + Occurrences([], a) == HeldBy(c, e.pressed, a) + Occurrences([a] + rest, a);
    }
    UncountingOne(e.held, a, SoftDrop);
    forall b
      ensures CountOf(f.held, b) + Occurrences([], b) == HeldBy(c, f.pressed, b) + Occurrences(rest, b)
    {
      OccurrencesOfCons(a, rest, b);
      UncountingOne(e.held, a, b);
      assert CountOf(e.held, b) + Occurrences([], b) == HeldBy(c, e.pressed, b) + Occurrences([a] + rest, b);
    }
  }

  lemma ReleasingOnePresses(c: Config, e: Engine, code: Code, a: ActionName, rest: seq<ActionName>)
    requires PressesOk(c, e, code, [], [a] + rest)
    ensures PressesOk(c, ReleaseOne(e, code, a), code, [], rest)
  {
    hide Occurrences, RemovePress, PressCount;
    var f := ReleaseOne(e, code, a);
    forall p: Press
      ensures PressCount(f.order, p) + (if p.code == code then Occurrences([], ActionFor(p.direction)) else 0)
              == BoundPresses(c, f.pressed, p) + (if p.code == code then Occurrences(rest, ActionFor(p.direction)) else 0)
    {
      OccurrencesOfCons(a, rest, ActionFor(p.direction));
      assert PressCount(e.order, p) + (if p.code == code then Occurrences([], ActionFor(p.direction)) else 0)
             == BoundPresses(c, e.pressed, p) + (if p.code == code then Occurrences([a] + rest, ActionFor(p.direction)) else 0);
      if DirectionOf(a).Some? {
        RemovingUncounts(e.order, Press(code, DirectionOf(a).value), p);
      }
    }
  }

  lemma ReleasingOneCounts(c: Config, e: Engine, code: Code, a: ActionName, rest: seq<ActionName>)
    requires PositiveCounts(e) && CountsOk(c, e, [], [a] + rest) && PressesOk(c, e, code, [], [a] + rest)
    requires SoftTimerOk(c, e)
    ensures var f := ReleaseOne(e, code, a);
            && PositiveCounts(f) && CountsOk(c, f, [], rest) && PressesOk(c, f, code, [], rest)
            && SoftTimerOk(c, f)
  {
    hide CountsOk, PressesOk;
    ReleasingOneHeld(c, e, code, a, rest);
    ReleasingOnePresses(c, e, code, a, rest);
  }

  lemma {:induction false} ReleasingAllCounts(c: Config, e: Engine, code: Code, actions: seq<ActionName>)
    requires PositiveCounts(e) && CountsOk(c, e, [], actions) && PressesOk(c, e, code, [], actions)
    requires SoftTimerOk(c, e)
    ensures var f := ReleaseAll(e, code, actions);
            && PositiveCounts(f) && CountsOk(c, f, [], []) && PressesOk(c, f, 0, [], []) && SoftTimerOk(c, f)
            && f.active == e.active && f.nextH == e.nextH && f.charged == e.charged && f.pressed == e.pressed
    decreases |actions|
  {
    if actions == [] {
      PendingNothing(c, e, code);
    } else {
      assert actions == [actions[0]] + actions[1..];
      ReleasingOneCounts(c, e, code, actions[0], actions[1..]);
      ReleasingAllCounts(c, ReleaseOne(e, code, actions[0]), code, actions[1..]);
    }
  }

  lemma ReleasingDropsTheKey(c: Config, e: Engine, code: Code)
    requires Consistent(c, e) && code in e.pressed
    ensures var f := e.(pressed := e.pressed - {code});
            CountsOk(c, f, [], Bound(c, code)) && PressesOk(c, f, code, [], Bound(c, code))
  {
    var f := e.(pressed := e.pressed - {code});
    PendingNothing(c, e, code);
    forall a
      ensures HeldBy(c, e.pressed, a) == Occurrences(Bound(c, code), a) + HeldBy(c, f.pressed, a)
    {
      HeldBySplits(c, e.pressed, code, a);
    }
    assert forall a :: Occurrences([], a) == 0;
  }

  lemma KeyDownStaysConsistent(c: Config, e: Engine, code: Code, repeated: bool, at: real)
    requires Consistent(c, e) && Forward(e, at)
    ensures Consistent(c, KeyDown(c, e, code, repeated, at).value.engine)
  {
    hide AdvanceTo, PressAll;
    AdvancingStaysConsistent(c, e, at);
    var o := AdvanceTo(c, e, at);
    if !repeated && code !in o.engine.pressed {
      PressingAddsTheKey(c, o.engine, code);
      var pressing := o.(engine := o.engine.(pressed := o.engine.pressed + {code}));
      PressingAllStaysConsistent(c, pressing, code, Bound(c, code));
    }
  }

  lemma KeyUpStaysConsistent(c: Config, e: Engine, code: Code, at: real)
    requires Consistent(c, e) && Forward(e, at)
    ensures Consistent(c, KeyUp(c, e, code, at).value.engine)
  {
    hide AdvanceTo, ReleaseAll, SelectDirection;
    AdvancingStaysConsistent(c, e, at);
    var o := AdvanceTo(c, e, at);
    if code in o.engine.pressed {
      ReleasingDropsTheKey(c, o.engine, code);
      ReleasingAllCounts(c, o.engine.(pressed := o.engine.pressed - {code}), code, Bound(c, code));
      var released := o.(engine := Released(o.engine, code, Bound(c, code)));
      SelectingKeepsTimers(c, released, Newest(released.engine.order));
      SelectingKeepsSoftDrop(c, released, Newest(released.engine.order));
      KeysDecide(c, released.engine, SelectDirection(c, released, Newest(released.engine.order)).engine, 0, [], []);
    }
  }

  lemma SelectingKeepsSoftDrop(c: Config, o: Outcome, direction: Option<Direction>)
    ensures SelectDirection(c, o, direction).engine.nextS == o.engine.nextS
  {
  }

  lemma CuttingKeepsKeys(c: Config, e: Engine, at: real)
    requires Consistent(c, e)
    ensures Consistent(c, CutDas(c, e, at))
  {
    KeysDecide(c, e, CutDas(c, e, at), 0, [], []);
  }

  lemma RestartingKeepsKeys(c: Config, o: Outcome)
    requires Consistent(c, o.engine)
    ensures Consistent(c, RestartSoftDrop(c, o).engine)
  {
    KeysDecide(c, o.engine, RestartSoftDrop(c, o).engine, 0, [], []);
  }

  lemma SpawnedStaysConsistent(c: Config, e: Engine, at: real, automatic: bool)
    requires Consistent(c, e) && Forward(e, at)
    ensures Consistent(c, Spawned(c, e, at, automatic).value.engine)
  {
    hide CutDas, AdvanceTo, RestartSoftDrop;
    CuttingKeepsKeys(c, e, at);
    AdvancingStaysConsistent(c, CutDas(c, e, at), at);
    var o := AdvanceTo(c, CutDas(c, e, at), at);
    var blocked := if automatic && c.safeLock then Some(at + SAFE_LOCK_MS) else None;
    var guarded := o.(engine := o.engine.(blockedUntil := blocked));
    KeysDecide(c, o.engine, guarded.engine, 0, [], []);
    RestartingKeepsKeys(c, guarded);
  }

  // ---------------------------------------------------------------- whole runs

  datatype Call =
    | AdvanceCall(at: real)
    | Down(code: Code, repeated: bool, at: real)
    | Up(code: Code, at: real)
    | SpawnNotice(at: real, automatic: bool)
    | BlurCall(at: real)

  /** A call that throws leaves the engine as it was. */
  function Perform(c: Config, e: Engine, call: Call): Engine {
    if !Forward(e, call.at) then e
    else match call
      case AdvanceCall(at) => Advance(c, e, at).value.engine
      case Down(code, repeated, at) => KeyDown(c, e, code, repeated, at).value.engine
      case Up(code, at) => KeyUp(c, e, code, at).value.engine
      case SpawnNotice(at, automatic) => Spawned(c, e, at, automatic).value.engine
      case BlurCall(at) => Blur(e, at).value
  }

  function Ran(c: Config, start: real, calls: seq<Call>): Engine
    decreases |calls|
  {
    if calls == [] then Start(start) else Perform(c, Ran(c, start, calls[..|calls| - 1]), calls[|calls| - 1])
  }

  lemma NoKeysAreConsistent(c: Config, e: Engine)
    requires e.pressed == {} && e.held == map[] && e.order == [] && e.active.None?
    requires !e.charged && e.nextH.None? && e.nextS.None?
    ensures Consistent(c, e)
  {
    assert forall a :: Occurrences([], a) == 0;
  }

  lemma PerformingStaysConsistent(c: Config, e: Engine, call: Call)
    requires Consistent(c, e)
    ensures Consistent(c, Perform(c, e, call))
  {
    hide Consistent, KeyDown, KeyUp, Spawned, AdvanceTo;
    if Forward(e, call.at) {
      match call
      case AdvanceCall(at) => AdvancingStaysConsistent(c, e, at);
      case Down(code, repeated, at) => KeyDownStaysConsistent(c, e, code, repeated, at);
      case Up(code, at) => KeyUpStaysConsistent(c, e, code, at);
      case SpawnNotice(at, automatic) => SpawnedStaysConsistent(c, e, at, automatic);
      case BlurCall(at) => NoKeysAreConsistent(c, Blur(e, at).value);
    }
  }

  lemma {:induction false} RunsStayConsistent(c: Config, start: real, calls: seq<Call>)
    ensures Consistent(c, Ran(c, start, calls))
    decreases |calls|
  {
    if calls == [] {
      NoKeysAreConsistent(c, Start(start));
    } else {
      RunsStayConsistent(c, start, calls[..|calls| - 1]);
      PerformingStaysConsistent(c, Ran(c, start, calls[..|calls| - 1]), calls[|calls| - 1]);
    }
  }

  lemma {:induction false} CountedPressExists(order: seq<Press>, i: nat)
    requires i < |order|
    ensures PressCount(order, order[i]) > 0
    decreases |order|
  {
    if i < |order| - 1 {
      CountedPressExists(order[..|order| - 1], i);
    }
  }

  lemma {:induction false} OccurringIsBound(actions: seq<ActionName>, a: ActionName)
    ensures Occurrences(actions, a) > 0 <==> a in actions
    decreases |actions|
  {
    if actions != [] {
      OccurringIsBound(actions[1..], a);
      assert actions == [actions[0]] + actions[1..];
    }
  }

  /**
   After every sequence of calls the recorded presses are exactly the direction bindings of the pressed keys, the engine
   shifts in the direction of the last one and rests exactly when there is none, an action counts as held exactly as
   often as the pressed keys are bound to it, and the soft drop timer runs exactly while a timed soft drop is held.
   */
  lemma HeldKeysDecide(c: Config, start: real, calls: seq<Call>, a: ActionName)
    ensures var e := Ran(c, start, calls);
            && CountOf(e.held, a) == HeldBy(c, e.pressed, a)
            && (a in e.held <==> HeldBy(c, e.pressed, a) > 0)
            && (e.nextS.Some? <==> HeldBy(c, e.pressed, SoftDrop) > 0 && c.factor.EveryMs?)
            && e.active == Newest(e.order)
            && (e.active.None? ==> e.nextH.None?)
            && (forall p: Press :: PressCount(e.order, p) == BoundPresses(c, e.pressed, p))
            && (e.active.Some? <==> exists p: Press :: BoundPresses(c, e.pressed, p) > 0)
            && forall i | 0 <= i < |e.order| ::
                 e.order[i].code in e.pressed && ActionFor(e.order[i].direction) in Bound(c, e.order[i].code)
  {
    var e := Ran(c, start, calls);
    RunsStayConsistent(c, start, calls);
    assert Occurrences([], a) == 0 && Occurrences([], SoftDrop) == 0;
    assert CountOf(e.held, SoftDrop) + Occurrences([], SoftDrop) == HeldBy(c, e.pressed, SoftDrop) + Occurrences([], SoftDrop);
    forall p: Press ensures PressCount(e.order, p) == BoundPresses(c, e.pressed, p) {
      assert Occurrences([], ActionFor(p.direction)) == 0;
    }
    if e.order == [] {
      assert forall p: Press :: PressCount(e.order, p) == 0;
    } else {
      CountedPressExists(e.order, 0);
      assert BoundPresses(c, e.pressed, e.order[0]) > 0;
    }
    forall i | 0 <= i < |e.order|
      ensures e.order[i].code in e.pressed && ActionFor(e.order[i].direction) in Bound(c, e.order[i].code)
    {
      var p := e.order[i];
      CountedPressExists(e.order, i);
      assert Occurrences([], ActionFor(p.direction)) == 0;
      OccurringIsBound(Bound(c, p.code), ActionFor(p.direction));
    }
  }
}

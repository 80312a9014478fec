/**
 The client's key handling as values: delayed auto shift, auto repeat and soft drop as two timers
 merged in time order, and the book-keeping of held keys. Times are milliseconds as reals.
 */
module Handling {
  import opened Wrappers

  const MAX_EMISSIONS: nat := 512
  const MAX_CELLS: nat := 40
  const SAFE_LOCK_MS: real := 2.0 * (1000.0 / 60.0)

  type Code = nat

  datatype Direction = Left | Right

  datatype Turn = Clockwise | Counterclockwise | HalfTurn

  datatype ActionName =
    | MoveLeft | MoveRight | SoftDrop | HardDrop | RotateCW | RotateCCW | Rotate180 | Hold | Forfeit | Retry | OpenChat

  datatype Expanded =
    | Shift(direction: Direction, toWall: bool)
    | SoftDropCells(cells: nat)
    | SoftDropToFloor
    | HardDropNow
    | Rotate(turn: Turn)
    | HoldNow
    | ForfeitNow
    | RetryNow
    | OpenChatNow

  /** A finite soft drop factor and the base rate together make the interval of one cell. */
  datatype Factor = Sonic | EveryMs(interval: real)

  datatype Config = Config(
    das: real,
    arr: real,
    dcd: real,
    factor: Factor,
    dasCancellation: bool,
    safeLock: bool,
    preferSoftDrop: bool,
    bindings: map<Code, seq<ActionName>>)

  predicate ConfigOk(c: Config) {
    c.das >= 0.0 && c.arr >= 0.0 && c.dcd >= 0.0 && (c.factor.EveryMs? ==> c.factor.interval > 0.0)
  }

  function FrameTenthsToMs(tenths: nat): real { tenths as real * (1000.0 / 600.0) }

  /** The interval of a soft drop factor over a base rate in cells per second. */
  function FactorOf(sdf: nat, baseRate: real): Factor
    requires sdf >= 1 && baseRate > 0.0
  {
    EveryMs(1000.0 / (sdf as real * baseRate))
  }

  /** None stands for an infinite time. */
  type Timer = Option<real>

  datatype Press = Press(code: Code, direction: Direction)

  datatype Engine = Engine(
    pressed: set<Code>,
    held: map<ActionName, nat>,
    order: seq<Press>,
    now: real,
    active: Option<Direction>,
    charged: bool,
    nextH: Timer,
    nextS: Timer,
    blockedUntil: Timer)

  function Start(at: real): Engine { Engine({}, map[], [], at, None, false, None, None, None) }

  function DirectionOf(a: ActionName): Option<Direction> {
    match a
    case MoveLeft => Some(Left)
    case MoveRight => Some(Right)
    case _ => None
  }

  function Bound(c: Config, code: Code): seq<ActionName> {
    if code in c.bindings then c.bindings[code] else []
  }

  function CountOf(held: map<ActionName, nat>, a: ActionName): nat { if a in held then held[a] else 0 }

  // ---------------------------------------------------------------- timers

  predicate Due(t: Timer, to: real) { t.Some? && t.value <= to }

  function Earliest(a: Timer, b: Timer): Timer {
    if a.None? then b else if b.None? || a.value <= b.value then a else b
  }

  function Later(t: Timer, delay: real): Timer { if t.None? then None else Some(t.value + delay) }

  function FireHorizontal(c: Config, e: Engine): Engine {
    if e.active.None? then e.(nextH := None)
    else e.(charged := true, nextH := if c.arr == 0.0 then None else Later(e.nextH, c.arr))
  }

  function ShiftOf(c: Config, e: Engine): seq<Expanded> {
    if e.active.None? then [] else [Shift(e.active.value, c.arr == 0.0)]
  }

  function FireSoftDrop(c: Config, e: Engine): Engine {
    e.(nextS := if c.factor.Sonic? then None else Later(e.nextS, c.factor.interval))
  }

  predicate HorizontalDue(e: Engine) { e.nextH.Some? && e.nextH == Earliest(e.nextH, e.nextS) }

  predicate SoftDropDue(e: Engine) { e.nextS.Some? && e.nextS == Earliest(e.nextH, e.nextS) }

  /** Everything that is due at the earliest instant. */
  function Tick(c: Config, e: Engine): Engine
    requires Earliest(e.nextH, e.nextS).Some?
  {
    var at := e.(now := Earliest(e.nextH, e.nextS).value);
    var dropped := if SoftDropDue(e) then FireSoftDrop(c, at) else at;
    if HorizontalDue(e) then FireHorizontal(c, dropped) else dropped
  }

  function TickCount(e: Engine): nat {
    (if HorizontalDue(e) then 1 else 0) + (if SoftDropDue(e) then 1 else 0)
  }

  function TickActions(c: Config, e: Engine): seq<Expanded> {
    var shift := if HorizontalDue(e) then ShiftOf(c, e) else [];
    if !SoftDropDue(e) then shift
    else if c.preferSoftDrop then [SoftDropCells(1)] + shift
    else shift + [SoftDropCells(1)]
  }

  /** The engine after a call and the actions it produced, soft drops one cell at a time. */
  datatype Outcome = Outcome(engine: Engine, actions: seq<Expanded>)

  datatype Drained = Drained(engine: Engine, actions: seq<Expanded>, emitted: nat)

  /** Fires timers in time order until none is due at `to` or the emission limit is reached. */
  function Drain(c: Config, e: Engine, to: real, emitted: nat): Drained
    decreases MAX_EMISSIONS - emitted
  {
    if emitted >= MAX_EMISSIONS || !Due(Earliest(e.nextH, e.nextS), to) then Drained(e, [], emitted)
    else
      var rest := Drain(c, Tick(c, e), to, emitted + TickCount(e));
      Drained(rest.engine, TickActions(c, e) + rest.actions, rest.emitted)
  }

  function SkipBacklog(c: Config, e: Engine, to: real): Engine {
    e.(nextH := if e.nextH.None? || c.arr == 0.0 then None else Some(to + c.arr),
       nextS := if e.nextS.None? || c.factor.Sonic? then None else Some(to + c.factor.interval))
  }

  predicate Forward(e: Engine, at: real) { at >= 0.0 && at >= e.now }

  function AdvanceTo(c: Config, e: Engine, to: real): Outcome {
    var d := Drain(c, e, to, 0);
    var caught := if d.emitted == MAX_EMISSIONS then SkipBacklog(c, d.engine, to) else d.engine;
    Outcome(caught.(now := to), d.actions)
  }

  // ---------------------------------------------------------------- directions and actions

  function DrainCurrent(c: Config, o: Outcome): Outcome {
    if Due(o.engine.nextH, o.engine.now)
    then Outcome(FireHorizontal(c, o.engine), o.actions + ShiftOf(c, o.engine))
    else o
  }

  function Turned(c: Config, e: Engine, d: Direction): Engine {
    var turned := e.(active := Some(d));
    if e.active.None? || c.dasCancellation then turned.(charged := false, nextH := Some(e.now + c.das))
    else if e.charged && c.arr == 0.0 then turned.(nextH := Some(e.now))
    else turned
  }

  function SelectDirection(c: Config, o: Outcome, direction: Option<Direction>): Outcome {
    if direction == o.engine.active then o
    else if direction.None? then o.(engine := o.engine.(active := None, charged := false, nextH := None))
    else DrainCurrent(c, Outcome(Turned(c, o.engine, direction.value), o.actions + [Shift(direction.value, false)]))
  }

  /** A manipulation cuts the charged or running auto shift. */
  function CutDas(c: Config, e: Engine, at: real): Engine {
    if e.active.None? then e
    else if e.charged && c.arr == 0.0 then e.(nextH := Some(at + c.dcd))
    else if e.nextH.Some? then e.(nextH := Some((if e.nextH.value >= at then e.nextH.value else at) + c.dcd))
    else e
  }

  function RestartSoftDrop(c: Config, o: Outcome): Outcome {
    if SoftDrop !in o.engine.held then o
    else if c.factor.Sonic? then Outcome(o.engine.(nextS := None), o.actions + [SoftDropToFloor])
    else o.(engine := o.engine.(nextS := Some(o.engine.now + c.factor.interval)))
  }

  function Rotated(c: Config, o: Outcome, turn: Turn): Outcome {
    DrainCurrent(c, Outcome(CutDas(c, o.engine, o.engine.now), o.actions + [Rotate(turn)]))
  }

  function PressAction(c: Config, o: Outcome, a: ActionName): Outcome {
    match a
    case SoftDrop => RestartSoftDrop(c, o)
    case HardDrop =>
      if o.engine.blockedUntil.Some? && o.engine.now < o.engine.blockedUntil.value then o
      else o.(actions := o.actions + [HardDropNow])
    case Hold => o.(actions := o.actions + [HoldNow])
    case RotateCW => Rotated(c, o, Clockwise)
    case RotateCCW => Rotated(c, o, Counterclockwise)
    case Rotate180 => Rotated(c, o, HalfTurn)
    case Forfeit => o.(actions := o.actions + [ForfeitNow])
    case Retry => o.(actions := o.actions + [RetryNow])
    case OpenChat => o.(actions := o.actions + [OpenChatNow])
    case _ => o
  }

  /** One binding of a key going down. */
  function PressOne(c: Config, o: Outcome, code: Code, a: ActionName): Outcome {
    var count := CountOf(o.engine.held, a);
    var counted := o.(engine := o.engine.(held := o.engine.held[a := count + 1]));
    var direction := DirectionOf(a);
    if direction.Some? then
      var ordered := counted.(engine := counted.engine.(order := o.engine.order + [Press(code, direction.value)]));
      if count == 0 || o.engine.active != direction then SelectDirection(c, ordered, direction) else ordered
    else if count == 0 then PressAction(c, counted, a)
    else counted
  }

  function PressAll(c: Config, o: Outcome, code: Code, actions: seq<ActionName>): Outcome
    decreases |actions|
  {
    if actions == [] then o else PressAll(c, PressOne(c, o, code, actions[0]), code, actions[1..])
  }

  /** Removes the newest press of that key in that direction, if there is one. */
  function RemovePress(order: seq<Press>, p: Press): seq<Press>
    decreases |order|
  {
    if order == [] then []
    else
      var n := |order| - 1;
      if order[n] == p then order[..n] else RemovePress(order[..n], p) + [order[n]]
  }

  function Uncounted(held: map<ActionName, nat>, a: ActionName): map<ActionName, nat> {
    if CountOf(held, a) <= 1 then held - {a} else held[a := held[a] - 1]
  }

  /** One binding of a key going up. */
  function ReleaseOne(e: Engine, code: Code, a: ActionName): Engine {
    var uncounted := e.(held := Uncounted(e.held, a));
    if DirectionOf(a).Some? then uncounted.(order := RemovePress(e.order, Press(code, DirectionOf(a).value)))
    else if CountOf(e.held, a) <= 1 && a == SoftDrop then uncounted.(nextS := None)
    else uncounted
  }

  function ReleaseAll(e: Engine, code: Code, actions: seq<ActionName>): Engine
    decreases |actions|
  {
    if actions == [] then e else ReleaseAll(ReleaseOne(e, code, actions[0]), code, actions[1..])
  }

  function Newest(order: seq<Press>): Option<Direction> {
    if order == [] then None else Some(order[|order| - 1].direction)
  }

  // ---------------------------------------------------------------- the public calls

  /** None stands for the range error of a time that is negative or moves backwards. */
  function Advance(c: Config, e: Engine, to: real): Option<Outcome> {
    if Forward(e, to) then Some(AdvanceTo(c, e, to)) else None
  }

  function KeyDown(c: Config, e: Engine, code: Code, repeated: bool, at: real): Option<Outcome> {
    if !Forward(e, at) then None
    else
      var o := AdvanceTo(c, e, at);
      if repeated || code in o.engine.pressed then Some(o)
      else Some(PressAll(c, o.(engine := o.engine.(pressed := o.engine.pressed + {code})), code, Bound(c, code)))
  }

  function Released(e: Engine, code: Code, actions: seq<ActionName>): Engine {
    ReleaseAll(e.(pressed := e.pressed - {code}), code, actions)
  }

  function KeyUp(c: Config, e: Engine, code: Code, at: real): Option<Outcome> {
    if !Forward(e, at) then None
    else
      var o := AdvanceTo(c, e, at);
      if code !in o.engine.pressed then Some(o)
      else
        var released := o.(engine := Released(o.engine, code, Bound(c, code)));
        Some(SelectDirection(c, released, Newest(released.engine.order)))
  }

  /** The cut comes before the clock advances. */
  function Spawned(c: Config, e: Engine, at: real, automatic: bool): Option<Outcome> {
    if !Forward(e, at) then None
    else
      var o := AdvanceTo(c, CutDas(c, e, at), at);
      var blocked := if automatic && c.safeLock then Some(at + SAFE_LOCK_MS) else None;
      Some(RestartSoftDrop(c, o.(engine := o.engine.(blockedUntil := blocked))))
  }

  function Blur(e: Engine, at: real): Option<Engine> {
    if !Forward(e, at) then None
    else Some(e.(now := at, pressed := {}, held := map[], order := [], active := None, charged := false,
                 nextH := None, nextS := None))
  }

  // ---------------------------------------------------------------- coalescing

  /** Soft drop cells join the preceding soft drop while it stays within forty cells. */
  function Append(output: seq<Expanded>, a: Expanded): seq<Expanded> {
    var n := |output| - 1;
    if a.SoftDropCells? && n >= 0 && output[n].SoftDropCells? && output[n].cells + a.cells <= MAX_CELLS
    then output[..n] + [SoftDropCells(output[n].cells + a.cells)]
    else output + [a]
  }

  /** What a caller receives for a list of single actions. */
  function Coalesced(actions: seq<Expanded>): seq<Expanded>
    decreases |actions|
  {
    if actions == [] then [] else Append(Coalesced(actions[..|actions| - 1]), actions[|actions| - 1])
  }

  function Cells(n: nat): seq<Expanded>
    decreases n
  {
    if n == 0 then [] else Cells(n - 1) + [SoftDropCells(1)]
  }

  function Unit(a: Expanded): seq<Expanded> { if a.SoftDropCells? then Cells(a.cells) else [a] }

  /** Undoes coalescing. */
  function Expand(output: seq<Expanded>): seq<Expanded>
    decreases |output|
  {
    if output == [] then [] else Expand(output[..|output| - 1]) + Unit(output[|output| - 1])
  }

  predicate Single(a: Expanded) { a.SoftDropCells? ==> a.cells == 1 }

  predicate AllSingle(actions: seq<Expanded>) { forall i | 0 <= i < |actions| :: Single(actions[i]) }

  predicate Chunked(output: seq<Expanded>) {
    forall i | 0 <= i < |output| :: output[i].SoftDropCells? ==> 1 <= output[i].cells <= MAX_CELLS
  }
}

/** The engine itself: fields changed in place, output pushed action by action. */
module HandlingEngines {
  import opened Wrappers
  import opened Handling

  lemma DrainUnrolls(c: Config, e: Engine, to: real, emitted: nat)
    requires emitted < MAX_EMISSIONS && Due(Earliest(e.nextH, e.nextS), to)
    ensures 1 <= TickCount(e) <= 2
    ensures var rest := Drain(c, Tick(c, e), to, emitted + TickCount(e));
            Drain(c, e, to, emitted) == Drained(rest.engine, TickActions(c, e) + rest.actions, rest.emitted)
  {
  }

  lemma CoalescedLast(actions: seq<Expanded>, a: Expanded)
    ensures Coalesced(actions + [a]) == Append(Coalesced(actions), a)
  {
    assert (actions + [a])[..|actions|] == actions;
  }

  lemma CoalescedPush(actions: seq<Expanded>, a: Expanded)
    requires !a.SoftDropCells?
    ensures Coalesced(actions + [a]) == Coalesced(actions) + [a]
  {
    CoalescedLast(actions, a);
  }

  lemma CoalescedNothing()
    ensures Coalesced([]) == []
  {
  }

  class HandlingEngine {
    const config: Config
    var pressedCodes: set<Code>
    var heldCounts: map<ActionName, nat>
    var directionOrder: seq<Press>
    var nowMs: real
    var activeDirection: Option<Direction>
    var horizontalCharged: bool
    var nextHorizontalAt: Timer
    var nextSoftDropAt: Timer
    var hardDropBlockedUntilMs: Timer

    ghost function View(): Engine
      reads this
    {
      Engine(pressedCodes, heldCounts, directionOrder, nowMs, activeDirection, horizontalCharged,
             nextHorizontalAt, nextSoftDropAt, hardDropBlockedUntilMs)
    }

    constructor (config: Config, startTimeMs: real)
      ensures this.config == config && View() == Start(startTimeMs)
    {
      this.config := config;
      pressedCodes := {};
      heldCounts := map[];
      directionOrder := [];
      nowMs := startTimeMs;
      activeDirection := None;
      horizontalCharged := false;
      nextHorizontalAt := None;
      nextSoftDropAt := None;
      hardDropBlockedUntilMs := None;
    }

    method EmitHorizontal(ghost actions: seq<Expanded>, output: seq<Expanded>) returns (pushed: seq<Expanded>)
      requires output == Coalesced(actions)
      modifies this`horizontalCharged, this`nextHorizontalAt
      ensures View() == FireHorizontal(config, old(View()))
      ensures pushed == Coalesced(actions + ShiftOf(config, old(View())))
    {
      hide Coalesced, Append;
      if activeDirection.None? {
        nextHorizontalAt := None;
        assert actions + ShiftOf(config, old(View())) == actions;
        return output;
      }
      CoalescedPush(actions, Shift(activeDirection.value, config.arr == 0.0));
      horizontalCharged := true;
      if config.arr == 0.0 {
        pushed := output + [Shift(activeDirection.value, true)];
        nextHorizontalAt := None;
      } else {
        pushed := output + [Shift(activeDirection.value, false)];
        nextHorizontalAt := Later(nextHorizontalAt, config.arr);
      }
    }

    method EmitSoftDrop(ghost actions: seq<Expanded>, output: seq<Expanded>) returns (pushed: seq<Expanded>)
      requires output == Coalesced(actions)
      modifies this`nextSoftDropAt
      ensures View() == FireSoftDrop(config, old(View()))
      ensures pushed == Coalesced(actions + [SoftDropCells(1)])
    {
      CoalescedLast(actions, SoftDropCells(1));
      var n := |output| - 1;
      if n >= 0 && output[n].SoftDropCells? && output[n].cells + 1 <= MAX_CELLS {
        pushed := output[n := SoftDropCells(output[n].cells + 1)];
        assert pushed == output[..n] + [SoftDropCells(output[n].cells + 1)];
      } else {
        pushed := output + [SoftDropCells(1)];
      }
      nextSoftDropAt := if config.factor.Sonic? then None else Later(nextSoftDropAt, config.factor.interval);
    }

    method EmitDue(ghost actions: seq<Expanded>, output: seq<Expanded>, emitted: nat)
      returns (pushed: seq<Expanded>, count: nat)
      requires output == Coalesced(actions) && Earliest(nextHorizontalAt, nextSoftDropAt).Some?
      modifies this`nowMs, this`horizontalCharged, this`nextHorizontalAt, this`nextSoftDropAt
      ensures View() == Tick(config, old(View()))
      ensures count == emitted + TickCount(old(View()))
      ensures pushed == Coalesced(actions + TickActions(config, old(View())))
    {
      hide Coalesced, Append;
      ghost var e := View();
      var due := Earliest(nextHorizontalAt, nextSoftDropAt);
      nowMs := due.value;
      var horizontalDue := nextHorizontalAt == due;
      var softDropDue := nextSoftDropAt == due;
      ghost var done := actions;
      pushed, count := output, emitted;
      if softDropDue && config.preferSoftDrop {
        pushed := EmitSoftDrop(done, pushed);
        done := done + [SoftDropCells(1)];
        count := count + 1;
      }
      if horizontalDue {
        pushed := EmitHorizontal(done, pushed);
        done := done + ShiftOf(config, e);
        count := count + 1;
      }
      if softDropDue && !config.preferSoftDrop {
        pushed := EmitSoftDrop(done, pushed);
        done := done + [SoftDropCells(1)];
        count := count + 1;
      }
      assert done == actions + TickActions(config, e);
    }

    method SkipTheBacklog(to: real)
      modifies this`nextHorizontalAt, this`nextSoftDropAt
      ensures View() == SkipBacklog(config, old(View()), to)
    {
      if nextHorizontalAt.Some? {
        nextHorizontalAt := if config.arr == 0.0 then None else Some(to + config.arr);
      }
      if nextSoftDropAt.Some? {
        nextSoftDropAt := if config.factor.Sonic? then None else Some(to + config.factor.interval);
      }
    }

    /** The public advance, once the time is known to move forward. */
    method AdvanceForward(to: real) returns (output: seq<Expanded>)
      modifies this`nowMs, this`horizontalCharged, this`nextHorizontalAt, this`nextSoftDropAt
      ensures View() == AdvanceTo(config, old(View()), to).engine
      ensures output == Coalesced(AdvanceTo(config, old(View()), to).actions)
    {
      hide Coalesced, Append, Tick, TickActions, TickCount;
      CoalescedNothing();
      output := [];
      var emitted: nat := 0;
      ghost var done: seq<Expanded> := [];
      ghost var whole := Drain(config, View(), to, 0);
      while emitted < MAX_EMISSIONS && Due(Earliest(nextHorizontalAt, nextSoftDropAt), to)
        invariant output == Coalesced(done)
        invariant Drain(config, View(), to, emitted).engine == whole.engine
        invariant Drain(config, View(), to, emitted).emitted == whole.emitted
        invariant done + Drain(config, View(), to, emitted).actions == whole.actions
        decreases MAX_EMISSIONS - emitted
      {
        ghost var e := View();
        DrainUnrolls(config, e, to, emitted);
        ghost var rest := Drain(config, Tick(config, e), to, emitted + TickCount(e)).actions;
        assert done + (TickActions(config, e) + rest) == (done + TickActions(config, e)) + rest;
        output, emitted := EmitDue(done, output, emitted);
        done := done + TickActions(config, e);
      }
      assert done == whole.actions;
      if emitted == MAX_EMISSIONS {
        SkipTheBacklog(to);
      }
      nowMs := to;
    }

    method AdvanceClock(to: real) returns (threw: bool, output: seq<Expanded>)
      modifies this`nowMs, this`horizontalCharged, this`nextHorizontalAt, this`nextSoftDropAt
      ensures threw <==> Advance(config, old(View()), to).None?
      ensures threw ==> View() == old(View()) && output == []
      ensures !threw ==> var o := Advance(config, old(View()), to).value;
                         View() == o.engine && output == Coalesced(o.actions)
    {
      hide Coalesced, AdvanceTo;
      if to < 0.0 || to < nowMs {
        return true, [];
      }
      output := AdvanceForward(to);
      return false, output;
    }

    method DrainNow(ghost actions: seq<Expanded>, output: seq<Expanded>) returns (pushed: seq<Expanded>)
      requires output == Coalesced(actions)
      modifies this`horizontalCharged, this`nextHorizontalAt
      ensures var o := DrainCurrent(config, Outcome(old(View()), actions));
              View() == o.engine && pushed == Coalesced(o.actions)
    {
      hide Coalesced, Append;
      pushed := output;
      if Due(nextHorizontalAt, nowMs) {
        pushed := EmitHorizontal(actions, output);
      }
    }

    method Select(ghost actions: seq<Expanded>, direction: Option<Direction>, output: seq<Expanded>)
      returns (pushed: seq<Expanded>)
      requires output == Coalesced(actions)
      modifies this`activeDirection, this`horizontalCharged, this`nextHorizontalAt
      ensures var o := SelectDirection(config, Outcome(old(View()), actions), direction);
              View() == o.engine && pushed == Coalesced(o.actions)
    {
      hide Coalesced, Append, DrainCurrent;
      if direction == activeDirection {
        return output;
      }
      var preserved := activeDirection.Some? && !config.dasCancellation;
      activeDirection := direction;
      if direction.None? {
        horizontalCharged := false;
        nextHorizontalAt := None;
        return output;
      }
      CoalescedPush(actions, Shift(direction.value, false));
      pushed := output + [Shift(direction.value, false)];
      if !preserved {
        horizontalCharged := false;
        nextHorizontalAt := Some(nowMs + config.das);
      } else if horizontalCharged && config.arr == 0.0 {
        nextHorizontalAt := Some(nowMs);
      }
      pushed := DrainNow(actions + [Shift(direction.value, false)], pushed);
    }

    method CutDasAt(at: real)
      modifies this`nextHorizontalAt
      ensures View() == CutDas(config, old(View()), at)
    {
      if activeDirection.None? {
        return;
      }
      if horizontalCharged && config.arr == 0.0 {
        nextHorizontalAt := Some(at + config.dcd);
      } else if nextHorizontalAt.Some? {
        var later := if nextHorizontalAt.value >= at then nextHorizontalAt.value else at;
        nextHorizontalAt := Some(later + config.dcd);
      }
    }

    method RestartHeldSoftDrop(ghost actions: seq<Expanded>, output: seq<Expanded>) returns (pushed: seq<Expanded>)
      requires output == Coalesced(actions)
      modifies this`nextSoftDropAt
      ensures var o := RestartSoftDrop(config, Outcome(old(View()), actions));
              View() == o.engine && pushed == Coalesced(o.actions)
    {
      hide Coalesced, Append;
      if SoftDrop !in heldCounts {
        return output;
      }
      if config.factor.Sonic? {
        CoalescedPush(actions, SoftDropToFloor);
        nextSoftDropAt := None;
        return output + [SoftDropToFloor];
      }
      nextSoftDropAt := Some(nowMs + config.factor.interval);
      return output;
    }

    method RotateAndCut(ghost actions: seq<Expanded>, turn: Turn, output: seq<Expanded>) returns (pushed: seq<Expanded>)
      requires output == Coalesced(actions)
      modifies this`horizontalCharged, this`nextHorizontalAt
      ensures var o := Rotated(config, Outcome(old(View()), actions), turn);
              View() == o.engine && pushed == Coalesced(o.actions)
    {
      hide Coalesced, DrainCurrent;
      CoalescedPush(actions, Rotate(turn));
      pushed := output + [Rotate(turn)];
      CutDasAt(nowMs);
      pushed := DrainNow(actions + [Rotate(turn)], pushed);
    }

    method PressBoundAction(ghost actions: seq<Expanded>, a: ActionName, output: seq<Expanded>)
      returns (pushed: seq<Expanded>)
      requires output == Coalesced(actions)
      modifies this`horizontalCharged, this`nextHorizontalAt, this`nextSoftDropAt
      ensures var o := PressAction(config, Outcome(old(View()), actions), a);
              View() == o.engine && pushed == Coalesced(o.actions)
    {
      hide Coalesced, Append;
      match a
      case SoftDrop => pushed := RestartHeldSoftDrop(actions, output);
      case HardDrop =>
        if hardDropBlockedUntilMs.Some? && nowMs < hardDropBlockedUntilMs.value {
          return output;
        }
        CoalescedPush(actions, HardDropNow);
        pushed := output + [HardDropNow];
      case Hold =>
        CoalescedPush(actions, HoldNow);
        pushed := output + [HoldNow];
      case RotateCW => pushed := RotateAndCut(actions, Clockwise, output);
      case RotateCCW => pushed := RotateAndCut(actions, Counterclockwise, output);
      case Rotate180 => pushed := RotateAndCut(actions, HalfTurn, output);
      case Forfeit =>
        CoalescedPush(actions, ForfeitNow);
        pushed := output + [ForfeitNow];
      case Retry =>
        CoalescedPush(actions, RetryNow);
        pushed := output + [RetryNow];
      case OpenChat =>
        CoalescedPush(actions, OpenChatNow);
        pushed := output + [OpenChatNow];
      case _ => pushed := output;
    }

    method PressBinding(ghost actions: seq<Expanded>, code: Code, a: ActionName, output: seq<Expanded>)
      returns (pushed: seq<Expanded>)
      requires output == Coalesced(actions)
      modifies this
      ensures var o := PressOne(config, Outcome(old(View()), actions), code, a);
              View() == o.engine && pushed == Coalesced(o.actions)
    {
      hide Coalesced, Append, SelectDirection, PressAction;
      var direction := DirectionOf(a);
      var count := CountOf(heldCounts, a);
      heldCounts := heldCounts[a := count + 1];
      pushed := output;
      if direction.Some? {
        directionOrder := directionOrder + [Press(code, direction.value)];
        if count == 0 || activeDirection != direction {
          pushed := Select(actions, direction, output);
        }
      } else if count == 0 {
        pushed := PressBoundAction(actions, a, output);
      }
    }

    method KeyGoesDown(code: Code, repeated: bool, at: real) returns (threw: bool, output: seq<Expanded>)
      modifies this
      ensures threw <==> KeyDown(config, old(View()), code, repeated, at).None?
      ensures threw ==> View() == old(View()) && output == []
      ensures !threw ==> var o := KeyDown(config, old(View()), code, repeated, at).value;
                         View() == o.engine && output == Coalesced(o.actions)
    {
      hide Coalesced, AdvanceTo, PressOne;
      threw, output := AdvanceClock(at);
      if threw || repeated || code in pressedCodes {
        return;
      }
      ghost var o := AdvanceTo(config, old(View()), at);
      pressedCodes := pressedCodes + {code};
      ghost var start := Outcome(View(), o.actions);
      ghost var current := start;
      var bound := Bound(config, code);
      for i := 0 to |bound|
        invariant View() == current.engine && output == Coalesced(current.actions)
        invariant PressAll(config, current, code, bound[i..]) == PressAll(config, start, code, bound)
      {
        assert bound[i..][0] == bound[i] && bound[i..][1..] == bound[i + 1..];
        output := PressBinding(current.actions, code, bound[i], output);
        current := PressOne(config, current, code, bound[i]);
      }
    }

    /** Searches the presses from the newest down. */
    method RemoveDirectionPress(code: Code, direction: Direction)
      modifies this`directionOrder
      ensures directionOrder == RemovePress(old(directionOrder), Press(code, direction))
    {
      var p := Press(code, direction);
      var i := |directionOrder|;
      assert directionOrder[..i] == directionOrder && directionOrder[i..] == [];
      while i > 0
        invariant 0 <= i <= |directionOrder| && directionOrder == old(directionOrder)
        invariant RemovePress(directionOrder, p) == RemovePress(directionOrder[..i], p) + directionOrder[i..]
      {
        i := i - 1;
        assert directionOrder[..i + 1][..i] == directionOrder[..i];
        assert [directionOrder[i]] + directionOrder[i + 1..] == directionOrder[i..];
        if directionOrder[i] == p {
          directionOrder := directionOrder[..i] + directionOrder[i + 1..];
          return;
        }
      }
    }

    method ReleaseBinding(code: Code, a: ActionName)
      modifies this`heldCounts, this`directionOrder, this`nextSoftDropAt
      ensures View() == ReleaseOne(old(View()), code, a)
    {
      var direction := DirectionOf(a);
      var count := CountOf(heldCounts, a);
      if direction.Some? {
        RemoveDirectionPress(code, direction.value);
        heldCounts := if count <= 1 then heldCounts - {a} else heldCounts[a := count - 1];
        return;
      }
      if count <= 1 {
        heldCounts := heldCounts - {a};
        if a == SoftDrop {
          nextSoftDropAt := None;
        }
      } else {
        heldCounts := heldCounts[a := count - 1];
      }
    }

    method KeyGoesUp(code: Code, at: real) returns (threw: bool, output: seq<Expanded>)
      modifies this
      ensures threw <==> KeyUp(config, old(View()), code, at).None?
      ensures threw ==> View() == old(View()) && output == []
      ensures !threw ==> var o := KeyUp(config, old(View()), code, at).value;
                         View() == o.engine && output == Coalesced(o.actions)
    {
      hide Coalesced, AdvanceTo, ReleaseOne, SelectDirection;
      threw, output := AdvanceClock(at);
      if threw || code !in pressedCodes {
        return;
      }
      ghost var o := AdvanceTo(config, old(View()), at);
      pressedCodes := pressedCodes - {code};
      ghost var start := View();
      var bound := Bound(config, code);
      for i := 0 to |bound|
        invariant ReleaseAll(View(), code, bound[i..]) == ReleaseAll(start, code, bound)
      {
        assert bound[i..][0] == bound[i] && bound[i..][1..] == bound[i + 1..];
        ReleaseBinding(code, bound[i]);
      }
      var next := if directionOrder == [] then None else Some(directionOrder[|directionOrder| - 1].direction);
      output := Select(o.actions, next, output);
    }

    method NotifyPieceSpawned(at: real, automatic: bool) returns (threw: bool, output: seq<Expanded>)
      modifies this
      ensures threw <==> Spawned(config, old(View()), at, automatic).None?
      ensures threw ==> View() == old(View()) && output == []
      ensures !threw ==> var o := Spawned(config, old(View()), at, automatic).value;
                         View() == o.engine && output == Coalesced(o.actions)
    {
      hide Coalesced, AdvanceTo, CutDas, RestartSoftDrop;
      if at < 0.0 || at < nowMs {
        return true, [];
      }
      CutDasAt(at);
      ghost var cut := View();
      threw, output := AdvanceClock(at);
      hardDropBlockedUntilMs := if automatic && config.safeLock then Some(at + SAFE_LOCK_MS) else None;
      output := RestartHeldSoftDrop(AdvanceTo(config, cut, at).actions, output);
    }

    method BlurAt(at: real) returns (threw: bool)
      modifies this
      ensures threw <==> Blur(old(View()), at).None?
      ensures View() == Blur(old(View()), at).GetOr(old(View()))
    {
      if at < 0.0 || at < nowMs {
        return true;
      }
      nowMs := at;
      pressedCodes := {};
      heldCounts := map[];
      directionOrder := [];
      activeDirection := None;
      horizontalCharged := false;
      nextHorizontalAt := None;
      nextSoftDropAt := None;
      return false;
    }
  }
}

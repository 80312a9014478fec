/**
 What keys do, read off the calls: which actions a key produces when it goes down, when a hard drop is held back after an
 automatic spawn, and how a direction starts, turns and is taken back.
 */
module HandlingKeys {
  import opened Wrappers
  import opened Handling
  import opened HandlingLaws
  import opened HandlingOrder

  // ---------------------------------------------------------------- commands

  /** Shifts and soft drop cells come from timers and directions; everything else is a command a key asks for. */
  predicate IsMovement(x: Expanded) { x.Shift? || x.SoftDropCells? }

  function Commands(actions: seq<Expanded>): seq<Expanded> {
    if actions == [] then []
    else if IsMovement(actions[|actions| - 1]) then Commands(actions[..|actions| - 1])
    else Commands(actions[..|actions| - 1]) + [actions[|actions| - 1]]
  }

  lemma {:induction false} CommandsAppend(a: seq<Expanded>, b: seq<Expanded>)
    ensures Commands(a + b) == Commands(a) + Commands(b)
    decreases |b|
  {
    if b == [] {
      assert a + b == a;
    } else {
      var n := |b| - 1;
      CommandsAppend(a, b[..n]);
      assert (a + b)[..|a + b| - 1] == a + b[..n];
    }
  }

  lemma CommandsOfOne(x: Expanded)
    ensures Commands([x]) == if IsMovement(x) then [] else [x]
  {
    assert [x][..0] == [];
  }

  lemma TicksCommandNothing(c: Config, e: Engine)
    ensures Commands(TickActions(c, e)) == []
  {
    var shift := if HorizontalDue(e) then ShiftOf(c, e) else [];
    if shift != [] {
      CommandsOfOne(shift[0]);
    }
    CommandsOfOne(SoftDropCells(1));
    CommandsAppend(shift, [SoftDropCells(1)]);
    CommandsAppend([SoftDropCells(1)], shift);
  }

  lemma TicksKeepTheKeys(c: Config, e: Engine)
    requires Earliest(e.nextH, e.nextS).Some?
    ensures var f := Tick(c, e);
            f.blockedUntil == e.blockedUntil && f.pressed == e.pressed && f.held == e.held && f.active == e.active
  {
  }

  lemma {:induction false} DrainCommandsNothing(c: Config, e: Engine, to: real, emitted: nat)
    ensures Commands(Drain(c, e, to, emitted).actions) == []
    ensures var f := Drain(c, e, to, emitted).engine;
            f.blockedUntil == e.blockedUntil && f.pressed == e.pressed && f.held == e.held && f.active == e.active
    decreases MAX_EMISSIONS - emitted
  {
    hide Tick, TickActions, TickCount, Commands, Earliest, Due;
    if emitted < MAX_EMISSIONS && Due(Earliest(e.nextH, e.nextS), to) {
      DueIsSome(Earliest(e.nextH, e.nextS), to);
      TicksCount(e);
      TicksKeepTheKeys(c, e);
      DrainCommandsNothing(c, Tick(c, e), to, emitted + TickCount(e));
      TicksCommandNothing(c, e);
      CommandsAppend(TickActions(c, e), Drain(c, Tick(c, e), to, emitted + TickCount(e)).actions);
    } else {
      NoCommands();
    }
  }

  lemma NoCommands()
    ensures Commands([]) == []
  {
  }

  lemma DueIsSome(t: Timer, to: real)
    requires Due(t, to)
    ensures t.Some?
  {
  }

  lemma TicksCount(e: Engine)
    requires Earliest(e.nextH, e.nextS).Some?
    ensures TickCount(e) > 0
  {
  }

  /** Time alone commands nothing and leaves the keys, the direction and the safe lock alone. */
  lemma TimeCommandsNothing(c: Config, e: Engine, to: real)
    ensures Commands(AdvanceTo(c, e, to).actions) == []
    ensures var f := AdvanceTo(c, e, to).engine;
            && f.blockedUntil == e.blockedUntil && f.pressed == e.pressed && f.held == e.held && f.active == e.active
            && f.now == to
  {
    DrainCommandsNothing(c, e, to, 0);
  }

  // ---------------------------------------------------------------- what a key asks for

  /** The command of an action; a hard drop is held back while the lock is safe, and a timed soft drop has none. */
  function Asked(c: Config, a: ActionName, safe: bool): seq<Expanded> {
    match a
    case HardDrop => if safe then [] else [HardDropNow]
    case SoftDrop => if c.factor.Sonic? then [SoftDropToFloor] else []
    case Hold => [HoldNow]
    case RotateCW => [Rotate(Clockwise)]
    case RotateCCW => [Rotate(Counterclockwise)]
    case Rotate180 => [Rotate(HalfTurn)]
    case Forfeit => [ForfeitNow]
    case Retry => [RetryNow]
    case OpenChat => [OpenChatNow]
    case MoveLeft => []
    case MoveRight => []
  }

  /** The commands of a list of bindings, in order: an action that is already held, or comes twice, asks only once. */
  function AskedAll(c: Config, held: set<ActionName>, actions: seq<ActionName>, safe: bool): seq<Expanded>
    decreases |actions|
  {
    if actions == [] then []
    else (if actions[0] in held then [] else Asked(c, actions[0], safe)) + AskedAll(c, held + {actions[0]}, actions[1..], safe)
  }

  predicate SafeAt(e: Engine) { e.blockedUntil.Some? && e.now < e.blockedUntil.value }

  predicate Holds(e: Engine, held: set<ActionName>) { forall a :: a in held <==> CountOf(e.held, a) > 0 }

  lemma DrainCurrentCommandsNothing(c: Config, o: Outcome)
    ensures Commands(DrainCurrent(c, o).actions) == Commands(o.actions)
    ensures var f := DrainCurrent(c, o).engine; f.held == o.engine.held && f.blockedUntil == o.engine.blockedUntil && f.now == o.engine.now
  {
    if Due(o.engine.nextH, o.engine.now) && o.engine.active.Some? {
      CommandsAppend(o.actions, ShiftOf(c, o.engine));
      CommandsOfOne(ShiftOf(c, o.engine)[0]);
    } else {
      assert o.actions + [] == o.actions;
    }
  }

  lemma SelectingCommandsNothing(c: Config, o: Outcome, direction: Option<Direction>)
    ensures Commands(SelectDirection(c, o, direction).actions) == Commands(o.actions)
    ensures var f := SelectDirection(c, o, direction).engine;
            f.held == o.engine.held && f.blockedUntil == o.engine.blockedUntil && f.now == o.engine.now
  {
    if direction.Some? && direction != o.engine.active {
      CommandsAppend(o.actions, [Shift(direction.value, false)]);
      CommandsOfOne(Shift(direction.value, false));
      DrainCurrentCommandsNothing(c, Outcome(Turned(c, o.engine, direction.value), o.actions + [Shift(direction.value, false)]));
    }
  }

  lemma PressingAsks(c: Config, o: Outcome, a: ActionName)
    requires DirectionOf(a).None? && a in o.engine.held
    ensures Commands(PressAction(c, o, a).actions) == Commands(o.actions) + Asked(c, a, SafeAt(o.engine))
    ensures var f := PressAction(c, o, a).engine;
            f.held == o.engine.held && f.blockedUntil == o.engine.blockedUntil && f.now == o.engine.now
  {
    hide DrainCurrent, CutDas, Commands;
    var asked := Asked(c, a, SafeAt(o.engine));
    if a.RotateCW? || a.RotateCCW? || a.Rotate180? {
      RotatingAsks(c, o, asked[0].turn);
    } else if asked != [] {
      CommandsAppend(o.actions, asked);
      CommandsOfOne(asked[0]);
    }
  }

  lemma RotatingAsks(c: Config, o: Outcome, turn: Turn)
    ensures Commands(Rotated(c, o, turn).actions) == Commands(o.actions) + [Rotate(turn)]
    ensures var f := Rotated(c, o, turn).engine;
            f.held == o.engine.held && f.blockedUntil == o.engine.blockedUntil && f.now == o.engine.now
  {
    hide DrainCurrent, Commands;
    CommandsAppend(o.actions, [Rotate(turn)]);
    CommandsOfOne(Rotate(turn));
    DrainCurrentCommandsNothing(c, Outcome(CutDas(c, o.engine, o.engine.now), o.actions + [Rotate(turn)]));
  }

  lemma PressingOneAsks(c: Config, o: Outcome, code: Code, a: ActionName, held: set<ActionName>)
    requires Holds(o.engine, held)
    ensures var p := PressOne(c, o, code, a);
            && Commands(p.actions) == Commands(o.actions) + (if a in held then [] else Asked(c, a, SafeAt(o.engine)))
            && Holds(p.engine, held + {a}) && SafeAt(p.engine) == SafeAt(o.engine)
  {
    hide SelectDirection, PressAction, Commands;
    var counted := o.(engine := o.engine.(held := o.engine.held[a := CountOf(o.engine.held, a) + 1]));
    var direction := DirectionOf(a);
    if direction.Some? {
      SelectingCommandsNothing(
        c, counted.(engine := counted.engine.(order := o.engine.order + [Press(code, direction.value)])), direction);
    } else {
      PressingAsks(c, counted, a);
    }
    forall b ensures b in held + {a} <==> CountOf(counted.engine.held, b) > 0 {
    }
  }

  lemma {:induction false} PressingAllAsks(c: Config, o: Outcome, code: Code, actions: seq<ActionName>, held: set<ActionName>)
    requires Holds(o.engine, held)
    ensures Commands(PressAll(c, o, code, actions).actions)
         == Commands(o.actions) + AskedAll(c, held, actions, SafeAt(o.engine))
    decreases |actions|
  {
    hide PressOne, Commands, Holds, SafeAt;
    if actions != [] {
      PressingOneAsks(c, o, code, actions[0], held);
      PressingAllAsks(c, PressOne(c, o, code, actions[0]), code, actions[1..], held + {actions[0]});
    }
  }

  // ---------------------------------------------------------------- from the calls

  /** The actions that the keys in a set are bound to. */
  function ActionsOf(c: Config, pressed: set<Code>): set<ActionName> {
    set code, a | code in pressed && a in Bound(c, code) :: a
  }

  lemma {:induction false} HeldByIsBound(c: Config, pressed: set<Code>, a: ActionName)
    ensures HeldBy(c, pressed, a) > 0 <==> a in ActionsOf(c, pressed)
    decreases |pressed|
  {
    if pressed != {} {
      var code :| code in pressed;
      HeldBySplits(c, pressed, code, a);
      HeldByIsBound(c, pressed - {code}, a);
      OccurringIsBound(Bound(c, code), a);
      assert a in ActionsOf(c, pressed) <==> a in Bound(c, code) || a in ActionsOf(c, pressed - {code});
    }
  }

  /** The last spawn notice among the calls that were taken: when it came, and whether the spawn was automatic. */
  function LastNotice(c: Config, start: real, calls: seq<Call>): Option<(real, bool)>
    decreases |calls|
  {
    if calls == [] then None
    else
      var before, call := calls[..|calls| - 1], calls[|calls| - 1];
      if call.SpawnNotice? && Forward(Ran(c, start, before), call.at) then Some((call.at, call.automatic))
      else LastNotice(c, start, before)
  }

  /** The lock is safe for two frames at sixty hertz after an automatic spawn, if the player has it on. */
  predicate Safe(c: Config, notice: Option<(real, bool)>, at: real) {
    notice.Some? && notice.value.1 && c.safeLock && at < notice.value.0 + 2000.0 / 60.0
  }

  predicate GuardedBy(c: Config, e: Engine, notice: Option<(real, bool)>) {
    e.blockedUntil == if notice.Some? && notice.value.1 && c.safeLock then Some(notice.value.0 + 2000.0 / 60.0) else None
  }

  lemma PressingOneKeepsGuard(c: Config, o: Outcome, code: Code, a: ActionName)
    ensures PressOne(c, o, code, a).engine.blockedUntil == o.engine.blockedUntil
  {
  }

  lemma {:induction false} PressingAllKeepsGuard(c: Config, o: Outcome, code: Code, actions: seq<ActionName>)
    ensures PressAll(c, o, code, actions).engine.blockedUntil == o.engine.blockedUntil
    decreases |actions|
  {
    hide PressOne;
    if actions != [] {
      PressingOneKeepsGuard(c, o, code, actions[0]);
      PressingAllKeepsGuard(c, PressOne(c, o, code, actions[0]), code, actions[1..]);
    }
  }

  lemma {:induction false} ReleasingAllKeepsGuard(e: Engine, code: Code, actions: seq<ActionName>)
    ensures ReleaseAll(e, code, actions).blockedUntil == e.blockedUntil
    decreases |actions|
  {
    if actions != [] {
      ReleasingAllKeepsGuard(ReleaseOne(e, code, actions[0]), code, actions[1..]);
    }
  }

  lemma CallsKeepGuard(c: Config, e: Engine, call: Call)
    requires Forward(e, call.at)
    ensures Perform(c, e, call).blockedUntil ==
            if call.SpawnNotice? then (if call.automatic && c.safeLock then Some(call.at + 2000.0 / 60.0) else None)
            else e.blockedUntil
  {
    hide AdvanceTo, PressAll, ReleaseAll;
    TimeCommandsNothing(c, e, call.at);
    var o := AdvanceTo(c, e, call.at);
    match call
    case AdvanceCall(_) =>
    case Down(code, _, _) =>
      PressingAllKeepsGuard(c, o.(engine := o.engine.(pressed := o.engine.pressed + {code})), code, Bound(c, code));
    case Up(code, _) => ReleasingAllKeepsGuard(o.engine.(pressed := o.engine.pressed - {code}), code, Bound(c, code));
    case SpawnNotice(_, _) =>
    case BlurCall(_) =>
  }

  lemma {:induction false} GuardFollowsTheNotices(c: Config, start: real, calls: seq<Call>)
    ensures GuardedBy(c, Ran(c, start, calls), LastNotice(c, start, calls))
    decreases |calls|
  {
    hide Perform;
    if calls != [] {
      var before, call := calls[..|calls| - 1], calls[|calls| - 1];
      GuardFollowsTheNotices(c, start, before);
      if Forward(Ran(c, start, before), call.at) {
        CallsKeepGuard(c, Ran(c, start, before), call);
      } else {
        RefusedCallsChangeNothing(c, Ran(c, start, before), call);
      }
    }
  }

  lemma RefusedCallsChangeNothing(c: Config, e: Engine, call: Call)
    requires !Forward(e, call.at)
    ensures Perform(c, e, call) == e
  {
  }

  /**
   What a key produces, after every sequence of calls: a key that is already down, or repeats, commands nothing; one that
   goes down commands what its bindings ask for, in their order, except for actions that another pressed key holds. A hard
   drop is held back exactly during the two frames after an automatic spawn, if the player has the safe lock on.
   */
  lemma KeysCommandTheirBindings(c: Config, start: real, calls: seq<Call>, code: Code, repeated: bool, at: real)
    requires Forward(Ran(c, start, calls), at)
    ensures var e := Ran(c, start, calls);
            Commands(KeyDown(c, e, code, repeated, at).value.actions) ==
            if repeated || code in e.pressed then []
            else AskedAll(c, ActionsOf(c, e.pressed), Bound(c, code), Safe(c, LastNotice(c, start, calls), at))
  {
    hide Ran, AdvanceTo, PressAll, Commands, LastNotice, AskedAll;
    var e := Ran(c, start, calls);
    TimeCommandsNothing(c, e, at);
    GuardFollowsTheNotices(c, start, calls);
    if !repeated && code !in e.pressed {
      var o := AdvanceTo(c, e, at);
      var pressing := o.(engine := o.engine.(pressed := o.engine.pressed + {code}));
      HeldIsBound(c, start, calls);
      PressingAllAsks(c, pressing, code, Bound(c, code), ActionsOf(c, e.pressed));
    }
  }

  lemma HeldIsBound(c: Config, start: real, calls: seq<Call>)
    ensures Holds(Ran(c, start, calls), ActionsOf(c, Ran(c, start, calls).pressed))
  {
    hide Ran;
    var e := Ran(c, start, calls);
    forall a ensures a in ActionsOf(c, e.pressed) <==> CountOf(e.held, a) > 0 {
      HeldKeysDecide(c, start, calls, a);
      HeldByIsBound(c, e.pressed, a);
    }
  }

  /** Nothing else commands anything, but a spawn that finds a sonic soft drop held drops the new piece at once. */
  lemma OtherCallsCommandNothing(c: Config, start: real, calls: seq<Call>, code: Code, at: real, automatic: bool)
    requires Forward(Ran(c, start, calls), at)
    ensures var e := Ran(c, start, calls);
            && Commands(Advance(c, e, at).value.actions) == []
            && Commands(KeyUp(c, e, code, at).value.actions) == []
            && Commands(Spawned(c, e, at, automatic).value.actions) ==
               if SoftDrop in ActionsOf(c, e.pressed) && c.factor.Sonic? then [SoftDropToFloor] else []
  {
    hide Ran, AdvanceTo, SelectDirection, ReleaseAll, Commands;
    var e := Ran(c, start, calls);
    TimeCommandsNothing(c, e, at);
    TimeCommandsNothing(c, CutDas(c, e, at), at);
    var o := AdvanceTo(c, e, at);
    var released := o.(engine := Released(o.engine, code, Bound(c, code)));
    SelectingCommandsNothing(c, released, Newest(released.engine.order));
    HeldKeysDecide(c, start, calls, SoftDrop);
    HeldByIsBound(c, e.pressed, SoftDrop);
    var spawned := AdvanceTo(c, CutDas(c, e, at), at);
    CommandsAppend(spawned.actions, [SoftDropToFloor]);
    CommandsOfOne(SoftDropToFloor);
  }

  // ---------------------------------------------------------------- directions

  /**
   A turn: the engine steps once in the new direction at once. Coming from rest, or with auto shift cancellation on, the
   delay starts over; otherwise a running delay or repeat goes on for the new direction, and a charged shift to the wall is
   due immediately. Taking back the last direction stops the auto shift.
   */
  lemma TurnsStepAtOnce(c: Config, o: Outcome, direction: Option<Direction>)
    requires direction != o.engine.active
    ensures var t := SelectDirection(c, o, direction);
            var e, f := o.engine, t.engine;
            && f.active == direction
            && (direction.None? ==> t.actions == o.actions && f.nextH.None? && !f.charged)
            && (direction.Some? ==>
                var first := o.actions + [Shift(direction.value, false)];
                if e.active.None? || c.dasCancellation then
                  if c.das > 0.0 then t.actions == first && f.nextH == Some(e.now + c.das) && !f.charged
                  else t.actions == first + [Shift(direction.value, c.arr == 0.0)] && f.charged
                else if e.charged && c.arr == 0.0 then
                  t.actions == first + [Shift(direction.value, true)] && f.charged && f.nextH.None?
                else if Due(e.nextH, e.now) then t.actions == first + [Shift(direction.value, c.arr == 0.0)]
                else t.actions == first && f.nextH == e.nextH && f.charged == e.charged)
  {
  }

  /** The direction key's side of a call: it turns the engine exactly when the direction held by the keys changes. */
  lemma DirectionKeysTurn(c: Config, start: real, calls: seq<Call>, code: Code, direction: Direction, at: real)
    requires Forward(Ran(c, start, calls), at)
    requires Bound(c, code) == [if direction.Left? then MoveLeft else MoveRight]
    ensures var e := Ran(c, start, calls);
            var o, t := AdvanceTo(c, e, at), KeyDown(c, e, code, false, at).value;
            && t.engine.active == (if code in e.pressed then e.active else Some(direction))
            && (code in e.pressed || e.active == Some(direction) ==> t.actions == o.actions)
            && (code !in e.pressed && e.active != Some(direction) ==>
                o.actions + [Shift(direction, false)] <= t.actions && |t.actions| <= |o.actions| + 2)
  {
    hide Ran, AdvanceTo, SelectDirection;
    var e := Ran(c, start, calls);
    TimeCommandsNothing(c, e, at);
    var o := AdvanceTo(c, e, at);
    var a := if direction.Left? then MoveLeft else MoveRight;
    if code !in e.pressed {
      var pressing := o.(engine := o.engine.(pressed := o.engine.pressed + {code}));
      PressAllOfOne(c, pressing, code, a);
      var counted := pressing.engine.(
        held := pressing.engine.held[a := CountOf(pressing.engine.held, a) + 1],
        order := pressing.engine.order + [Press(code, direction)]);
      SelectingSteps(c, pressing.(engine := counted), direction);
    }
  }

  lemma PressAllOfOne(c: Config, o: Outcome, code: Code, a: ActionName)
    ensures PressAll(c, o, code, [a]) == PressOne(c, o, code, a)
  {
    assert [a][1..] == [];
  }

  lemma SelectingSteps(c: Config, o: Outcome, direction: Direction)
    ensures var t := SelectDirection(c, o, Some(direction));
            && t.engine.active == Some(direction)
            && (o.engine.active == Some(direction) ==> t == o)
            && (o.engine.active != Some(direction) ==>
                o.actions + [Shift(direction, false)] <= t.actions && |t.actions| <= |o.actions| + 2)
  {
  }
}

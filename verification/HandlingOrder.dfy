/**
 Which direction a player holds, told from the calls alone: the keys that are down, in the order they went down.
 */
module HandlingOrder {
  import opened Wrappers
  import opened Handling
  import opened HandlingLaws

  // ---------------------------------------------------------------- the keys that are down

  /** Without the last occurrence of a key. */
  function Without(codes: seq<Code>, code: Code): seq<Code>
    decreases |codes|
  {
    if codes == [] then []
    else
      var n := |codes| - 1;
      if codes[n] == code then codes[..n] else Without(codes[..n], code) + [codes[n]]
  }

  function KeysAfter(codes: seq<Code>, call: Call): seq<Code> {
    match call
    case Down(code, repeated, _) => if repeated || code in codes then codes else codes + [code]
    case Up(code, _) => Without(codes, code)
    case BlurCall(_) => []
    case _ => codes
  }

  /** The keys that are down after some calls, in the order they went down; calls that throw do not count. */
  function KeysDown(c: Config, start: real, calls: seq<Call>): seq<Code>
    decreases |calls|
  {
    if calls == [] then []
    else
      var before, call := KeysDown(c, start, calls[..|calls| - 1]), calls[|calls| - 1];
      if Forward(Ran(c, start, calls[..|calls| - 1]), call.at) then KeysAfter(before, call) else before
  }

  /** The last direction among the bindings of a key. */
  function LastDirection(actions: seq<ActionName>): Option<Direction>
    decreases |actions|
  {
    if actions == [] then None
    else if DirectionOf(actions[|actions| - 1]).Some? then DirectionOf(actions[|actions| - 1])
    else LastDirection(actions[..|actions| - 1])
  }

  /** The direction of the newest key that is down and bound to one. */
  function HeldDirection(c: Config, codes: seq<Code>): Option<Direction>
    decreases |codes|
  {
    if codes == [] then None
    else
      var d := LastDirection(Bound(c, codes[|codes| - 1]));
      if d.Some? then d else HeldDirection(c, codes[..|codes| - 1])
  }

  // ---------------------------------------------------------------- the presses they make

  function KeyPresses(code: Code, actions: seq<ActionName>): seq<Press>
    decreases |actions|
  {
    if actions == [] then []
    else if DirectionOf(actions[0]).Some? then [Press(code, DirectionOf(actions[0]).value)] + KeyPresses(code, actions[1..])
    else KeyPresses(code, actions[1..])
  }

  function Presses(c: Config, codes: seq<Code>): seq<Press>
    decreases |codes|
  {
    if codes == [] then []
    else
      var n := |codes| - 1;
      Presses(c, codes[..n]) + KeyPresses(codes[n], Bound(c, codes[n]))
  }

  lemma PressesOfOneMore(c: Config, codes: seq<Code>, code: Code)
    ensures Presses(c, codes + [code]) == Presses(c, codes) + KeyPresses(code, Bound(c, code))
  {
    assert (codes + [code])[..|codes|] == codes;
  }

  lemma {:induction false} PressesJoin(c: Config, front: seq<Code>, back: seq<Code>)
    ensures Presses(c, front + back) == Presses(c, front) + Presses(c, back)
    decreases |back|
  {
    if back == [] {
      assert front + back == front;
      assert Presses(c, front) + [] == Presses(c, front);
    } else {
      hide Presses, KeyPresses, Bound;
      var rest, code := back[..|back| - 1], back[|back| - 1];
      assert back == rest + [code] && front + back == (front + rest) + [code];
      PressesJoin(c, front, rest);
      PressesOfOneMore(c, front + rest, code);
      PressesOfOneMore(c, rest, code);
    }
  }

  lemma {:induction false} KeyPressesAreOfTheKey(code: Code, actions: seq<ActionName>)
    ensures forall p | p in KeyPresses(code, actions) :: p.code == code
    decreases |actions|
  {
    if actions != [] {
      KeyPressesAreOfTheKey(code, actions[1..]);
    }
  }

  lemma {:induction false} PressesAreOfTheKeys(c: Config, codes: seq<Code>)
    ensures forall p | p in Presses(c, codes) :: p.code in codes
    decreases |codes|
  {
    if codes != [] {
      var n := |codes| - 1;
      PressesAreOfTheKeys(c, codes[..n]);
      KeyPressesAreOfTheKey(codes[n], Bound(c, codes[n]));
    }
  }

  lemma {:induction false} LastPressHasTheLastDirection(code: Code, actions: seq<ActionName>)
    ensures Newest(KeyPresses(code, actions)) == LastDirection(actions)
    decreases |actions|
  {
    if actions != [] {
      var n := |actions| - 1;
      LastPressHasTheLastDirection(code, actions[..n]);
      KeyPressesJoin(code, actions[..n], actions[n]);
      assert actions == actions[..n] + [actions[n]];
    }
  }

  lemma {:induction false} KeyPressesJoin(code: Code, actions: seq<ActionName>, a: ActionName)
    ensures KeyPresses(code, actions + [a])
            == if DirectionOf(a).Some? then KeyPresses(code, actions) + [Press(code, DirectionOf(a).value)]
               else KeyPresses(code, actions)
    decreases |actions|
  {
    if actions == [] {
      assert [a][1..] == [] && [] + [a] == [a];
    } else {
      assert (actions + [a])[1..] == actions[1..] + [a];
      KeyPressesJoin(code, actions[1..], a);
    }
  }

  lemma {:induction false} NewestPressIsTheHeldDirection(c: Config, codes: seq<Code>)
    ensures Newest(Presses(c, codes)) == HeldDirection(c, codes)
    decreases |codes|
  {
    if codes != [] {
      var n := |codes| - 1;
      NewestPressIsTheHeldDirection(c, codes[..n]);
      LastPressHasTheLastDirection(codes[n], Bound(c, codes[n]));
    }
  }

  // ---------------------------------------------------------------- pressing

  lemma SelectingKeepsKeys(c: Config, o: Outcome, direction: Option<Direction>)
    ensures SelectDirection(c, o, direction).engine.order == o.engine.order
    ensures SelectDirection(c, o, direction).engine.pressed == o.engine.pressed
  {
  }

  lemma ActingKeepsKeys(c: Config, o: Outcome, a: ActionName)
    ensures PressAction(c, o, a).engine.order == o.engine.order && PressAction(c, o, a).engine.pressed == o.engine.pressed
  {
  }

  lemma PressingOneRecords(c: Config, o: Outcome, code: Code, a: ActionName)
    ensures var e, f := o.engine, PressOne(c, o, code, a).engine;
            && f.pressed == e.pressed
            && f.order == if DirectionOf(a).Some? then e.order + [Press(code, DirectionOf(a).value)] else e.order
  {
    hide SelectDirection, PressAction;
    var e := o.engine;
    var counted := o.(engine := e.(held := e.held[a := CountOf(e.held, a) + 1]));
    if DirectionOf(a).Some? {
      var d := DirectionOf(a);
      SelectingKeepsKeys(c, counted.(engine := counted.engine.(order := e.order + [Press(code, d.value)])), d);
    } else {
      ActingKeepsKeys(c, counted, a);
    }
  }

  lemma {:induction false} PressingAllRecords(c: Config, o: Outcome, code: Code, actions: seq<ActionName>)
    ensures var e, f := o.engine, PressAll(c, o, code, actions).engine;
            f.pressed == e.pressed && f.order == e.order + KeyPresses(code, actions)
    decreases |actions|
  {
    if actions != [] {
      hide PressOne;
      PressingOneRecords(c, o, code, actions[0]);
      PressingAllRecords(c, PressOne(c, o, code, actions[0]), code, actions[1..]);
    }
  }

  // ---------------------------------------------------------------- releasing

  lemma {:induction false} RemovingFromTheMiddle(front: seq<Press>, middle: seq<Press>, back: seq<Press>, p: Press)
    requires PressCount(middle, p) > 0 && p !in back
    ensures RemovePress(front + middle + back, p) == front + RemovePress(middle, p) + back
    decreases |middle| + |back|
  {
    var order := front + middle + back;
    var n := |order| - 1;
    if back != [] {
      var m := |back| - 1;
      assert order[..n] == front + middle + back[..m] && order[n] == back[m] && back[m] in back;
      RemovingFromTheMiddle(front, middle, back[..m], p);
    } else {
      var m := |middle| - 1;
      assert order[..n] == front + middle[..m] && order[n] == middle[m];
      if middle[m] != p {
        assert front + middle[..m] + [] == front + middle[..m];
        RemovingFromTheMiddle(front, middle[..m], [], p);
      }
    }
  }

  lemma NothingCounted(presses: seq<Press>)
    requires forall p: Press :: PressCount(presses, p) == 0
    ensures presses == []
  {
    if presses != [] {
      CountedPressExists(presses, 0);
    }
  }

  lemma {:induction false} CountingFromTheFront(p: Press, presses: seq<Press>, q: Press)
    ensures PressCount([p] + presses, q) == (if p == q then 1 else 0) + PressCount(presses, q)
    decreases |presses|
  {
    if presses == [] {
      assert [p] + presses == [p] && [p][..0] == [];
    } else {
      var n := |presses| - 1;
      assert ([p] + presses)[..n + 1] == [p] + presses[..n];
      CountingFromTheFront(p, presses[..n], q);
    }
  }

  /** Releasing a key removes its presses and no others, whatever lies around them. */
  lemma {:induction false} ReleasingAllForgets(
    e: Engine, code: Code, actions: seq<ActionName>, front: seq<Press>, middle: seq<Press>, back: seq<Press>)
    requires e.order == front + middle + back && forall p | p in back :: p.code != code
    requires forall p: Press :: PressCount(middle, p) == PressCount(KeyPresses(code, actions), p)
    ensures var f := ReleaseAll(e, code, actions);
            f.order == front + back && f.pressed == e.pressed
    decreases |actions|
  {
    if actions == [] {
      NothingCounted(middle);
    } else {
      var next := ReleaseOne(e, code, actions[0]);
      var rest := KeyPresses(code, actions[1..]);
      if DirectionOf(actions[0]).Some? {
        var p := Press(code, DirectionOf(actions[0]).value);
        forall q: Press
          ensures PressCount(RemovePress(middle, p), q) == PressCount(rest, q)
        {
          CountingFromTheFront(p, rest, q);
          CountingFromTheFront(p, rest, p);
          RemovingUncounts(middle, p, q);
        }
        CountingFromTheFront(p, rest, p);
        RemovingFromTheMiddle(front, middle, back, p);
        ReleasingAllForgets(next, code, actions[1..], front, RemovePress(middle, p), back);
      } else {
        ReleasingAllForgets(next, code, actions[1..], front, middle, back);
      }
    }
  }

  /** Where a key that is down stands among the others. */
  lemma {:induction false} SplitAt(codes: seq<Code>, code: Code) returns (front: seq<Code>, back: seq<Code>)
    requires code in codes
    ensures codes == front + [code] + back && code !in back && Without(codes, code) == front + back
    decreases |codes|
  {
    var n := |codes| - 1;
    if codes[n] == code {
      front, back := codes[..n], [];
    } else {
      assert codes == codes[..n] + [codes[n]];
      front, back := SplitAt(codes[..n], code);
      back := back + [codes[n]];
    }
  }

  // ---------------------------------------------------------------- whole runs

  /** The engine records exactly the presses of the keys that are down. */
  ghost predicate Recorded(c: Config, e: Engine, codes: seq<Code>) {
    && e.order == Presses(c, codes)
    && (forall code :: code in e.pressed <==> code in codes)
    && (forall i, j | 0 <= i < j < |codes| :: codes[i] != codes[j])
  }

  lemma SameKeysAreRecorded(c: Config, e: Engine, f: Engine, codes: seq<Code>)
    requires Recorded(c, e, codes) && f.order == e.order && f.pressed == e.pressed
    ensures Recorded(c, f, codes)
  {
  }

  lemma KeyDownIsRecorded(c: Config, o: Outcome, codes: seq<Code>, code: Code)
    requires Recorded(c, o.engine, codes) && code !in codes
    ensures var pressing := o.(engine := o.engine.(pressed := o.engine.pressed + {code}));
            Recorded(c, PressAll(c, pressing, code, Bound(c, code)).engine, codes + [code])
  {
    assert (codes + [code])[..|codes|] == codes;
    PressingAllRecords(c, o.(engine := o.engine.(pressed := o.engine.pressed + {code})), code, Bound(c, code));
  }

  /** The presses of a key lie between those of the keys around it. */
  lemma PressesSplit(c: Config, front: seq<Code>, code: Code, back: seq<Code>)
    ensures Presses(c, front + [code] + back)
            == Presses(c, front) + KeyPresses(code, Bound(c, code)) + Presses(c, back)
  {
    PressesJoin(c, front + [code], back);
    PressesJoin(c, front, [code]);
    assert [code][..0] == [] && Presses(c, []) == [];
  }

  lemma SplitKeepsOthers(front: seq<Code>, code: Code, back: seq<Code>)
    requires var codes := front + [code] + back; forall i, j | 0 <= i < j < |codes| :: codes[i] != codes[j]
    ensures var rest := front + back; forall i, j | 0 <= i < j < |rest| :: rest[i] != rest[j]
    ensures forall other :: other in front + back <==> other in front + [code] + back && other != code
  {
    var codes, rest, k := front + [code] + back, front + back, |front|;
    assert codes[k] == code;
    assert forall i | 0 <= i < |rest| :: rest[i] == codes[if i < k then i else i + 1];
    assert forall i | 0 <= i < |codes| && i != k :: codes[i] == rest[if i < k then i else i - 1];
  }

  lemma KeyUpIsRecorded(c: Config, e: Engine, codes: seq<Code>, code: Code)
    requires Recorded(c, e, codes) && code in codes
    ensures Recorded(c, Released(e, code, Bound(c, code)), Without(codes, code))
  {
    hide Presses, KeyPresses, ReleaseAll, Without, PressCount;
    var front, back := SplitAt(codes, code);
    PressesSplit(c, front, code, back);
    PressesJoin(c, front, back);
    PressesAreOfTheKeys(c, back);
    SplitKeepsOthers(front, code, back);
    ReleasingAllForgets(e.(pressed := e.pressed - {code}), code, Bound(c, code), Presses(c, front),
                        KeyPresses(code, Bound(c, code)), Presses(c, back));
  }

  lemma NoticingIsRecorded(c: Config, e: Engine, at: real, automatic: bool, codes: seq<Code>)
    requires Consistent(c, e) && Forward(e, at) && Recorded(c, e, codes)
    ensures Recorded(c, Spawned(c, e, at, automatic).value.engine, codes)
  {
    hide AdvanceTo, Consistent, Presses;
    CuttingKeepsKeys(c, e, at);
    AdvancingStaysConsistent(c, CutDas(c, e, at), at);
  }

  lemma PerformingIsRecorded(c: Config, e: Engine, call: Call, codes: seq<Code>)
    requires Consistent(c, e) && Recorded(c, e, codes) && Forward(e, call.at)
    ensures Recorded(c, Perform(c, e, call), KeysAfter(codes, call))
  {
    hide AdvanceTo, PressAll, Released, SelectDirection, Spawned, Recorded, Consistent, Presses;
    AdvancingStaysConsistent(c, e, call.at);
    var o := AdvanceTo(c, e, call.at);
    SameKeysAreRecorded(c, e, o.engine, codes);
    match call
    case AdvanceCall(_) =>
    case Down(code, repeated, at) =>
      PressedAreDown(c, o.engine, codes, code);
      if !repeated && code !in codes {
        KeyDownIsRecorded(c, o, codes, code);
      }
    case Up(code, at) =>
      PressedAreDown(c, o.engine, codes, code);
      if code in codes {
        KeyUpIsRecorded(c, o.engine, codes, code);
        var released := o.(engine := Released(o.engine, code, Bound(c, code)));
        var selected := SelectDirection(c, released, Newest(released.engine.order));
        SelectingKeepsKeys(c, released, Newest(released.engine.order));
        SameKeysAreRecorded(c, released.engine, selected.engine, Without(codes, code));
      } else {
        WithoutNothing(codes, code);
      }
    case SpawnNotice(at, automatic) =>
      NoticingIsRecorded(c, e, at, automatic, codes);
    case BlurCall(at) => NothingIsRecorded(c, Blur(e, at).value);
  }

  lemma PressedAreDown(c: Config, e: Engine, codes: seq<Code>, code: Code)
    requires Recorded(c, e, codes)
    ensures code in e.pressed <==> code in codes
  {
  }

  lemma NothingIsRecorded(c: Config, e: Engine)
    requires e.order == [] && e.pressed == {}
    ensures Recorded(c, e, [])
  {
  }

  lemma {:induction false} WithoutNothing(codes: seq<Code>, code: Code)
    requires code !in codes
    ensures Without(codes, code) == codes
    decreases |codes|
  {
    if codes != [] {
      var n := |codes| - 1;
      assert codes[n] in codes;
      WithoutNothing(codes[..n], code);
      assert codes == codes[..n] + [codes[n]];
    }
  }

  lemma {:induction false} RunsAreRecorded(c: Config, start: real, calls: seq<Call>)
    ensures Recorded(c, Ran(c, start, calls), KeysDown(c, start, calls))
    decreases |calls|
  {
    hide Recorded, Perform, Consistent, KeysAfter;
    if calls == [] {
      NothingIsRecorded(c, Start(start));
    } else {
      var before, call := calls[..|calls| - 1], calls[|calls| - 1];
      RunsAreRecorded(c, start, before);
      RunsStayConsistent(c, start, before);
      var e := Ran(c, start, before);
      if Forward(e, call.at) {
        PerformingIsRecorded(c, e, call, KeysDown(c, start, before));
      } else {
        ThrowingChangesNothing(c, e, call);
      }
    }
  }

  lemma ThrowingChangesNothing(c: Config, e: Engine, call: Call)
    requires !Forward(e, call.at)
    ensures Perform(c, e, call) == e
  {
  }

  /**
   The newest key decides: after every sequence of calls the recorded presses are those of the keys that are down, in
   the order they went down and for each key in the order of its bindings, and the engine shifts in the direction of
   the newest key that is bound to one.
   */
  lemma NewestKeyDecides(c: Config, start: real, calls: seq<Call>)
    ensures var e, codes := Ran(c, start, calls), KeysDown(c, start, calls);
            && e.order == Presses(c, codes)
            && e.active == HeldDirection(c, codes)
            && (forall code :: code in e.pressed <==> code in codes)
            && (forall i, j | 0 <= i < j < |codes| :: codes[i] != codes[j])
  {
    hide Ran, KeysDown, Presses, HeldDirection;
    RunsAreRecorded(c, start, calls);
    RunsStayConsistent(c, start, calls);
    NewestPressIsTheHeldDirection(c, KeysDown(c, start, calls));
  }
}

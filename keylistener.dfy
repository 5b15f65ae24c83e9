/** The per-event body of `KeyListener.run` in `Screenkey/keylistener.py`, over an
    abstract queue of replayed events. Unlike the input listener, this loop
    rewrites every key event for the replay window before filtering it, and moves
    `last_ev` only when it has dispatched a KeyData. */
module KeyListener {
  import opened Wrappers
  import opened XProto
  import opened KeyDecode
  import InputListener

  /** Key events are handed to the input method as if sent to the replay window. */
  function Rewrite(ev: XEvent, c: ListenerConfig): (r: XEvent)
    ensures IsKeyEvent(ev) ==> r == ev.(sendEvent := false, window := c.replayWin)
    ensures !IsKeyEvent(ev) ==> r == ev
    ensures r.evType == ev.evType && r.state == ev.state && r.keycode == ev.keycode && r.time == ev.time
  {
    if IsKeyEvent(ev) then ev.(sendEvent := false, window := c.replayWin) else ev
  }

  /** The outcome of one event, and the `last_ev` the loop carries on with. */
  datatype Step = Step(action: Option<Action>, lastEv: XEvent)

  function KeyStep(ev: XEvent, pending: seq<XEvent>, lastEv: XEvent, c: ListenerConfig, o: XOracles): Step
  {
    if IsCustomMessage(ev, c) then
      Step(if IsFocusChange(ev.data0) then Some(ResetIC) else None, lastEv)
    else
      var kev := Rewrite(ev, c);
      if !IsKeyEvent(kev) then Step(None, lastEv)
      else if kev.evType == KeyRelease && PhantomRelease(pending, kev) then Step(None, lastEv)
      else Step(Some(Emit(NewKeyData(kev, lastEv, o.filter(kev), c.translate, o))), kev)
  }

  /** Lines 278-311, one event. */
  method ProcessEvent(ev: XEvent, pending: seq<XEvent>, lastEv: XEvent, c: ListenerConfig, o: XOracles)
    returns (out: Option<Action>, newLast: XEvent)
    ensures Step(out, newLast) == KeyStep(ev, pending, lastEv, c, o)
  {
    newLast := lastEv;
    var kev := ev;
    if kev.evType == ClientMessage && kev.messageType == c.customAtom {
      if kev.data0 == FocusIn || kev.data0 == FocusOut {
        return Some(ResetIC), newLast;
      }
      return None, newLast;
    } else if kev.evType == KeyPress || kev.evType == KeyRelease {
      kev := kev.(sendEvent := false, window := c.replayWin);
    }
    var filtered := o.filter(kev);
    if !(kev.evType == KeyPress || kev.evType == KeyRelease) {
      return None, newLast;
    }
    if kev.evType == KeyRelease && PhantomRelease(pending, kev) {
      return None, newLast;
    }
    var data := MakeKeyData(kev, lastEv, filtered, c.translate, o);
    out := Some(Emit(data));
    newLast := kev;
  }

  function Run(queue: seq<XEvent>, lastEv: XEvent, c: ListenerConfig, o: XOracles): seq<Action>
    decreases |queue|
  {
    if queue == [] then []
    else
      var s := KeyStep(queue[0], queue[1..], lastEv, c, o);
      OptionToSeq(s.action) + Run(queue[1..], s.lastEv, c, o)
  }

  method Dispatch(queue: seq<XEvent>, c: ListenerConfig, o: XOracles) returns (actions: seq<Action>)
    ensures actions == Run(queue, ZeroEvent, c, o)
  {
    var lastEv := ZeroEvent;
    actions := [];
    for i := 0 to |queue|
      invariant actions + Run(queue[i..], lastEv, c, o) == Run(queue, ZeroEvent, c, o)
    {
      assert queue[i..] == [queue[i]] + queue[i + 1..];
      var out, next := ProcessEvent(queue[i], queue[i + 1..], lastEv, c, o);
      actions := actions + OptionToSeq(out);
      lastEv := next;
    }
  }

  /** Whether event i of the queue is dispatched as a KeyData. */
  predicate Dispatched(queue: seq<XEvent>, i: nat, c: ListenerConfig)
    requires i < |queue|
  {
    !IsCustomMessage(queue[i], c) && IsKeyEvent(queue[i])
    && !(queue[i].evType == KeyRelease && PhantomRelease(queue[i + 1..], queue[i]))
  }

  /** The `last_ev` in force when event n is reached: the rewritten form of the
      latest dispatched event before it, or the initial one. */
  function LastDispatched(queue: seq<XEvent>, n: nat, first: XEvent, c: ListenerConfig): XEvent
    requires n <= |queue|
  {
    if n == 0 then first
    else if Dispatched(queue, n - 1, c) then Rewrite(queue[n - 1], c)
    else LastDispatched(queue, n - 1, first, c)
  }

  /** Which events a step dispatches, and that only those move `last_ev`:
      client messages, non-key events and phantom releases leave it alone. */
  lemma KeyStepOutcomes(ev: XEvent, pending: seq<XEvent>, lastEv: XEvent, c: ListenerConfig, o: XOracles)
    ensures var s := KeyStep(ev, pending, lastEv, c, o);
            (s.action == Some(ResetIC) <==> IsCustomMessage(ev, c) && IsFocusChange(ev.data0))
            && (s.action.Some? && s.action.value.Emit? <==>
                 !IsCustomMessage(ev, c) && IsKeyEvent(ev) && !(ev.evType == KeyRelease && PhantomRelease(pending, ev)))
            && (ev.evType == ClientMessage ==> s.action.None? || s.action == Some(ResetIC))
            && (s.lastEv == if s.action.Some? && s.action.value.Emit? then Rewrite(ev, c) else lastEv)
    ensures match KeyStep(ev, pending, lastEv, c, o).action
            case Some(Emit(d)) => d.repeated == Repeated(ev, lastEv) && d.filtered == o.filter(Rewrite(ev, c))
            case _ => true
  {
  }

  /** The actions of the events from n on, with the `last_ev` the loop holds on reaching n. */
  function RunFrom(queue: seq<XEvent>, n: nat, first: XEvent, c: ListenerConfig, o: XOracles): seq<Action>
    requires n <= |queue|
  {
    Run(queue[n..], LastDispatched(queue, n, first, c), c, o)
  }

  /** The loop's state after n events is LastDispatched: every Emit compares its
      event with the latest dispatched one, not with the event just before it. */
  lemma {:induction false} RunUnfolds(queue: seq<XEvent>, n: nat, first: XEvent, c: ListenerConfig, o: XOracles)
    requires n < |queue|
    ensures RunFrom(queue, n, first, c, o)
            == OptionToSeq(KeyStep(queue[n], queue[n + 1..], LastDispatched(queue, n, first, c), c, o).action)
               + RunFrom(queue, n + 1, first, c, o)
  {
    var last := LastDispatched(queue, n, first, c);
    var s := KeyStep(queue[n], queue[n + 1..], last, c, o);
    assert queue[n..][0] == queue[n] && queue[n..][1..] == queue[n + 1..];
    KeyStepOutcomes(queue[n], queue[n + 1..], last, c, o);
    assert s.lastEv == LastDispatched(queue, n + 1, first, c);
  }

  function PerEvent(queue: seq<XEvent>, first: XEvent, c: ListenerConfig, o: XOracles): seq<Option<Action>>
  {
    seq(|queue|, i requires 0 <= i < |queue| =>
      KeyStep(queue[i], queue[i + 1..], LastDispatched(queue, i, first, c), c, o).action)
  }

  lemma {:induction false} RunFromIsPerEvent(queue: seq<XEvent>, n: nat, first: XEvent, c: ListenerConfig, o: XOracles)
    requires n <= |queue|
    ensures RunFrom(queue, n, first, c, o) == Somes(PerEvent(queue, first, c, o)[n..])
    decreases |queue| - n
  {
    var p := PerEvent(queue, first, c, o);
    if n == |queue| {
      assert queue[n..] == [] && p[n..] == [];
    } else {
      var a := KeyStep(queue[n], queue[n + 1..], LastDispatched(queue, n, first, c), c, o).action;
      calc {
        RunFrom(queue, n, first, c, o);
        { RunUnfolds(queue, n, first, c, o); }
        OptionToSeq(a) + RunFrom(queue, n + 1, first, c, o);
        { RunFromIsPerEvent(queue, n + 1, first, c, o); }
        OptionToSeq(a) + Somes(p[n + 1..]);
        { PerEventUnfolds(queue, n, first, c, o); }
        Somes(p[n..]);
      }
    }
  }

  lemma PerEventUnfolds(queue: seq<XEvent>, n: nat, first: XEvent, c: ListenerConfig, o: XOracles)
    requires n < |queue|
    ensures Somes(PerEvent(queue, first, c, o)[n..])
            == OptionToSeq(KeyStep(queue[n], queue[n + 1..], LastDispatched(queue, n, first, c), c, o).action)
               + Somes(PerEvent(queue, first, c, o)[n + 1..])
  {
    var p := PerEvent(queue, first, c, o);
    var tail := p[n..];
    assert tail[0] == p[n] && tail[1..] == p[n + 1..];
  }

  /** A run is the concatenation of each event's own outcome, where event i is compared
      with the latest event dispatched before it. */
  lemma RunIsPerEvent(queue: seq<XEvent>, first: XEvent, c: ListenerConfig, o: XOracles)
    ensures Run(queue, first, c, o) == Somes(PerEvent(queue, first, c, o))
  {
    RunFromIsPerEvent(queue, 0, first, c, o);
    assert queue[0..] == queue;
    assert PerEvent(queue, first, c, o)[0..] == PerEvent(queue, first, c, o);
  }

  /** The two listeners part ways on a focus change between two presses of the same
      key: the input listener compares the second press with the focus message and
      reports it fresh, the key listener compares it with the first press and
      reports it repeated. */
  lemma FocusBetweenPresses(c: ListenerConfig, o: XOracles, a: XEvent)
    requires a.evType == KeyPress && c.customAtom != 0
    ensures var focus := ZeroEvent.(evType := ClientMessage, messageType := c.customAtom, data0 := FocusIn);
            var q := [a, focus, a];
            var k := Run(q, ZeroEvent, c, o);
            var i := InputListener.Run(q, ZeroEvent, true, c, o);
            |k| == 3 && |i| == 3 && k[1] == ResetIC && i[1] == ResetIC
            && k[2].Emit? && k[2].data.repeated
            && i[2].Emit? && !i[2].data.repeated
  {
    var focus := ZeroEvent.(evType := ClientMessage, messageType := c.customAtom, data0 := FocusIn);
    var q := [a, focus, a];
    assert q[1..] == [focus, a] && q[1..][1..] == [a] && q[1..][1..][1..] == [];
    var ra := Rewrite(a, c);
    var s0 := KeyStep(a, [focus, a], ZeroEvent, c, o);
    assert s0.lastEv == ra;
    var s1 := KeyStep(focus, [a], ra, c, o);
    assert s1 == Step(Some(ResetIC), ra);
    var s2 := KeyStep(a, [], ra, c, o);
    assert s2.action.Some? && s2.action.value.Emit? && s2.action.value.data.repeated;
    assert Run([a], ra, c, o) == [s2.action.value];
    assert Run([focus, a], ra, c, o) == [ResetIC, s2.action.value];
    assert s0.action.Some?;
    assert Run(q, ZeroEvent, c, o) == [s0.action.value, ResetIC, s2.action.value];
    var e2 := InputListener.KbdProcess(a, [], focus, c, o);
    assert e2.Some? && e2.value.Emit? && !e2.value.data.repeated;
    assert InputListener.Run([a], focus, true, c, o) == [e2.value];
    assert InputListener.Run([focus, a], a, true, c, o) == [ResetIC, e2.value];
    assert InputListener.KbdProcess(a, [focus, a], ZeroEvent, c, o).Some?;
  }
}

// Service lifecycles (service_states.go, service_manager.go): what the two managers do, as
// functions of everything that can happen to them.
module Lifecycle {
  import opened Orders

  datatype State = Unknown | Exit | Init | Idle | Run | Stop
  datatype Transition = TransitionUnknown | Entering | Exited
  datatype StateUpdate = StateUpdate(state: State, transition: Transition)

  // What a runner's method does: return nil, return an error, or panic. A cancellation error
  // differs from another error only in what is logged.
  datatype Result = Nil | Failed | Panicked

  datatype Call = Call(state: State, result: Result)

  // What can be observed of a manager: updates sent and runner methods called.
  datatype Event = Sent(update: StateUpdate) | Called(call: Call)

  datatype Manager = Continuous | UntilSuccess

  function Enters(s: State): Event { Sent(StateUpdate(s, Entering)) }
  function Leaves(s: State): Event { Sent(StateUpdate(s, Exited)) }

  // The state after runner method s returned r.
  function Next(m: Manager, s: State, r: Result): State {
    match s
    case Init => if r == Nil then Idle else Stop
    case Idle => if r == Nil then Run else Stop
    case Run => if m == UntilSuccess && r == Nil then Exit else Stop
    case Stop => if m == UntilSuccess && r != Nil then Stop else Init
    case _ => s
  }

  // The code after the loop: a last Stop unless one has just run, then the final update.
  function Finish(hasStopped: bool, final: Result): seq<Event> {
    if hasStopped then [Enters(Exit)]
    else if final == Panicked then [Enters(Stop), Called(Call(Stop, final))]
    else [Enters(Stop), Called(Call(Stop, final)), Leaves(Stop), Enters(Exit)]
  }

  // The loop. `ticks` are the results of the runner calls made when the timer fires; the context
  // is cancelled when they are used up. `final` is the result of the Stop after the loop.
  function Loop(m: Manager, s: State, hasStopped: bool, ticks: seq<Result>, final: Result): seq<Event>
    decreases |ticks|, 1
  {
    if s == Exit then Finish(hasStopped, final)
    else if ticks == [] then [Enters(s)] + Finish(hasStopped, final)
    else Tick(m, s, ticks, final)
  }

  // The timer fires in state s and the state's runner method is called.
  function Tick(m: Manager, s: State, ticks: seq<Result>, final: Result): seq<Event>
    requires ticks != []
    decreases |ticks|, 0
  {
    if ticks[0] == Panicked then [Enters(s), Called(Call(s, Panicked))]
    else
      [Enters(s), Called(Call(s, ticks[0])), Leaves(s)]
      + Loop(m, Next(m, s, ticks[0]), s == Stop, ticks[1..], final)
  }

  // A whole run. RunUntilSuccessManager waits for its first tick before the first update, and
  // does not clear hasStopped after the first Init.
  function Trace(m: Manager, ticks: seq<Result>, final: Result): seq<Event> {
    if m == Continuous then Loop(m, Init, false, ticks, final)
    else if ticks == [] then [Enters(Exit)]
    else if ticks[0] == Panicked then [Enters(Init), Called(Call(Init, Panicked))]
    else
      [Enters(Init), Called(Call(Init, ticks[0])), Leaves(Init)]
      + Loop(m, Next(m, Init, ticks[0]), true, ticks[1..], final)
  }

  predicate PanicFree(ticks: seq<Result>, final: Result) {
    Panicked !in ticks && final != Panicked
  }

  // ------------------------------------------------------------------------------ update traces

  function Calls(t: seq<Event>): seq<Call> {
    if t == [] then [] else (if t[0].Called? then [t[0].call] else []) + Calls(t[1..])
  }

  function Updates(t: seq<Event>): seq<StateUpdate> {
    if t == [] then [] else (if t[0].Sent? then [t[0].update] else []) + Updates(t[1..])
  }

  // Every call between its two updates.
  function Wrap(w: seq<Call>): seq<Event> {
    if w == [] then [] else [Enters(w[0].state), Called(w[0]), Leaves(w[0].state)] + Wrap(w[1..])
  }

  lemma {:induction false} CallsConcat(s: seq<Event>, t: seq<Event>)
    ensures Calls(s + t) == Calls(s) + Calls(t)
  {
    if s == [] {
      assert s + t == t;
    } else {
      assert (s + t)[0] == s[0] && (s + t)[1..] == s[1..] + t;
      CallsConcat(s[1..], t);
    }
  }

  lemma {:induction false} UpdatesConcat(s: seq<Event>, t: seq<Event>)
    ensures Updates(s + t) == Updates(s) + Updates(t)
  {
    if s == [] {
      assert s + t == t;
    } else {
      assert (s + t)[0] == s[0] && (s + t)[1..] == s[1..] + t;
      UpdatesConcat(s[1..], t);
    }
  }

  lemma WrapFirst(c: Call, w: seq<Call>)
    ensures Wrap([c] + w) == [Enters(c.state), Called(c), Leaves(c.state)] + Wrap(w)
  {
    assert ([c] + w)[1..] == w;
  }

  lemma CallsOfOne(c: Call)
    ensures Calls([Enters(c.state), Called(c), Leaves(c.state)]) == [c]
  {
    var t := [Enters(c.state), Called(c), Leaves(c.state)];
    assert t[1..][0] == Called(c) && t[1..][1..] == [Leaves(c.state)];
    assert Calls(t[1..][1..]) == [];
    assert Calls(t[1..]) == [c] + Calls(t[1..][1..]);
  }

  lemma {:induction false} CallsOfWrap(w: seq<Call>)
    ensures Calls(Wrap(w)) == w
  {
    if w != [] {
      CallsOfWrap(w[1..]);
      CallsOfOne(w[0]);
      CallsConcat([Enters(w[0].state), Called(w[0]), Leaves(w[0].state)], Wrap(w[1..]));
      assert w == [w[0]] + w[1..];
    }
  }

  // The shape of a panic-free trace: wrapped calls that lead from state to state, at most one
  // unmatched Entering, of the state they lead to (it was waited on when the context was
  // cancelled), at most one wrapped Stop, then Exit.
  datatype Shape = Shape(ran: seq<Call>, waiting: seq<State>, cleanup: seq<Call>)

  function Ending(h: Shape): seq<Event> {
    (if h.waiting == [] then [] else [Enters(h.waiting[0])]) + (Wrap(h.cleanup) + [Enters(Exit)])
  }

  function Compose(h: Shape): seq<Event> {
    Wrap(h.ran) + Ending(h)
  }

  predicate Working(s: State) {
    s != Exit && s != Unknown
  }

  // The calls w are made one after the other, starting in state s.
  predicate Leads(m: Manager, s: State, w: seq<Call>)
    decreases |w|
  {
    w == [] || (w[0].state == s && Working(s) && Leads(m, Next(m, s, w[0].result), w[1..]))
  }

  // The state they lead to.
  function Reached(m: Manager, s: State, w: seq<Call>): State {
    if w == [] then s else Next(m, Last(w).state, Last(w).result)
  }

  ghost predicate ShapeOk(m: Manager, s: State, h: Shape) {
    && Leads(m, s, h.ran)
    && (h.waiting == [] || h.waiting == [Reached(m, s, h.ran)]) && (forall q :: q in h.waiting ==> Working(q))
    && |h.cleanup| <= 1 && (forall c :: c in h.cleanup ==> c.state == Stop)
  }

  function Cleanup(hasStopped: bool, final: Result): seq<Call> {
    if hasStopped then [] else [Call(Stop, final)]
  }

  function LoopShape(m: Manager, s: State, hasStopped: bool, ticks: seq<Result>, final: Result): Shape
    decreases |ticks|
  {
    if s == Exit then Shape([], [], Cleanup(hasStopped, final))
    else if ticks == [] then Shape([], [s], Cleanup(hasStopped, final))
    else First(Call(s, ticks[0]), LoopShape(m, Next(m, s, ticks[0]), s == Stop, ticks[1..], final))
  }

  function First(c: Call, h: Shape): Shape {
    h.(ran := [c] + h.ran)
  }

  function TraceShape(m: Manager, ticks: seq<Result>, final: Result): Shape {
    if m == Continuous then LoopShape(m, Init, false, ticks, final)
    else if ticks == [] then Shape([], [], [])
    else First(Call(Init, ticks[0]), LoopShape(m, Next(m, Init, ticks[0]), true, ticks[1..], final))
  }

  lemma FirstComposes(m: Manager, c: Call, h: Shape)
    requires ShapeOk(m, Next(m, c.state, c.result), h) && Working(c.state)
    ensures ShapeOk(m, c.state, First(c, h))
    ensures Compose(First(c, h)) == [Enters(c.state), Called(c), Leaves(c.state)] + Compose(h)
  {
    WrapFirst(c, h.ran);
    assert ([c] + h.ran)[1..] == h.ran;
  }

  lemma FinishComposes(hasStopped: bool, final: Result)
    requires final != Panicked
    ensures Finish(hasStopped, final) == Wrap(Cleanup(hasStopped, final)) + [Enters(Exit)]
  {
    if !hasStopped {
      assert Wrap([Call(Stop, final)][1..]) == [];
    }
  }

  lemma EndHasShape(m: Manager, s: State, hasStopped: bool, ticks: seq<Result>, final: Result)
    requires final != Panicked && s != Unknown && (s == Exit || ticks == [])
    ensures ShapeOk(m, s, LoopShape(m, s, hasStopped, ticks, final))
    ensures Loop(m, s, hasStopped, ticks, final) == Compose(LoopShape(m, s, hasStopped, ticks, final))
  {
    FinishComposes(hasStopped, final);
    assert Wrap([]) == [];
  }

  lemma {:induction false} LoopHasShape(m: Manager, s: State, hasStopped: bool, ticks: seq<Result>, final: Result)
    requires PanicFree(ticks, final) && s != Unknown
    ensures ShapeOk(m, s, LoopShape(m, s, hasStopped, ticks, final))
    ensures Loop(m, s, hasStopped, ticks, final) == Compose(LoopShape(m, s, hasStopped, ticks, final))
    decreases |ticks|
  {
    if s == Exit || ticks == [] {
      EndHasShape(m, s, hasStopped, ticks, final);
    } else {
      LoopHasShape(m, Next(m, s, ticks[0]), s == Stop, ticks[1..], final);
      FirstComposes(m, Call(s, ticks[0]), LoopShape(m, Next(m, s, ticks[0]), s == Stop, ticks[1..], final));
      assert Loop(m, s, hasStopped, ticks, final) == Tick(m, s, ticks, final);
    }
  }

  // RunUntilSuccessManager after its first tick.
  lemma StartedHasShape(ticks: seq<Result>, final: Result)
    requires PanicFree(ticks, final) && ticks != []
    ensures ShapeOk(UntilSuccess, Init, TraceShape(UntilSuccess, ticks, final))
    ensures Trace(UntilSuccess, ticks, final) == Compose(TraceShape(UntilSuccess, ticks, final))
  {
    var next := Next(UntilSuccess, Init, ticks[0]);
    LoopHasShape(UntilSuccess, next, true, ticks[1..], final);
    FirstComposes(UntilSuccess, Call(Init, ticks[0]), LoopShape(UntilSuccess, next, true, ticks[1..], final));
  }

  // Both managers, every panic-free run: the calls lead from Init to the state each result asks
  // for; each stands between its own Entering and Exited; apart from that there is at most one
  // Entering, of the state the calls have led to and that was waited on at cancellation, and
  // exactly one Exit, at the very end.
  lemma TraceHasShape(m: Manager, ticks: seq<Result>, final: Result)
    requires PanicFree(ticks, final)
    ensures ShapeOk(m, Init, TraceShape(m, ticks, final))
    ensures Trace(m, ticks, final) == Compose(TraceShape(m, ticks, final))
    ensures Last(Trace(m, ticks, final)) == Enters(Exit)
  {
    if m == Continuous {
      LoopHasShape(m, Init, false, ticks, final);
    } else if ticks != [] {
      StartedHasShape(ticks, final);
    } else {
      assert Wrap([]) == [];
    }
  }

  // ------------------------------------------------------------------------- what is sent, in order

  // The two updates that a call stands between.
  function Pairs(w: seq<Call>): (r: seq<StateUpdate>)
    ensures |r| == 2 * |w|
  {
    if w == [] then []
    else [StateUpdate(w[0].state, Entering), StateUpdate(w[0].state, Exited)] + Pairs(w[1..])
  }

  lemma {:induction false} PairsAt(w: seq<Call>, i: nat)
    requires i < |w|
    ensures Pairs(w)[2 * i] == StateUpdate(w[i].state, Entering)
    ensures Pairs(w)[2 * i + 1] == StateUpdate(w[i].state, Exited)
  {
    if i > 0 { PairsAt(w[1..], i - 1); }
  }

  lemma UpdatesOfOne(e: Event)
    ensures Updates([e]) == if e.Sent? then [e.update] else []
  {
    assert [e][1..] == [];
  }

  lemma UpdatesOfPair(c: Call)
    ensures Updates([Enters(c.state), Called(c), Leaves(c.state)])
         == [StateUpdate(c.state, Entering), StateUpdate(c.state, Exited)]
  {
    var t := [Enters(c.state), Called(c), Leaves(c.state)];
    assert t[1..] == [Called(c), Leaves(c.state)] && t[1..][1..] == [Leaves(c.state)];
    UpdatesOfOne(Leaves(c.state));
    assert Updates(t[1..]) == [] + Updates(t[1..][1..]);
  }

  lemma {:induction false} UpdatesOfWrap(w: seq<Call>)
    ensures Updates(Wrap(w)) == Pairs(w)
  {
    if w != [] {
      UpdatesOfWrap(w[1..]);
      UpdatesOfPair(w[0]);
      UpdatesConcat([Enters(w[0].state), Called(w[0]), Leaves(w[0].state)], Wrap(w[1..]));
    }
  }

  // The Entering of the state that is waited on, if any.
  function Waits(waiting: seq<State>): seq<StateUpdate> {
    if waiting == [] then [] else [StateUpdate(waiting[0], Entering)]
  }

  lemma UpdatesOfEnding(h: Shape)
    requires |h.waiting| <= 1
    ensures Updates(Ending(h)) == Waits(h.waiting) + (Pairs(h.cleanup) + [StateUpdate(Exit, Entering)])
  {
    var tail := Wrap(h.cleanup) + [Enters(Exit)];
    UpdatesConcat(Wrap(h.cleanup), [Enters(Exit)]);
    UpdatesOfWrap(h.cleanup);
    UpdatesOfOne(Enters(Exit));
    if h.waiting != [] {
      UpdatesConcat([Enters(h.waiting[0])], tail);
      UpdatesOfOne(Enters(h.waiting[0]));
    } else {
      assert Ending(h) == tail;
    }
  }

  lemma UpdatesOfShape(h: Shape)
    requires |h.waiting| <= 1
    ensures Updates(Compose(h))
         == Pairs(h.ran) + (Waits(h.waiting) + (Pairs(h.cleanup) + [StateUpdate(Exit, Entering)]))
  {
    UpdatesConcat(Wrap(h.ran), Ending(h));
    UpdatesOfWrap(h.ran);
    UpdatesOfEnding(h);
  }

  // ------------------------------------------------------------------------ panics and success

  predicate IsPanic(e: Event) {
    e.Called? && e.call.result == Panicked
  }

  // How a trace may end: at a panicking call, right after the Entering of its state, or with the
  // final Exit; there is no panic and no Exit before.
  ghost predicate EndsWell(t: seq<Event>) {
    && t != []
    && (forall i :: 0 <= i < |t| - 1 ==> !IsPanic(t[i]) && t[i] != Enters(Exit))
    && (Last(t) == Enters(Exit)
        || (IsPanic(Last(t)) && |t| >= 2 && t[|t| - 2] == Enters(Last(t).call.state) && Working(Last(t).call.state)))
  }

  lemma EndsAfter(c: Call, rest: seq<Event>)
    requires EndsWell(rest) && c.result != Panicked && c.state != Exit
    ensures EndsWell([Enters(c.state), Called(c), Leaves(c.state)] + rest)
  {
    var t := [Enters(c.state), Called(c), Leaves(c.state)] + rest;
    assert forall i :: 3 <= i < |t| ==> t[i] == rest[i - 3];
  }

  lemma WaitEnds(s: State, rest: seq<Event>)
    requires s != Exit && EndsWell(rest)
    ensures EndsWell([Enters(s)] + rest)
  {
    var t := [Enters(s)] + rest;
    assert forall i :: 1 <= i < |t| ==> t[i] == rest[i - 1];
  }

  lemma {:induction false} LoopEnds(m: Manager, s: State, hasStopped: bool, ticks: seq<Result>, final: Result)
    requires s != Unknown
    ensures EndsWell(Loop(m, s, hasStopped, ticks, final))
    decreases |ticks|
  {
    if s != Exit && ticks == [] {
      WaitEnds(s, Finish(hasStopped, final));
    } else if s != Exit {
      assert Loop(m, s, hasStopped, ticks, final) == Tick(m, s, ticks, final);
      if ticks[0] != Panicked {
        LoopEnds(m, Next(m, s, ticks[0]), s == Stop, ticks[1..], final);
        EndsAfter(Call(s, ticks[0]), Loop(m, Next(m, s, ticks[0]), s == Stop, ticks[1..], final));
      }
    }
  }

  // Every run, with or without panics: a panic ends the trace on the spot, without any further
  // call or update; otherwise the trace ends with Exit, which it contains only there.
  lemma TraceEnds(m: Manager, ticks: seq<Result>, final: Result)
    ensures EndsWell(Trace(m, ticks, final))
  {
    if m == Continuous {
      LoopEnds(m, Init, false, ticks, final);
    } else if ticks != [] && ticks[0] != Panicked {
      LoopEnds(m, Next(m, Init, ticks[0]), true, ticks[1..], final);
      EndsAfter(Call(Init, ticks[0]), Loop(m, Next(m, Init, ticks[0]), true, ticks[1..], final));
    }
  }

  // Whether a panicking call is reached, told from what the runner does: the runner panics in a
  // tick that is used, or in the Stop after the loop if there is one.
  predicate LoopPanics(m: Manager, s: State, hasStopped: bool, ticks: seq<Result>, final: Result)
    decreases |ticks|
  {
    if s == Exit || ticks == [] then !hasStopped && final == Panicked
    else ticks[0] == Panicked || LoopPanics(m, Next(m, s, ticks[0]), s == Stop, ticks[1..], final)
  }

  predicate Panics(m: Manager, ticks: seq<Result>, final: Result) {
    if m == Continuous then LoopPanics(m, Init, false, ticks, final)
    else ticks != [] && (ticks[0] == Panicked || LoopPanics(m, Next(m, Init, ticks[0]), true, ticks[1..], final))
  }

  lemma {:induction false} LoopPanicsExactly(
    m: Manager, s: State, hasStopped: bool, ticks: seq<Result>, final: Result)
    requires s != Unknown
    ensures var t := Loop(m, s, hasStopped, ticks, final);
      t != [] && (IsPanic(Last(t)) <==> LoopPanics(m, s, hasStopped, ticks, final))
    decreases |ticks|
  {
    if s != Exit && ticks != [] {
      assert Loop(m, s, hasStopped, ticks, final) == Tick(m, s, ticks, final);
      if ticks[0] != Panicked {
        LoopPanicsExactly(m, Next(m, s, ticks[0]), s == Stop, ticks[1..], final);
      }
    }
  }

  // A run ends in a panic exactly if its inputs make it reach a panicking call, and never if the
  // runner does not panic at all.
  lemma PanicsExactly(m: Manager, ticks: seq<Result>, final: Result)
    ensures var t := Trace(m, ticks, final);
      t != [] && (IsPanic(Last(t)) <==> Panics(m, ticks, final))
    ensures PanicFree(ticks, final) ==> !Panics(m, ticks, final)
  {
    if m == Continuous {
      LoopPanicsExactly(m, Init, false, ticks, final);
    } else if ticks != [] && ticks[0] != Panicked {
      LoopPanicsExactly(m, Next(m, Init, ticks[0]), true, ticks[1..], final);
    }
    if PanicFree(ticks, final) { TraceHasShape(m, ticks, final); }
  }

  // The same runner, except that it fails where it panicked.
  function Soften(r: Result): Result {
    if r == Panicked then Failed else r
  }

  function Softened(ticks: seq<Result>): seq<Result> {
    if ticks == [] then [] else [Soften(ticks[0])] + Softened(ticks[1..])
  }

  lemma {:induction false} SoftenedAt(ticks: seq<Result>)
    ensures |Softened(ticks)| == |ticks|
    ensures forall i :: 0 <= i < |ticks| ==> Softened(ticks)[i] == Soften(ticks[i])
    ensures Panicked !in Softened(ticks)
  {
    if ticks != [] { SoftenedAt(ticks[1..]); }
  }

  // t is u up to a call that fails in u and panics in t, and nothing after it.
  ghost predicate CutAtPanic(t: seq<Event>, u: seq<Event>) {
    && t != [] && |t| <= |u| && IsPanic(Last(t))
    && t[..|t| - 1] == u[..|t| - 1]
    && u[|t| - 1] == Called(Call(Last(t).call.state, Failed))
  }

  lemma CutAfter(head: seq<Event>, t: seq<Event>, u: seq<Event>)
    requires CutAtPanic(t, u)
    ensures CutAtPanic(head + t, head + u)
  {
    assert (head + t)[..|head + t| - 1] == head + t[..|t| - 1];
    assert (head + u)[..|head + t| - 1] == head + u[..|t| - 1];
  }

  lemma FinishCut(hasStopped: bool, final: Result)
    ensures if !hasStopped && final == Panicked then CutAtPanic(Finish(hasStopped, final), Finish(hasStopped, Failed))
            else Finish(hasStopped, final) == Finish(hasStopped, Soften(final))
  {
  }

  ghost predicate SoftenedCut(panics: bool, t: seq<Event>, u: seq<Event>) {
    if panics then CutAtPanic(t, u) else t == u
  }

  lemma {:induction false} LoopCut(m: Manager, s: State, hasStopped: bool, ticks: seq<Result>, final: Result)
    ensures SoftenedCut(LoopPanics(m, s, hasStopped, ticks, final),
                        Loop(m, s, hasStopped, ticks, final),
                        Loop(m, s, hasStopped, Softened(ticks), Soften(final)))
    decreases |ticks|, 1
  {
    FinishCut(hasStopped, final);
    if s != Exit && ticks != [] {
      TickCut(m, s, ticks, final);
    } else if s != Exit && !hasStopped && final == Panicked {
      CutAfter([Enters(s)], Finish(hasStopped, final), Finish(hasStopped, Failed));
    }
  }

  lemma {:induction false} TickCut(m: Manager, s: State, ticks: seq<Result>, final: Result)
    requires ticks != []
    ensures SoftenedCut(ticks[0] == Panicked || LoopPanics(m, Next(m, s, ticks[0]), s == Stop, ticks[1..], final),
                        Tick(m, s, ticks, final), Tick(m, s, Softened(ticks), Soften(final)))
    decreases |ticks|, 0
  {
    var u := Tick(m, s, Softened(ticks), Soften(final));
    assert Softened(ticks)[0] == Soften(ticks[0]) && Softened(ticks)[1..] == Softened(ticks[1..]);
    if ticks[0] == Panicked {
      assert u[..1] == [Enters(s)] && u[1] == Called(Call(s, Failed));
    } else {
      var next := Next(m, s, ticks[0]);
      LoopCut(m, next, s == Stop, ticks[1..], final);
      if LoopPanics(m, next, s == Stop, ticks[1..], final) {
        CutAfter([Enters(s), Called(Call(s, ticks[0])), Leaves(s)],
                 Loop(m, next, s == Stop, ticks[1..], final),
                 Loop(m, next, s == Stop, Softened(ticks[1..]), Soften(final)));
      }
    }
  }

  lemma StartedCut(ticks: seq<Result>, final: Result)
    requires ticks != []
    ensures var t := Trace(UntilSuccess, ticks, final);
            var u := Trace(UntilSuccess, Softened(ticks), Soften(final));
      if Panics(UntilSuccess, ticks, final) then CutAtPanic(t, u) else t == u
  {
    assert Softened(ticks)[0] == Soften(ticks[0]) && Softened(ticks)[1..] == Softened(ticks[1..]);
    if ticks[0] == Panicked {
      var u := Trace(UntilSuccess, Softened(ticks), Soften(final));
      assert u[..1] == [Enters(Init)] && u[1] == Called(Call(Init, Failed));
    } else {
      var next := Next(UntilSuccess, Init, ticks[0]);
      LoopCut(UntilSuccess, next, true, ticks[1..], final);
      if LoopPanics(UntilSuccess, next, true, ticks[1..], final) {
        CutAfter([Enters(Init), Called(Call(Init, ticks[0])), Leaves(Init)],
                 Loop(UntilSuccess, next, true, ticks[1..], final),
                 Loop(UntilSuccess, next, true, Softened(ticks[1..]), Soften(final)));
      }
    }
  }

  // A panic cuts a run short and changes nothing before: up to the panicking call it is the run in
  // which that call fails instead, in the same state, and after it there is nothing. A run without
  // a panic is not changed by what the runner would do in calls that are not reached.
  lemma PanicCutsTheRun(m: Manager, ticks: seq<Result>, final: Result)
    ensures var t, u := Trace(m, ticks, final), Trace(m, Softened(ticks), Soften(final));
      if Panics(m, ticks, final) then CutAtPanic(t, u) else t == u
    ensures PanicFree(Softened(ticks), Soften(final))
  {
    SoftenedAt(ticks);
    if m == Continuous {
      LoopCut(m, Init, false, ticks, final);
    } else if ticks != [] {
      StartedCut(ticks, final);
    }
  }

  // The shape of a run that ends in a panic: wrapped calls that lead from state to state, the
  // Entering of the state they lead to if the context was cancelled while it was waited on, then
  // the Entering and the call of q. That is Stop after a cancellation and after a success, and
  // otherwise the state the calls lead to.
  datatype PanicShape = PanicShape(ran: seq<Call>, waiting: seq<State>, q: State)

  function PanicTail(h: PanicShape): seq<Event> {
    (if h.waiting == [] then [] else [Enters(h.waiting[0])]) + [Enters(h.q), Called(Call(h.q, Panicked))]
  }

  ghost predicate PanicShapeOk(m: Manager, s: State, h: PanicShape) {
    && Leads(m, s, h.ran)
    && (h.waiting == [] || (h.waiting == [Reached(m, s, h.ran)] && Working(h.waiting[0])))
    && h.q == (if h.waiting != [] || Reached(m, s, h.ran) == Exit then Stop else Reached(m, s, h.ran))
  }

  lemma PanicAfter(m: Manager, c: Call, h: PanicShape)
    requires PanicShapeOk(m, Next(m, c.state, c.result), h) && Working(c.state)
    ensures var g := h.(ran := [c] + h.ran);
      && PanicShapeOk(m, c.state, g)
      && Wrap(g.ran) + PanicTail(g) == [Enters(c.state), Called(c), Leaves(c.state)] + (Wrap(h.ran) + PanicTail(h))
  {
    WrapFirst(c, h.ran);
    assert ([c] + h.ran)[1..] == h.ran;
  }

  lemma {:induction false} LoopPanicShape(m: Manager, s: State, hasStopped: bool, ticks: seq<Result>, final: Result)
    returns (h: PanicShape)
    requires s != Unknown && LoopPanics(m, s, hasStopped, ticks, final)
    ensures PanicShapeOk(m, s, h) && Loop(m, s, hasStopped, ticks, final) == Wrap(h.ran) + PanicTail(h)
    decreases |ticks|
  {
    if s == Exit {
      h := PanicShape([], [], Stop);
    } else if ticks == [] {
      h := PanicShape([], [s], Stop);
    } else if ticks[0] == Panicked {
      h := PanicShape([], [], s);
    } else {
      var rest := LoopPanicShape(m, Next(m, s, ticks[0]), s == Stop, ticks[1..], final);
      PanicAfter(m, Call(s, ticks[0]), rest);
      h := rest.(ran := [Call(s, ticks[0])] + rest.ran);
      assert Loop(m, s, hasStopped, ticks, final) == Tick(m, s, ticks, final);
    }
  }

  // Both managers, every run that ends in a panic.
  lemma PanicHasShape(m: Manager, ticks: seq<Result>, final: Result) returns (h: PanicShape)
    requires Panics(m, ticks, final)
    ensures PanicShapeOk(m, Init, h) && Trace(m, ticks, final) == Wrap(h.ran) + PanicTail(h)
  {
    if m == Continuous {
      h := LoopPanicShape(m, Init, false, ticks, final);
    } else if ticks[0] == Panicked {
      h := PanicShape([], [], Init);
    } else {
      var rest := LoopPanicShape(m, Next(m, Init, ticks[0]), true, ticks[1..], final);
      PanicAfter(m, Call(Init, ticks[0]), rest);
      h := rest.(ran := [Call(Init, ticks[0])] + rest.ran);
    }
  }

  lemma UpdatesOfTail(h: PanicShape)
    requires |h.waiting| <= 1
    ensures Updates(PanicTail(h)) == Waits(h.waiting) + [StateUpdate(h.q, Entering)]
  {
    var last := [Enters(h.q)] + [Called(Call(h.q, Panicked))];
    UpdatesConcat([Enters(h.q)], [Called(Call(h.q, Panicked))]);
    UpdatesOfOne(Enters(h.q));
    UpdatesOfOne(Called(Call(h.q, Panicked)));
    if h.waiting != [] {
      UpdatesConcat([Enters(h.waiting[0])], last);
      UpdatesOfOne(Enters(h.waiting[0]));
      assert PanicTail(h) == [Enters(h.waiting[0])] + last;
    } else {
      assert PanicTail(h) == last;
    }
  }

  lemma UpdatesOfPanic(h: PanicShape)
    requires |h.waiting| <= 1
    ensures Updates(Wrap(h.ran) + PanicTail(h)) == Pairs(h.ran) + (Waits(h.waiting) + [StateUpdate(h.q, Entering)])
  {
    UpdatesConcat(Wrap(h.ran), PanicTail(h));
    UpdatesOfWrap(h.ran);
    UpdatesOfTail(h);
  }

  // Without a waited-on state the last call was a successful Run, and one Stop follows.
  ghost predicate StopsWell(m: Manager, h: Shape, final: Result) {
    && (h.waiting == [] <==> m == UntilSuccess && h.ran != [] && Last(h.ran) == Call(Run, Nil))
    && (h.waiting == [] ==> h.cleanup == [Call(Stop, final)])
  }

  lemma {:induction false} LoopStops(m: Manager, s: State, hasStopped: bool, ticks: seq<Result>, final: Result)
    requires PanicFree(ticks, final) && s != Unknown && s != Exit
    ensures StopsWell(m, LoopShape(m, s, hasStopped, ticks, final), final)
    decreases |ticks|
  {
    if ticks != [] && Next(m, s, ticks[0]) != Exit {
      LoopStops(m, Next(m, s, ticks[0]), s == Stop, ticks[1..], final);
    }
  }

  // The results of the calls are those the runner gave, in order and without gaps; a run that does
  // not end in success has used them all.
  ghost predicate UsesTicks(h: Shape, ticks: seq<Result>, final: Result) {
    && |h.ran| <= |ticks| && (forall i :: 0 <= i < |h.ran| ==> h.ran[i].result == ticks[i])
    && (h.waiting != [] ==> |h.ran| == |ticks|)
    && (forall c :: c in h.cleanup ==> c.result == final)
  }

  lemma {:induction false} LoopUsesTicks(m: Manager, s: State, hasStopped: bool, ticks: seq<Result>, final: Result)
    ensures UsesTicks(LoopShape(m, s, hasStopped, ticks, final), ticks, final)
    decreases |ticks|
  {
    if s != Exit && ticks != [] {
      LoopUsesTicks(m, Next(m, s, ticks[0]), s == Stop, ticks[1..], final);
    }
  }

  lemma TraceUsesTicks(m: Manager, ticks: seq<Result>, final: Result)
    ensures UsesTicks(TraceShape(m, ticks, final), ticks, final)
  {
    if m == Continuous {
      LoopUsesTicks(m, Init, false, ticks, final);
    } else if ticks != [] {
      LoopUsesTicks(m, Next(m, Init, ticks[0]), true, ticks[1..], final);
    }
  }

  // RunContinuousManager ends only on cancellation, while waiting to enter a state. Once started,
  // RunUntilSuccessManager ends without observing a cancellation exactly if the last method
  // before the end was a Run that returned nil, and then one Stop follows.
  lemma EndsOnSuccessOrCancellation(m: Manager, ticks: seq<Result>, final: Result)
    requires PanicFree(ticks, final) && (m == UntilSuccess ==> ticks != [])
    ensures StopsWell(m, TraceShape(m, ticks, final), final)
  {
    if m == Continuous {
      LoopStops(m, Init, false, ticks, final);
    } else {
      LoopStops(m, Next(m, Init, ticks[0]), true, ticks[1..], final);
    }
  }
}

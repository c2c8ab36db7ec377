// The Manage loops of the two service managers (service_manager.go). A run is given by what its
// environment does: `ticks` are the results of the runner methods called when the timer fires,
// after which the context is cancelled; `final` is the result of the Stop call after the loop.
module Managers {
  import opened Lifecycle

  // The switch of RunContinuousManager: the runner method of the state has returned err.
  method ContinuousSwitch(state: State, err: Result, trace: seq<Event>)
    returns (state': State, hasStopped: bool, trace': seq<Event>)
    requires Working(state) && err != Panicked
    ensures state' == Next(Continuous, state, err) && Working(state') && hasStopped == (state == Stop)
    ensures trace' == trace + [Leaves(state)]
  {
    hasStopped := false;
    match state
    case Init =>
      state' := if err != Nil then Stop else Idle;
      trace' := trace + [Leaves(Init)];
    case Idle =>
      state' := if err != Nil then Stop else Run;
      trace' := trace + [Leaves(Idle)];
    case Run =>
      state' := Stop;
      trace' := trace + [Leaves(Run)];
    case Stop =>
      state' := Init;
      hasStopped := true;
      trace' := trace + [Leaves(Stop)];
    case _ =>
      assert false;   // the default branch is never taken
  }

  method UntilSuccessSwitch(state: State, err: Result, trace: seq<Event>)
    returns (state': State, hasStopped: bool, trace': seq<Event>)
    requires Working(state) && err != Panicked
    ensures state' == Next(UntilSuccess, state, err) && state' != Unknown && hasStopped == (state == Stop)
    ensures trace' == trace + [Leaves(state)]
  {
    hasStopped := false;
    match state
    case Init =>
      state' := if err != Nil then Stop else Idle;
      trace' := trace + [Leaves(Init)];
    case Idle =>
      state' := if err != Nil then Stop else Run;
      trace' := trace + [Leaves(Idle)];
    case Run =>
      state' := if err != Nil then Stop else Exit;
      trace' := trace + [Leaves(Run)];
    case Stop =>
      state' := if err != Nil then Stop else Init;
      hasStopped := true;
      trace' := trace + [Leaves(Stop)];
    case _ =>
      assert false;
  }

  // After the loop: Stop once more unless it has just run, then the final update.
  method CleanUp(hasStopped: bool, final: Result, trace: seq<Event>) returns (trace': seq<Event>)
    ensures trace' == trace + Finish(hasStopped, final)
  {
    trace' := trace;
    if !hasStopped {
      trace' := trace' + [Enters(Stop), Called(Call(Stop, final))];
      if final == Panicked { return; }
      trace' := trace' + [Leaves(Stop)];
    }
    trace' := trace' + [Enters(Exit)];
  }

  // What is still to come, at the loop head.
  ghost function Remaining(
    m: Manager, s: State, hasStopped: bool, ticks: seq<Result>, i: nat, final: Result): seq<Event>
    requires i <= |ticks|
  {
    Loop(m, s, hasStopped, ticks[i..], final)
  }

  lemma TurnTaken(m: Manager, s: State, hasStopped: bool, ticks: seq<Result>, i: nat, final: Result)
    requires s != Exit && i < |ticks|
    ensures Remaining(m, s, hasStopped, ticks, i, final) ==
            if ticks[i] == Panicked then [Enters(s), Called(Call(s, Panicked))]
            else [Enters(s), Called(Call(s, ticks[i]))]
                 + ([Leaves(s)] + Remaining(m, Next(m, s, ticks[i]), s == Stop, ticks, i + 1, final))
  {
    assert ticks[i..][1..] == ticks[i + 1..];
    assert Loop(m, s, hasStopped, ticks[i..], final) == Tick(m, s, ticks[i..], final);
  }

  // RunContinuousManager.Manage
  method ManageContinuous(ticks: seq<Result>, final: Result) returns (trace: seq<Event>)
    ensures trace == Trace(Continuous, ticks, final)
  {
    var state, hasStopped, i := Init, false, 0;
    trace := [];
    assert ticks[0..] == ticks;
    while i < |ticks|
      invariant i <= |ticks| && Working(state)
      invariant Trace(Continuous, ticks, final) == trace + Remaining(Continuous, state, hasStopped, ticks, i, final)
    {
      TurnTaken(Continuous, state, hasStopped, ticks, i, final);
      var err := ticks[i];   // <-timeout.C, and the runner method of the state
      trace := trace + [Enters(state), Called(Call(state, err))];
      if err == Panicked { return; }
      state, hasStopped, trace := ContinuousSwitch(state, err, trace);
      i := i + 1;
    }
    trace := trace + [Enters(state)];   // <-sctx.Done()
    trace := CleanUp(hasStopped, final, trace);
  }

  // RunUntilSuccessManager.Manage. A panic of the runner is recovered inside: the trace just ends.
  method ManageUntilSuccess(ticks: seq<Result>, final: Result) returns (trace: seq<Event>)
    ensures trace == Trace(UntilSuccess, ticks, final)
  {
    var state, hasStopped, i := Init, true, 0;
    trace := [];
    if ticks == [] {   // <-sctx.Done()
      state := Exit;
    } else {
      var err := ticks[0];
      trace := [Enters(state), Called(Call(state, err))];
      if err == Panicked { return; }
      state := if err != Nil then Stop else Idle;
      trace := trace + [Leaves(Init)];
      i := 1;
    }
    while state != Exit && i < |ticks|
      invariant i <= |ticks| && state != Unknown
      invariant Trace(UntilSuccess, ticks, final) == trace + Remaining(UntilSuccess, state, hasStopped, ticks, i, final)
      decreases |ticks| - i
    {
      TurnTaken(UntilSuccess, state, hasStopped, ticks, i, final);
      var err := ticks[i];   // <-ticker.C, and the runner method of the state
      trace := trace + [Enters(state), Called(Call(state, err))];
      if err == Panicked { return; }
      state, hasStopped, trace := UntilSuccessSwitch(state, err, trace);
      i := i + 1;
    }
    if state != Exit {
      trace := trace + [Enters(state)];   // <-sctx.Done()
    }
    trace := CleanUp(hasStopped, final, trace);
  }
}

// The prestart pipeline (daemon_prestart.go): stages run in order, restarted from the first one
// after a delay if one of them fails and RestartOnError is set.
module Prestart {
  import opened Orders

  // One decision of the environment. At a select: the context is done, or it is not (and an armed
  // timer fires). At a stage: the context is done before it, or the stage runs and fails or not.
  datatype Tick = Cancel | Continue(failed: bool)

  datatype Call = Call(stage: nat, failed: bool)

  datatype Level = Warning | Error

  datatype Record = Record(stage: nat, level: Level)

  datatype Outcome = Completed | Cancelled | Unfinished

  // armed: the timer will fire.
  datatype Position = Waiting(armed: bool) | AtStage(k: nat) | Ended(outcome: Outcome)

  datatype State = State(calls: seq<Call>, records: seq<Record>, at: Position)

  function Init(n: nat): State {
    State([], [], if n == 0 then Ended(Completed) else Waiting(true))
  }

  function RunStage(restart: bool, n: nat, s: State, k: nat, failed: bool): State {
    State(s.calls + [Call(k, failed)],
          if failed then s.records + [Record(k, if restart then Warning else Error)] else s.records,
          if failed && restart then Waiting(true)
          else if k + 1 < n then AtStage(k + 1)
          else if failed then Waiting(false)
          else Ended(Completed))
  }

  function Step(restart: bool, n: nat, s: State, t: Tick): State {
    if s.at.Ended? then s
    else if t.Cancel? then s.(at := Ended(Cancelled))
    else
      match s.at
      case Waiting(armed) => if armed then s.(at := AtStage(0)) else s
      case AtStage(k) => RunStage(restart, n, s, k, t.failed)
  }

  function Exec(restart: bool, n: nat, ticks: seq<Tick>): State {
    if ticks == [] then Init(n) else Step(restart, n, Exec(restart, n, ticks[..|ticks| - 1]), Last(ticks))
  }

  function OutcomeOf(p: Position): Outcome {
    if p.Ended? then p.outcome else Unfinished
  }

  lemma ExecOneMore(restart: bool, n: nat, ticks: seq<Tick>, t: Tick)
    ensures Exec(restart, n, ticks + [t]) == Step(restart, n, Exec(restart, n, ticks), t)
  {
    assert (ticks + [t])[..|ticks|] == ticks;
  }

  // Cancellation ends the pipeline wherever it is, in both modes, and adds nothing to what it did.
  lemma CancelledAnywhere(restart: bool, n: nat, ticks: seq<Tick>)
    ensures var s := Exec(restart, n, ticks);
      Exec(restart, n, ticks + [Cancel]) == if s.at.Ended? then s else s.(at := Ended(Cancelled))
  {
    ExecOneMore(restart, n, ticks, Cancel);
  }

  // Without stages there is nothing to do.
  lemma {:induction false} NoStages(restart: bool, ticks: seq<Tick>)
    ensures Exec(restart, 0, ticks) == State([], [], Ended(Completed))
  {
    if ticks != [] { NoStages(restart, ticks[..|ticks| - 1]); }
  }

  // ----------------------------------------------------------------------------- RestartOnError

  // The calls of the first j stages, all successful.
  function Good(j: nat): (r: seq<Call>)
    ensures |r| == j
  {
    seq(j, i requires 0 <= i => Call(i, false))
  }

  // A failing pass: the stages before k succeed and stage k fails.
  function FailingPass(k: nat): seq<Call> {
    Good(k) + [Call(k, true)]
  }

  function Passes(failing: seq<nat>): seq<Call> {
    if failing == [] then [] else Passes(failing[..|failing| - 1]) + FailingPass(Last(failing))
  }

  function Warnings(failing: seq<nat>): seq<Record> {
    seq(|failing|, i requires 0 <= i < |failing| => Record(failing[i], Warning))
  }

  // Failing passes at the stages `failing`, then j more successful calls.
  ghost predicate Shape(n: nat, s: State, failing: seq<nat>, j: nat) {
    && s.calls == Passes(failing) + Good(j)
    && s.records == Warnings(failing)
    && (forall i :: 0 <= i < |failing| ==> failing[i] < n)
    && match s.at
       case Waiting(armed) => armed && j == 0 && n > 0
       case AtStage(k) => j == k < n
       case Ended(o) => j <= n && (o == Completed <==> j == n) && o != Unfinished
  }

  lemma StageKeepsShape(n: nat, s: State, failing: seq<nat>, j: nat, failed: bool)
    requires Shape(n, s, failing, j) && s.at.AtStage?
    ensures var r := RunStage(true, n, s, s.at.k, failed);
      if failed then Shape(n, r, failing + [j], 0) else Shape(n, r, failing, j + 1)
  {
    if failed {
      assert (failing + [j])[..|failing|] == failing;
      assert Passes(failing) + (Good(j) + [Call(j, true)]) == Passes(failing) + Good(j) + [Call(j, true)];
      assert Warnings(failing + [j]) == Warnings(failing) + [Record(j, Warning)];
      assert Passes(failing + [j]) + Good(0) == Passes(failing + [j]);
    } else {
      assert Good(j + 1) == Good(j) + [Call(j, false)];
      assert Passes(failing) + (Good(j) + [Call(j, false)]) == Passes(failing) + Good(j) + [Call(j, false)];
    }
  }

  // In RestartOnError mode, for every behaviour of the stages and every cancellation: the calls
  // are whole failing passes followed by successful calls, there is one warning for each failing
  // pass, naming its stage, and the pipeline completes exactly if the last pass is a full one.
  lemma {:induction false} RestartsUntilAllPass(n: nat, ticks: seq<Tick>) returns (failing: seq<nat>, j: nat)
    ensures Shape(n, Exec(true, n, ticks), failing, j)
  {
    if ticks == [] {
      failing, j := [], 0;
      assert Good(0) == [];
    } else {
      var s, t := Exec(true, n, ticks[..|ticks| - 1]), Last(ticks);
      failing, j := RestartsUntilAllPass(n, ticks[..|ticks| - 1]);
      if s.at.AtStage? && t.Continue? {
        StageKeepsShape(n, s, failing, j, t.failed);
        if t.failed { failing, j := failing + [j], 0; } else { j := j + 1; }
      }
    }
  }

  // From the wait between two passes to the moment before stage j.
  lemma {:induction false} Advance(n: nat, ticks: seq<Tick>, failing: seq<nat>, j: nat) returns (more: seq<Tick>)
    requires Exec(true, n, ticks) == State(Passes(failing), Warnings(failing), Waiting(true))
    requires j < n && forall i :: 0 <= i < |failing| ==> failing[i] < n
    ensures Shape(n, Exec(true, n, more), failing, j) && Exec(true, n, more).at == AtStage(j)
    decreases j
  {
    if j == 0 {
      ExecOneMore(true, n, ticks, Continue(false));
      more := ticks + [Continue(false)];
      assert Passes(failing) + Good(0) == Passes(failing);
    } else {
      more := Advance(n, ticks, failing, j - 1);
      StageKeepsShape(n, Exec(true, n, more), failing, j - 1, false);
      ExecOneMore(true, n, more, Continue(false));
      more := more + [Continue(false)];
    }
  }

  // Every sequence of failing passes does occur.
  lemma {:induction false} EveryShapeOccurs(n: nat, failing: seq<nat>) returns (ticks: seq<Tick>)
    requires n > 0 && forall i :: 0 <= i < |failing| ==> failing[i] < n
    ensures Exec(true, n, ticks) == State(Passes(failing), Warnings(failing), Waiting(true))
  {
    ticks := [];
    if failing != [] {
      var init, k := failing[..|failing| - 1], Last(failing);
      ticks := EveryShapeOccurs(n, init);
      ticks := Advance(n, ticks, init, k);
      var s := Exec(true, n, ticks);
      StageKeepsShape(n, s, init, k, true);
      ExecOneMore(true, n, ticks, Continue(true));
      ticks := ticks + [Continue(true)];
      assert init + [k] == failing;
      assert Passes(failing) + Good(0) == Passes(failing);
    }
  }

  // And so does every sequence of calls of that shape, ended by completion or by cancellation.
  lemma EveryEndOccurs(n: nat, failing: seq<nat>, j: nat) returns (ticks: seq<Tick>)
    requires n > 0 && j <= n && forall i :: 0 <= i < |failing| ==> failing[i] < n
    ensures var s := Exec(true, n, ticks);
      s.calls == Passes(failing) + Good(j) && s.at == Ended(if j == n then Completed else Cancelled)
  {
    ticks := EveryShapeOccurs(n, failing);
    var last := if j == n then Continue(false) else Cancel;
    ticks := Advance(n, ticks, failing, if j == n then j - 1 else j);
    if j == n { StageKeepsShape(n, Exec(true, n, ticks), failing, j - 1, false); }
    ExecOneMore(true, n, ticks, last);
    ticks := ticks + [last];
  }

  // ---------------------------------------------------------------------------- the other mode

  function Failures(calls: seq<Call>): seq<Record> {
    if calls == [] then []
    else
      Failures(calls[..|calls| - 1]) + if Last(calls).failed then [Record(Last(calls).stage, Error)] else []
  }

  ghost predicate OncePerStage(n: nat, s: State) {
    && |s.calls| <= n && (forall i :: 0 <= i < |s.calls| ==> s.calls[i].stage == i)
    && s.records == Failures(s.calls)
    && (s.at == Ended(Completed) <==> |s.calls| == n && n > 0 && !Last(s.calls).failed)
    && match s.at
       case Waiting(armed) => if armed then s.calls == [] else |s.calls| == n && n > 0 && Last(s.calls).failed
       case AtStage(k) => |s.calls| == k < n
       case Ended(o) => o != Unfinished
  }

  lemma StageOnce(n: nat, s: State, failed: bool)
    requires OncePerStage(n, s) && s.at.AtStage?
    ensures OncePerStage(n, RunStage(false, n, s, s.at.k, failed))
  {
    var calls := s.calls + [Call(s.at.k, failed)];
    assert calls[..|s.calls|] == s.calls && Last(calls) == Call(s.at.k, failed);
  }

  // Without RestartOnError the stages run at most once, in order and whether or not earlier ones
  // failed; every failure is recorded, but only the last stage decides: the pipeline completes
  // exactly if that one was called and succeeded. If it fails, nothing happens any more: the
  // timer is not set again, and only cancellation ends the pipeline.
  lemma {:induction false} OnlyTheLastStageDecides(n: nat, ticks: seq<Tick>)
    requires n > 0
    ensures OncePerStage(n, Exec(false, n, ticks))
  {
    if ticks != [] {
      OnlyTheLastStageDecides(n, ticks[..|ticks| - 1]);
      var s, t := Exec(false, n, ticks[..|ticks| - 1]), Last(ticks);
      if s.at.AtStage? && t.Continue? { StageOnce(n, s, t.failed); }
    }
  }

  // Without RestartOnError it happens that a stage fails and the pipeline still completes, and that
  // a failing last stage leaves it waiting.
  lemma FailureOverlooked()
    ensures Exec(false, 2, [Continue(false), Continue(true), Continue(false)])
         == State([Call(0, true), Call(1, false)], [Record(0, Error)], Ended(Completed))
    ensures Exec(false, 1, [Continue(false), Continue(true)])
         == State([Call(0, true)], [Record(0, Error)], Waiting(false))
  {
    var start, fail := [Continue(false)], [Continue(false), Continue(true)];
    assert [] + start == start && start + [Continue(true)] == fail;
    assert fail + [Continue(false)] == [Continue(false), Continue(true), Continue(false)];
    ExecOneMore(false, 2, [], Continue(false));
    ExecOneMore(false, 2, start, Continue(true));
    ExecOneMore(false, 2, fail, Continue(false));
    ExecOneMore(false, 1, [], Continue(false));
    ExecOneMore(false, 1, start, Continue(true));
  }

  lemma {:induction false} StuckUntilCancelled(n: nat, ticks: seq<Tick>, more: seq<Tick>)
    requires Exec(false, n, ticks).at == Waiting(false)
    ensures Exec(false, n, ticks + more)
         == Exec(false, n, ticks).(at := if Cancel in more then Ended(Cancelled) else Waiting(false))
    decreases |more|
  {
    if more == [] {
      assert ticks + more == ticks;
    } else {
      var init := more[..|more| - 1];
      StuckUntilCancelled(n, ticks, init);
      assert more == init + [Last(more)];
      assert ticks + more == (ticks + init) + [Last(more)];
      ExecOneMore(false, n, ticks + init, Last(more));
    }
  }

  // ------------------------------------------------------------------------------- the pipeline

  lemma {:induction false} EndedStays(restart: bool, n: nat, ticks: seq<Tick>, i: nat)
    requires i <= |ticks| && Exec(restart, n, ticks[..i]).at.Ended?
    ensures Exec(restart, n, ticks) == Exec(restart, n, ticks[..i])
    decreases |ticks| - i
  {
    if i == |ticks| {
      assert ticks[..i] == ticks;
    } else {
      assert ticks[..i + 1] == ticks[..i] + [ticks[i]];
      ExecOneMore(restart, n, ticks[..i], ticks[i]);
      EndedStays(restart, n, ticks, i + 1);
    }
  }

  lemma OneTick(restart: bool, n: nat, ticks: seq<Tick>, i: nat)
    requires i < |ticks|
    ensures Exec(restart, n, ticks[..i + 1]) == Step(restart, n, Exec(restart, n, ticks[..i]), ticks[i])
  {
    assert ticks[..i + 1] == ticks[..i] + [ticks[i]];
    ExecOneMore(restart, n, ticks[..i], ticks[i]);
  }

  const FIVE_SECONDS := 5_000_000_000

  // One pass over the stages; it breaks at the first failure if the pipeline restarts, setting
  // the timer again. It ends inside a stage only if the schedule stops there.
  method RunStages(restart: bool, n: nat, ticks: seq<Tick>, from: nat, before: seq<Call>, earlier: seq<Record>)
    returns (i: nat, calls: seq<Call>, records: seq<Record>, at: Position)
    requires n > 0 && from <= |ticks|
    requires Exec(restart, n, ticks[..from]) == State(before, earlier, AtStage(0))
    ensures from <= i <= |ticks| && Exec(restart, n, ticks[..i]) == State(calls, records, at)
    ensures at.AtStage? ==> i == |ticks|
  {
    i, calls, records := from, before, earlier;
    var failed := false;
    for k := 0 to n
      invariant from <= i <= |ticks|
      invariant Exec(restart, n, ticks[..i])
             == State(calls, records, if k < n then AtStage(k) else if failed then Waiting(false) else Ended(Completed))
    {
      if i == |ticks| { return i, calls, records, AtStage(k); }
      OneTick(restart, n, ticks, i);
      i := i + 1;
      if ticks[i - 1].Cancel? { return i, calls, records, Ended(Cancelled); }
      failed := ticks[i - 1].failed;
      calls := calls + [Call(k, failed)];
      if failed {
        records := records + [Record(k, if restart then Warning else Error)];
        if restart { return i, calls, records, Waiting(true); }
      }
    }
    at := if failed then Waiting(false) else Ended(Completed);
  }

  class Pipeline {
    var restartOnError: bool
    var restartDelay: int // nanoseconds
    var stages: seq<string>

    constructor (restartOnError: bool, restartDelay: int, stages: seq<string>)
      ensures this.restartOnError == restartOnError && this.restartDelay == restartDelay && this.stages == stages
    {
      this.restartOnError, this.restartDelay, this.stages := restartOnError, restartDelay, stages;
    }

    method Add(stage: string)
      modifies `stages
      ensures stages == old(stages) + [stage]
    {
      stages := stages + [stage];
    }

    method Run(ticks: seq<Tick>) returns (calls: seq<Call>, records: seq<Record>, outcome: Outcome)
      modifies `restartDelay
      ensures var s := Exec(restartOnError, |stages|, ticks);
        && calls == s.calls && records == s.records
        && outcome == match s.at case Ended(o) => o case _ => Unfinished
      ensures restartDelay == if stages != [] && old(restartDelay) == 0 then 5_000_000_000 else old(restartDelay)
    {
      calls, records := [], [];
      var restart, n := restartOnError, |stages|;
      if n == 0 {
        EndedStays(restart, 0, ticks, 0);
        return calls, records, Completed;
      }
      if restartDelay == 0 { restartDelay := FIVE_SECONDS; }
      var at, i := Waiting(true), 0;
      while !at.Ended? && i < |ticks|
        invariant i <= |ticks|
        invariant Exec(restart, n, ticks[..i]) == State(calls, records, at)
        invariant at.AtStage? ==> i == |ticks|
        modifies {}
        decreases |ticks| - i
      {
        OneTick(restart, n, ticks, i);
        i := i + 1;
        if ticks[i - 1].Cancel? {
          at := Ended(Cancelled);
        } else if at == Waiting(true) {
          i, calls, records, at := RunStages(restart, n, ticks, i, calls, records);
        }
      }
      if at.Ended? { EndedStays(restart, n, ticks, i); }
      assert ticks[..|ticks|] == ticks;
      outcome := OutcomeOf(at);
    }
  }
}

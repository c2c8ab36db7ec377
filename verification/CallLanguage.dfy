// Which sequences of runner calls the two managers can make: exactly those of a small grammar.
module CallLanguage {
  import opened Orders
  import opened Lifecycle

  // How far an attempt to run the service gets before Stop.
  datatype Kind = InitFails | IdleFails | RunFails | RunSucceeds | CutBeforeIdle | CutBeforeRun

  datatype Attempt = Attempt(kind: Kind, stops: seq<Result>)

  function Body(k: Kind): seq<Call> {
    match k
    case InitFails => [Call(Init, Failed)]
    case IdleFails => [Call(Init, Nil), Call(Idle, Failed)]
    case RunFails => [Call(Init, Nil), Call(Idle, Nil), Call(Run, Failed)]
    case RunSucceeds => [Call(Init, Nil), Call(Idle, Nil), Call(Run, Nil)]
    case CutBeforeIdle => [Call(Init, Nil)]
    case CutBeforeRun => [Call(Init, Nil), Call(Idle, Nil)]
  }

  function StopCalls(stops: seq<Result>): seq<Call> {
    if stops == [] then [] else [Call(Stop, stops[0])] + StopCalls(stops[1..])
  }

  function Words(attempts: seq<Attempt>): seq<Call> {
    if attempts == [] then []
    else Body(attempts[0].kind) + StopCalls(attempts[0].stops) + Words(attempts[1..])
  }

  // One Stop, or Stop repeated for as long as it fails.
  predicate Retries(stops: seq<Result>) {
    stops != [] && Panicked !in stops && forall i :: 0 <= i < |stops| - 1 ==> stops[i] == Failed
  }

  predicate Cut(k: Kind) {
    k == CutBeforeIdle || k == CutBeforeRun
  }

  // An attempt that is followed by another one.
  predicate MayContinue(m: Manager, a: Attempt) {
    && !Cut(a.kind) && Retries(a.stops)
    && (m == Continuous ==> |a.stops| == 1)
    && (m == UntilSuccess ==> a.kind != RunSucceeds && Last(a.stops) == Nil)
  }

  // The last attempt of a run. A cancelled wait and a success lead to exactly one Stop.
  predicate MayEnd(m: Manager, a: Attempt) {
    && Retries(a.stops)
    && (m == Continuous || Cut(a.kind) || a.kind == RunSucceeds ==> |a.stops| == 1)
  }

  predicate AttemptsOk(m: Manager, attempts: seq<Attempt>) {
    attempts == []
    || (if |attempts| == 1 then MayEnd(m, attempts[0]) else MayContinue(m, attempts[0]) && AttemptsOk(m, attempts[1..]))
  }

  // The grammar. RunContinuousManager: Stop alone, or attempts. RunUntilSuccessManager: nothing,
  // or Init alone, or attempts other than a single one that is cut right after Init.
  ghost predicate InLanguage(m: Manager, w: seq<Call>) {
    || (m == Continuous && |w| == 1 && w[0].state == Stop && w[0].result != Panicked)
    || (m == UntilSuccess && (w == [] || (|w| == 1 && w[0].state == Init && w[0].result != Panicked)))
    || exists attempts: seq<Attempt> {:trigger Words(attempts)} ::
         attempts != [] && AttemptsOk(m, attempts) && w == Words(attempts)
         && (m == UntilSuccess && |attempts| == 1 ==> attempts[0].kind != CutBeforeIdle)
  }

  // ------------------------------------------------------------------------ the calls of a run

  function Word(h: Shape): seq<Call> {
    h.ran + h.cleanup
  }

  // The calls the loop makes, the cleanup after it included. With a tick left it does not matter
  // whether Stop has just run.
  function LoopWord(m: Manager, s: State, hasStopped: bool, ticks: seq<Result>, final: Result): seq<Call>
    decreases |ticks|, 1
  {
    if s == Exit || ticks == [] then Cleanup(hasStopped, final) else TickWord(m, s, ticks, final)
  }

  function TickWord(m: Manager, s: State, ticks: seq<Result>, final: Result): seq<Call>
    requires ticks != []
    decreases |ticks|, 0
  {
    [Call(s, ticks[0])] + LoopWord(m, Next(m, s, ticks[0]), s == Stop, ticks[1..], final)
  }

  lemma {:induction false} WordOfLoopShape(m: Manager, s: State, hasStopped: bool, ticks: seq<Result>, final: Result)
    ensures Word(LoopShape(m, s, hasStopped, ticks, final)) == LoopWord(m, s, hasStopped, ticks, final)
    decreases |ticks|
  {
    if s != Exit && ticks != [] {
      WordOfLoopShape(m, Next(m, s, ticks[0]), s == Stop, ticks[1..], final);
      assert LoopWord(m, s, hasStopped, ticks, final) == TickWord(m, s, ticks, final);
    }
  }

  lemma CallsOfShape(h: Shape)
    requires |h.waiting| <= 1
    ensures Calls(Compose(h)) == Word(h)
  {
    CallsConcat(Wrap(h.ran), Ending(h));
    CallsOfWrap(h.ran);
    var tail := Wrap(h.cleanup) + [Enters(Exit)];
    CallsConcat(Wrap(h.cleanup), [Enters(Exit)]);
    CallsOfWrap(h.cleanup);
    if h.waiting != [] {
      CallsConcat([Enters(h.waiting[0])], tail);
    } else {
      assert Ending(h) == tail;
    }
  }

  // ------------------------------------------------------------------------------- soundness

  // Stop once, and on to Init if there was no error or no retrying.
  lemma StopOnce(m: Manager, ticks: seq<Result>, final: Result)
    requires ticks != [] && (m == Continuous || ticks[0] == Nil)
    ensures TickWord(m, Stop, ticks, final) == StopCalls([ticks[0]]) + LoopWord(m, Init, true, ticks[1..], final)
  {
    assert StopCalls([ticks[0]][1..]) == [];
  }

  lemma StopAgain(ticks: seq<Result>, final: Result, stops: seq<Result>, after: seq<Call>)
    requires ticks != [] && ticks[0] == Failed
    requires LoopWord(UntilSuccess, Stop, true, ticks[1..], final) == StopCalls(stops) + after
    ensures TickWord(UntilSuccess, Stop, ticks, final) == StopCalls([Failed] + stops) + after
  {
    assert ([Failed] + stops)[1..] == stops;
  }

  lemma TailPanicFree(ticks: seq<Result>, final: Result, k: nat)
    requires PanicFree(ticks, final) && k <= |ticks|
    ensures PanicFree(ticks[k..], final)
  {
  }

  // What follows the Stop phase: nothing, or the loop from Init on.
  function Rest(m: Manager, more: bool, ticks: seq<Result>, final: Result): seq<Call> {
    if more then LoopWord(m, Init, true, ticks, final) else []
  }

  // The Stop phase of an attempt: one Stop, or retries, and then perhaps a new Init.
  lemma {:induction false} StopPhase(m: Manager, hasStopped: bool, ticks: seq<Result>, final: Result)
    returns (stops: seq<Result>, k: nat, more: bool)
    requires PanicFree(ticks, final)
    ensures k <= |ticks| && (more ==> k > 0)
    ensures LoopWord(m, Stop, hasStopped, ticks, final) == StopCalls(stops) + Rest(m, more, ticks[k..], final)
    ensures stops == [] <==> ticks == [] && hasStopped
    ensures stops != [] ==> Retries(stops)
    ensures m == Continuous ==> |stops| <= 1
    ensures m == UntilSuccess && more ==> stops != [] && Last(stops) == Nil
    decreases |ticks|
  {
    if ticks == [] {
      stops, k, more := if hasStopped then [] else [final], 0, false;
      assert !hasStopped ==> StopCalls([final][1..]) == [];
    } else if m == UntilSuccess && ticks[0] == Failed {
      TailPanicFree(ticks, final, 1);
      var rest, j;
      rest, j, more := StopPhase(m, true, ticks[1..], final);
      assert ticks[1..][j..] == ticks[j + 1..];
      StopAgain(ticks, final, rest, Rest(m, more, ticks[j + 1..], final));
      stops, k := [Failed] + rest, j + 1;
    } else {
      StopOnce(m, ticks, final);
      stops, k, more := [ticks[0]], 1, true;
    }
  }

  // After k ticks of an attempt the loop is at state s with the calls `done` behind it.
  ghost predicate Reaches(m: Manager, ticks: seq<Result>, final: Result, k: nat, s: State, done: seq<Call>) {
    0 < k <= |ticks| && s != Exit
    && TickWord(m, Init, ticks, final) == done + LoopWord(m, s, false, ticks[k..], final)
  }

  lemma ReachOne(m: Manager, ticks: seq<Result>, final: Result)
    requires ticks != []
    ensures Reaches(m, ticks, final, 1, Next(m, Init, ticks[0]), [Call(Init, ticks[0])])
  {
  }

  lemma ReachNext(m: Manager, ticks: seq<Result>, final: Result, k: nat, s: State, done: seq<Call>)
    requires Reaches(m, ticks, final, k, s, done) && k < |ticks| && s != Stop && Next(m, s, ticks[k]) != Exit
    ensures Reaches(m, ticks, final, k + 1, Next(m, s, ticks[k]), done + [Call(s, ticks[k])])
  {
    assert ticks[k..][0] == ticks[k] && ticks[k..][1..] == ticks[k + 1..];
    assert LoopWord(m, s, false, ticks[k..], final) == TickWord(m, s, ticks[k..], final);
  }

  // The Stop phase that begins after k ticks, without a Stop yet.
  lemma StopsFrom(m: Manager, ticks: seq<Result>, final: Result, k: nat)
    returns (stops: seq<Result>, n: nat, more: bool)
    requires PanicFree(ticks, final) && 0 < k <= |ticks|
    ensures 0 < n <= |ticks|
    ensures LoopWord(m, Stop, false, ticks[k..], final) == StopCalls(stops) + Rest(m, more, ticks[n..], final)
    ensures Retries(stops) && (m == Continuous ==> |stops| == 1)
    ensures m == UntilSuccess && more ==> Last(stops) == Nil
  {
    TailPanicFree(ticks, final, k);
    var j;
    stops, j, more := StopPhase(m, false, ticks[k..], final);
    assert ticks[k..][j..] == ticks[k + j..];
    n := k + j;
  }

  // A failed lifecycle method leads to the Stop phase.
  lemma ReachStop(m: Manager, ticks: seq<Result>, final: Result, k: nat, kind: Kind)
    returns (a: Attempt, n: nat, more: bool)
    requires PanicFree(ticks, final) && Reaches(m, ticks, final, k, Stop, Body(kind)) && !Cut(kind)
    requires m == UntilSuccess ==> kind != RunSucceeds
    ensures a.kind == kind && 0 < n <= |ticks|
    ensures TickWord(m, Init, ticks, final) == Body(kind) + StopCalls(a.stops) + Rest(m, more, ticks[n..], final)
    ensures MayEnd(m, a) && (more ==> MayContinue(m, a))
  {
    var stops;
    stops, n, more := StopsFrom(m, ticks, final, k);
    a := Attempt(kind, stops);
    assert Body(kind) + (StopCalls(stops) + Rest(m, more, ticks[n..], final))
        == Body(kind) + StopCalls(stops) + Rest(m, more, ticks[n..], final);
  }

  // A cancelled wait leads to one Stop.
  lemma ReachCut(m: Manager, ticks: seq<Result>, final: Result, s: State, kind: Kind)
    requires PanicFree(ticks, final) && Reaches(m, ticks, final, |ticks|, s, Body(kind))
    ensures TickWord(m, Init, ticks, final) == Body(kind) + StopCalls([final]) + Rest(m, false, [], final)
    ensures Cut(kind) ==> MayEnd(m, Attempt(kind, [final]))
  {
    assert StopCalls([final][1..]) == [];
  }

  lemma Succeed(ticks: seq<Result>, final: Result)
    requires PanicFree(ticks, final) && |ticks| > 2 && ticks[2] == Nil
    requires Reaches(UntilSuccess, ticks, final, 2, Run, Body(CutBeforeRun))
    ensures TickWord(UntilSuccess, Init, ticks, final)
         == Body(RunSucceeds) + StopCalls([final]) + Rest(UntilSuccess, false, [], final)
  {
    assert ticks[2..][0] == Nil;
    assert LoopWord(UntilSuccess, Run, false, ticks[2..], final) == TickWord(UntilSuccess, Run, ticks[2..], final);
    assert LoopWord(UntilSuccess, Exit, false, ticks[2..][1..], final) == [Call(Stop, final)];
    assert StopCalls([final][1..]) == [];
  }

  lemma AttemptRun(m: Manager, ticks: seq<Result>, final: Result) returns (a: Attempt, n: nat, more: bool)
    requires PanicFree(ticks, final) && |ticks| >= 2 && Reaches(m, ticks, final, 2, Run, Body(CutBeforeRun))
    ensures 0 < n <= |ticks|
    ensures TickWord(m, Init, ticks, final) == Body(a.kind) + StopCalls(a.stops) + Rest(m, more, ticks[n..], final)
    ensures MayEnd(m, a) && (more ==> MayContinue(m, a)) && a.kind != CutBeforeIdle
  {
    if |ticks| == 2 {
      ReachCut(m, ticks, final, Run, CutBeforeRun);
      a, n, more := Attempt(CutBeforeRun, [final]), 2, false;
    } else if m == UntilSuccess && ticks[2] == Nil {
      Succeed(ticks, final);
      a, n, more := Attempt(RunSucceeds, [final]), 3, false;
    } else {
      ReachNext(m, ticks, final, 2, Run, Body(CutBeforeRun));
      var kind := if ticks[2] == Nil then RunSucceeds else RunFails;
      a, n, more := ReachStop(m, ticks, final, 3, kind);
    }
  }

  // One attempt of the loop, starting at Init.
  lemma FirstAttempt(m: Manager, ticks: seq<Result>, final: Result) returns (a: Attempt, n: nat, more: bool)
    requires PanicFree(ticks, final) && ticks != []
    ensures 0 < n <= |ticks|
    ensures TickWord(m, Init, ticks, final) == Body(a.kind) + StopCalls(a.stops) + Rest(m, more, ticks[n..], final)
    ensures MayEnd(m, a) && (more ==> MayContinue(m, a))
    ensures a.kind == CutBeforeIdle ==> |ticks| == 1
  {
    ReachOne(m, ticks, final);
    if ticks[0] == Failed {
      a, n, more := ReachStop(m, ticks, final, 1, InitFails);
    } else if |ticks| == 1 {
      ReachCut(m, ticks, final, Idle, CutBeforeIdle);
      a, n, more := Attempt(CutBeforeIdle, [final]), 1, false;
    } else {
      ReachNext(m, ticks, final, 1, Idle, Body(CutBeforeIdle));
      if ticks[1] == Failed {
        a, n, more := ReachStop(m, ticks, final, 2, IdleFails);
      } else {
        a, n, more := AttemptRun(m, ticks, final);
      }
    }
  }

  lemma {:induction false} Parse(m: Manager, ticks: seq<Result>, final: Result) returns (attempts: seq<Attempt>)
    requires PanicFree(ticks, final)
    ensures LoopWord(m, Init, true, ticks, final) == Words(attempts)
    ensures AttemptsOk(m, attempts) && (attempts == [] <==> ticks == [])
    ensures |attempts| == 1 && attempts[0].kind == CutBeforeIdle ==> |ticks| == 1
    decreases |ticks|
  {
    if ticks == [] {
      attempts := [];
    } else {
      var a, k, more := FirstAttempt(m, ticks, final);
      var rest: seq<Attempt> := [];
      if more {
        TailPanicFree(ticks, final, k);
        rest := Parse(m, ticks[k..], final);
      }
      attempts := [a] + rest;
    }
  }

  lemma CallsOfContinuous(ticks: seq<Result>, final: Result)
    requires PanicFree(ticks, final)
    ensures Calls(Trace(Continuous, ticks, final)) == LoopWord(Continuous, Init, false, ticks, final)
  {
    TraceHasShape(Continuous, ticks, final);
    CallsOfShape(TraceShape(Continuous, ticks, final));
    WordOfLoopShape(Continuous, Init, false, ticks, final);
  }

  lemma CallsOfUntilSuccess(ticks: seq<Result>, final: Result)
    requires PanicFree(ticks, final) && ticks != []
    ensures Calls(Trace(UntilSuccess, ticks, final))
         == [Call(Init, ticks[0])]
            + LoopWord(UntilSuccess, Next(UntilSuccess, Init, ticks[0]), true, ticks[1..], final)
  {
    TraceHasShape(UntilSuccess, ticks, final);
    CallsOfShape(TraceShape(UntilSuccess, ticks, final));
    WordOfLoopShape(UntilSuccess, Next(UntilSuccess, Init, ticks[0]), true, ticks[1..], final);
  }

  // The calls of a run: those of the loop from Init, except that RunUntilSuccessManager makes
  // none at all, or just Init, when it is cancelled that early.
  lemma CallsOfTrace(m: Manager, ticks: seq<Result>, final: Result)
    requires PanicFree(ticks, final)
    ensures Calls(Trace(m, ticks, final)) ==
            if ticks == [] then (if m == Continuous then [Call(Stop, final)] else [])
            else if m == UntilSuccess && |ticks| == 1 then [Call(Init, ticks[0])]
            else TickWord(m, Init, ticks, final)
  {
    if m == Continuous {
      CallsOfContinuous(ticks, final);
    } else if ticks != [] {
      CallsOfUntilSuccess(ticks, final);
    } else {
      assert [Enters(Exit)][1..] == [];
    }
  }

  // A completed panic-free run of either manager, for every schedule of runner results and every
  // point of cancellation, makes a call sequence of the grammar.
  lemma CallsAreInLanguage(m: Manager, ticks: seq<Result>, final: Result)
    requires PanicFree(ticks, final)
    ensures InLanguage(m, Calls(Trace(m, ticks, final)))
  {
    CallsOfTrace(m, ticks, final);
    if |ticks| > 1 || (m == Continuous && ticks != []) {
      var attempts := Parse(m, ticks, final);
      assert Calls(Trace(m, ticks, final)) == Words(attempts);
    }
  }

  // ----------------------------------------------------------------------------- completeness

  function BodyResults(k: Kind): seq<Result> {
    match k
    case InitFails => [Failed]
    case IdleFails => [Nil, Failed]
    case RunFails => [Nil, Nil, Failed]
    case RunSucceeds => [Nil, Nil, Nil]
    case CutBeforeIdle => [Nil]
    case CutBeforeRun => [Nil, Nil]
  }

  lemma {:induction false} StopTicks(
    m: Manager, hasStopped: bool, stops: seq<Result>, later: seq<Result>, final: Result)
    requires Retries(stops) && (m == Continuous ==> |stops| == 1)
    requires m == UntilSuccess && Last(stops) != Nil ==> later == []
    ensures LoopWord(m, Stop, hasStopped, stops + later, final)
         == StopCalls(stops) + LoopWord(m, Init, true, later, final)
    decreases |stops|
  {
    var ticks := stops + later;
    assert ticks[0] == stops[0] && ticks[1..] == stops[1..] + later;
    assert LoopWord(m, Stop, hasStopped, ticks, final) == TickWord(m, Stop, ticks, final);
    if |stops| > 1 {
      StopTicks(m, true, stops[1..], later, final);
      assert stops == [Failed] + stops[1..];
      StopAgain(ticks, final, stops[1..], LoopWord(m, Init, true, later, final));
    } else if m == Continuous || stops[0] == Nil {
      StopOnce(m, ticks, final);
      assert stops == [stops[0]] && ticks[1..] == later;
    } else {
      assert ticks[1..] == [];
      assert stops == [Failed] + [];
      StopAgain(ticks, final, [], []);
    }
  }

  lemma TwoNil(m: Manager, ticks: seq<Result>, final: Result)
    requires |ticks| >= 2 && ticks[0] == Nil && ticks[1] == Nil
    ensures Reaches(m, ticks, final, 2, Run, Body(CutBeforeRun))
  {
    ReachOne(m, ticks, final);
    ReachNext(m, ticks, final, 1, Idle, Body(CutBeforeIdle));
  }

  function AfterBody(k: Kind): State {
    if k == CutBeforeIdle then Idle else if k == CutBeforeRun then Run else Stop
  }

  lemma ThreeTicks(m: Manager, ticks: seq<Result>, final: Result)
    requires |ticks| >= 3 && ticks[0] == Nil && ticks[1] == Nil && (m == Continuous || ticks[2] != Nil)
    ensures Reaches(m, ticks, final, 3, Stop, Body(CutBeforeRun) + [Call(Run, ticks[2])])
  {
    TwoNil(m, ticks, final);
    ReachNext(m, ticks, final, 2, Run, Body(CutBeforeRun));
  }

  lemma TwoTicks(m: Manager, ticks: seq<Result>, final: Result)
    requires |ticks| >= 2 && ticks[0] == Nil
    ensures Reaches(m, ticks, final, 2, Next(m, Idle, ticks[1]), Body(CutBeforeIdle) + [Call(Idle, ticks[1])])
  {
    ReachOne(m, ticks, final);
    ReachNext(m, ticks, final, 1, Idle, Body(CutBeforeIdle));
  }

  // The ticks of an attempt's body lead to the state after it.
  lemma BodyTicks(m: Manager, kind: Kind, ticks: seq<Result>, final: Result, later: seq<Result>)
    requires ticks == BodyResults(kind) + later && (m == UntilSuccess ==> kind != RunSucceeds)
    ensures Reaches(m, ticks, final, |Body(kind)|, AfterBody(kind), Body(kind))
  {
    match kind
    case InitFails => ReachOne(m, ticks, final);
    case CutBeforeIdle => ReachOne(m, ticks, final);
    case IdleFails => TwoTicks(m, ticks, final);
    case CutBeforeRun => TwoTicks(m, ticks, final);
    case RunFails => ThreeTicks(m, ticks, final);
    case RunSucceeds => ThreeTicks(m, ticks, final);
  }

  // Schedules that make the calls of the last attempt, and of an attempt before others.
  lemma RealiseCut(m: Manager, kind: Kind, final: Result)
    requires Cut(kind) && final != Panicked
    ensures TickWord(m, Init, BodyResults(kind), final) == Body(kind) + StopCalls([final])
  {
    BodyTicks(m, kind, BodyResults(kind), final, []);
    ReachCut(m, BodyResults(kind), final, AfterBody(kind), kind);
  }

  lemma RealiseSuccess(ticks: seq<Result>, final: Result)
    requires ticks == [Nil, Nil, Nil] && final != Panicked
    ensures TickWord(UntilSuccess, Init, ticks, final) == Body(RunSucceeds) + StopCalls([final])
  {
    TwoNil(UntilSuccess, ticks, final);
    Succeed(ticks, final);
  }

  lemma StopsAfterBody(m: Manager, a: Attempt, ticks: seq<Result>, final: Result, later: seq<Result>)
    requires Retries(a.stops) && (m == Continuous ==> |a.stops| == 1) && !Cut(a.kind)
    requires m == UntilSuccess ==> a.kind != RunSucceeds && (Last(a.stops) != Nil ==> later == [])
    requires ticks == BodyResults(a.kind) + (a.stops + later)
    ensures TickWord(m, Init, ticks, final)
         == Body(a.kind) + (StopCalls(a.stops) + LoopWord(m, Init, true, later, final))
  {
    BodyTicks(m, a.kind, ticks, final, a.stops + later);
    assert ticks[|Body(a.kind)|..] == a.stops + later;
    StopTicks(m, false, a.stops, later, final);
  }

  lemma RealiseStops(m: Manager, a: Attempt)
    requires MayEnd(m, a) && !Cut(a.kind) && (m == UntilSuccess ==> a.kind != RunSucceeds)
    ensures TickWord(m, Init, BodyResults(a.kind) + a.stops, Nil) == Body(a.kind) + StopCalls(a.stops)
  {
    assert a.stops + [] == a.stops;
    StopsAfterBody(m, a, BodyResults(a.kind) + a.stops, Nil, []);
    assert LoopWord(m, Init, true, [], Nil) == [];
  }

  lemma RealiseLast(m: Manager, a: Attempt) returns (ticks: seq<Result>, final: Result)
    requires MayEnd(m, a)
    ensures PanicFree(ticks, final) && ticks != [] && (|ticks| == 1 ==> a.kind == CutBeforeIdle)
    ensures TickWord(m, Init, ticks, final) == Body(a.kind) + StopCalls(a.stops)
  {
    if Cut(a.kind) {
      ticks, final := BodyResults(a.kind), a.stops[0];
      assert a.stops == [final] && final in a.stops;
      RealiseCut(m, a.kind, final);
    } else if m == UntilSuccess && a.kind == RunSucceeds {
      ticks, final := [Nil, Nil, Nil], a.stops[0];
      assert a.stops == [final] && final in a.stops;
      RealiseSuccess(ticks, final);
    } else {
      ticks, final := BodyResults(a.kind) + a.stops, Nil;
      RealiseStops(m, a);
    }
  }

  lemma RealiseBefore(m: Manager, a: Attempt, later: seq<Result>, final: Result) returns (ticks: seq<Result>)
    requires MayContinue(m, a) && PanicFree(later, final) && later != []
    ensures PanicFree(ticks, final) && |ticks| > 1
    ensures TickWord(m, Init, ticks, final) == Body(a.kind) + StopCalls(a.stops) + TickWord(m, Init, later, final)
  {
    ticks := BodyResults(a.kind) + (a.stops + later);
    StopsAfterBody(m, a, ticks, final, later);
  }

  lemma {:induction false} Realise(m: Manager, attempts: seq<Attempt>) returns (ticks: seq<Result>, final: Result)
    requires attempts != [] && AttemptsOk(m, attempts)
    ensures PanicFree(ticks, final) && ticks != []
    ensures |ticks| == 1 ==> |attempts| == 1 && attempts[0].kind == CutBeforeIdle
    ensures TickWord(m, Init, ticks, final) == Words(attempts)
    decreases |attempts|
  {
    if |attempts| == 1 {
      ticks, final := RealiseLast(m, attempts[0]);
      assert Words(attempts[1..]) == [];
    } else {
      var later;
      later, final := Realise(m, attempts[1..]);
      ticks := RealiseBefore(m, attempts[0], later, final);
    }
  }

  // Every word of the grammar is the call sequence of some completed panic-free run, so the
  // grammar describes the two managers exactly.
  lemma LanguageIsRealised(m: Manager, w: seq<Call>) returns (ticks: seq<Result>, final: Result)
    requires InLanguage(m, w)
    ensures PanicFree(ticks, final) && Calls(Trace(m, ticks, final)) == w
  {
    if m == Continuous && |w| == 1 && w[0].state == Stop && w[0].result != Panicked {
      ticks, final := [], w[0].result;
    } else if m == UntilSuccess && w == [] {
      ticks, final := [], Nil;
    } else if m == UntilSuccess && |w| == 1 && w[0].state == Init && w[0].result != Panicked {
      ticks, final := [w[0].result], Nil;
    } else {
      var attempts: seq<Attempt> :|
        attempts != [] && AttemptsOk(m, attempts) && w == Words(attempts)
        && (m == UntilSuccess && |attempts| == 1 ==> attempts[0].kind != CutBeforeIdle);
      ticks, final := Realise(m, attempts);
    }
    CallsOfTrace(m, ticks, final);
  }

  // ------------------------------------------------------------------------------ consequences

  lemma LastOfConcat<T>(a: seq<T>, b: seq<T>)
    requires b != []
    ensures a + b != [] && Last(a + b) == Last(b)
  {
  }

  lemma {:induction false} StopCallsEnd(stops: seq<Result>)
    requires stops != []
    ensures StopCalls(stops) != [] && Last(StopCalls(stops)).state == Stop
  {
    if |stops| > 1 {
      StopCallsEnd(stops[1..]);
      assert Last(StopCalls(stops)) == Last(StopCalls(stops[1..]));
    } else {
      assert StopCalls(stops) == [Call(Stop, stops[0])] + StopCalls([]);
    }
  }

  lemma {:induction false} WordsEndInStop(m: Manager, attempts: seq<Attempt>)
    requires attempts != [] && AttemptsOk(m, attempts)
    ensures Words(attempts) != [] && Last(Words(attempts)).state == Stop
    decreases |attempts|
  {
    var body, stops := Body(attempts[0].kind), StopCalls(attempts[0].stops);
    if |attempts| == 1 {
      StopCallsEnd(attempts[0].stops);
      LastOfConcat(body, stops);
      assert Words(attempts) == body + stops + [];
    } else {
      WordsEndInStop(m, attempts[1..]);
      LastOfConcat(body + stops, Words(attempts[1..]));
    }
  }

  // Whatever ran is cleaned up: the last call of a completed panic-free run is Stop. The one
  // exception is a RunUntilSuccessManager cancelled right after its first Init, whose hasStopped
  // flag still has its initial value; it ends without any Stop, against the comment at the end of
  // Manage. (Cancelled before its first tick it makes no call at all.)
  lemma StopIsLast(m: Manager, ticks: seq<Result>, final: Result)
    requires PanicFree(ticks, final)
    ensures var w := Calls(Trace(m, ticks, final));
      && (w == [] <==> m == UntilSuccess && ticks == [])
      && (w != [] ==> (Last(w).state == Stop <==> !(m == UntilSuccess && |ticks| == 1)))
  {
    CallsOfTrace(m, ticks, final);
    if |ticks| > 1 || (m == Continuous && ticks != []) {
      var attempts := Parse(m, ticks, final);
      WordsEndInStop(m, attempts);
    }
  }

  lemma SkippedCleanup()
    ensures PanicFree([Nil], Nil) && Calls(Trace(UntilSuccess, [Nil], Nil)) == [Call(Init, Nil)]
  {
    CallsOfTrace(UntilSuccess, [Nil], Nil);
  }
}

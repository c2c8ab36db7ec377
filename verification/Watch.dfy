// The watch filters (service_context.go): what a watcher emits for the snapshots it receives.
module Watch {
  import opened Orders
  import opened Lifecycle
  import opened StatesWatcher

  // Undefined and UndefinedMode stand for any value outside the constants.
  datatype Action = OnEntering | OnExited | OnChanging | OnNotIn | Undefined

  datatype FilterMode = NoMode | Include | Exclude | UndefinedMode

  datatype Query =
    | All(action: Action, target: State, services: seq<string>)
    | Any(action: Action, target: State, services: seq<string>)
    | Filtered(mode: FilterMode, names: set<string>)

  predicate Matches(action: Action, target: State, u: StateUpdate) {
    match action
    case OnEntering => u.state == target && u.transition == Entering
    case OnExited => u.state == target && u.transition == Exited
    case OnChanging => u.state == target
    case OnNotIn => u.state != target
    case Undefined => false
  }

  function ToSet(names: seq<string>): set<string> {
    set n | n in names
  }

  // The states of the named services that match.
  function Interested(action: Action, target: State, services: seq<string>, states: States): States {
    map n | n in services && n in states && Matches(action, target, states[n]) :: states[n]
  }

  // Whether a filter with names lets the name pass.
  predicate Passes(mode: FilterMode, names: set<string>, n: string) {
    (mode == Include && n in names) || (mode == Exclude && n !in names)
  }

  function Selected(mode: FilterMode, names: set<string>, states: States): States {
    if names == {} || mode == NoMode then states
    else map n | n in states && Passes(mode, names, n) :: states[n]
  }

  // What is sent to the caller for a snapshot.
  function Answer(q: Query, states: States): States {
    match q
    case All(action, target, services) => Interested(action, target, services, states)
    case Any(action, target, services) => Interested(action, target, services, states)
    case Filtered(mode, names) => Selected(mode, names, states)
  }

  // Whether anything is sent: WatchAllServices compares the sizes of the map and of the list.
  predicate Fires(q: Query, states: States) {
    match q
    case All(action, target, services) => |Interested(action, target, services, states)| == |services|
    case Any(action, target, services) => |Interested(action, target, services, states)| > 0
    case Filtered(_, _) => true
  }

  // ------------------------------------------------------------------------ what the tests decide

  predicate NoDuplicates(names: seq<string>) {
    forall i, j :: 0 <= i < j < |names| ==> names[i] != names[j]
  }

  lemma {:induction false} ToSetSize(names: seq<string>)
    ensures |ToSet(names)| <= |names|
    ensures |ToSet(names)| == |names| <==> NoDuplicates(names)
  {
    if names != [] {
      var init := names[..|names| - 1];
      ToSetSize(init);
      assert names == init + [Last(names)];
      assert ToSet(names) == ToSet(init) + {Last(names)};
      if Last(names) in init {
        assert ToSet(names) == ToSet(init);
        var i :| 0 <= i < |init| && init[i] == Last(names);
        assert names[i] == names[|names| - 1];
      } else {
        assert NoDuplicates(init) ==> NoDuplicates(names);
        assert NoDuplicates(names) ==> NoDuplicates(init);
      }
    }
  }

  lemma SubsetSize(a: set<string>, b: set<string>)
    requires a <= b
    ensures |a| <= |b| && (|a| == |b| <==> a == b)
  {
    assert b == a + (b - a);
  }

  // WatchAllServices sends exactly if every named service is present and matches, provided no
  // name is given twice; with a repeated name it never sends (with no names it always does).
  lemma AllFires(action: Action, target: State, services: seq<string>, states: States)
    ensures Fires(All(action, target, services), states) <==>
            NoDuplicates(services)
            && forall n :: n in services ==> n in states && Matches(action, target, states[n])
  {
    ToSetSize(services);
    var found := Interested(action, target, services, states);
    assert found.Keys <= ToSet(services);
    SubsetSize(found.Keys, ToSet(services));
    assert |found| == |found.Keys|;
    if forall n :: n in services ==> n in states && Matches(action, target, states[n]) {
      assert found.Keys == ToSet(services);
    } else {
      var n :| n in services && !(n in states && Matches(action, target, states[n]));
      assert n in ToSet(services) && n !in found.Keys;
    }
  }

  // It does not fire for a repeated name, even though the service it names matches.
  lemma RepeatedName(action: Action, target: State, n: string, states: States)
    requires n in states && Matches(action, target, states[n])
    ensures Fires(All(action, target, [n]), states) && !Fires(All(action, target, [n, n]), states)
  {
    AllFires(action, target, [n], states);
    AllFires(action, target, [n, n], states);
    assert [n, n][0] == [n, n][1];
  }

  // WatchAnyServices sends exactly if some named service is present and matches.
  lemma AnyFires(action: Action, target: State, services: seq<string>, states: States)
    ensures Fires(Any(action, target, services), states) <==>
            exists n :: n in services && n in states && Matches(action, target, states[n])
  {
    var found := Interested(action, target, services, states);
    if n :| n in services && n in states && Matches(action, target, states[n]) {
      assert n in found;
    } else {
      assert found == map[];
    }
  }

  // Over the present services Changing and NotIn partition the named ones, and Entering and
  // Exited are the parts of Changing with that transition; everything else in Changing has no
  // known transition.
  lemma ActionsPartition(target: State, services: seq<string>, states: States)
    ensures var changing := Interested(OnChanging, target, services, states);
            var notIn := Interested(OnNotIn, target, services, states);
            var entering := Interested(OnEntering, target, services, states);
            var exited := Interested(OnExited, target, services, states);
      && changing.Keys !! notIn.Keys && changing.Keys + notIn.Keys == ToSet(services) * states.Keys
      && entering.Keys !! exited.Keys && entering.Keys + exited.Keys <= changing.Keys
      && (forall n :: n in entering ==> entering[n] == StateUpdate(target, Entering) == states[n])
      && (forall n :: n in exited ==> exited[n] == StateUpdate(target, Exited) == states[n])
      && (forall n :: n in changing ==>
            changing[n] == states[n] && states[n].state == target
            && (n in entering || n in exited || states[n].transition == TransitionUnknown))
      && (forall n :: n in notIn ==> notIn[n] == states[n] && states[n].state != target)
      && Interested(Undefined, target, services, states) == map[]
  {
  }

  // For a nonempty set of names Include and Exclude split the snapshot in two, and an undefined
  // mode selects nothing. Without names, or without a mode, everything is selected.
  lemma FiltersPartition(names: set<string>, states: States)
    ensures var inside := Selected(Include, names, states);
            var outside := Selected(Exclude, names, states);
      if names == {} then inside == outside == Selected(UndefinedMode, names, states) == states
      else
        && inside.Keys !! outside.Keys && inside + outside == states && inside.Keys == states.Keys * names
        && Selected(UndefinedMode, names, states) == map[]
    ensures Selected(NoMode, names, states) == states
  {
  }

  // Whether the service n is in the answer to a snapshot.
  predicate Asked(q: Query, states: States, n: string) {
    && n in states
    && match q
       case Filtered(mode, names) =>
         names == {} || mode == NoMode || (mode == Include && n in names) || (mode == Exclude && n !in names)
       case _ =>
         && n in q.services
         && (q.action == OnEntering ==> states[n] == StateUpdate(q.target, Entering))
         && (q.action == OnExited ==> states[n] == StateUpdate(q.target, Exited))
         && (q.action == OnChanging ==> states[n].state == q.target)
         && (q.action == OnNotIn ==> states[n].state != q.target)
         && q.action != Undefined
  }

  // a consists of exactly the services asked for, with the values of the snapshot.
  ghost predicate IsAnswer(q: Query, states: States, a: States) {
    && (forall n :: n in a <==> Asked(q, states, n))
    && (forall n :: n in a ==> n in states && a[n] == states[n])
  }

  // When something is sent at all.
  ghost predicate ShouldFire(q: Query, states: States) {
    match q
    case All(_, _, services) => NoDuplicates(services) && forall n :: n in services ==> Asked(q, states, n)
    case Any(_, _, services) => exists n :: n in services && Asked(q, states, n)
    case Filtered(_, _) => true
  }

  // What a watch sends for a snapshot, and when, for every kind of watch.
  lemma AnswersAsAsked(q: Query, states: States)
    ensures IsAnswer(q, states, Answer(q, states))
    ensures Fires(q, states) <==> ShouldFire(q, states)
  {
    match q
    case All(action, target, services) => AllFires(action, target, services, states);
    case Any(action, target, services) => AnyFires(action, target, services, states);
    case Filtered(mode, names) =>
  }

  // ------------------------------------------------------------------------------- the goroutines

  lemma OneMore(action: Action, target: State, services: seq<string>, n: string, states: States)
    ensures var found := Interested(action, target, services, states);
      Interested(action, target, services + [n], states)
      == if n in states && Matches(action, target, states[n]) then found[n := states[n]] else found
  {
  }

  // The loops that fill the result maps.
  method CollectInterested(action: Action, target: State, services: seq<string>, states: States)
    returns (found: States)
    ensures found == Interested(action, target, services, states)
  {
    found := map[];
    for i := 0 to |services|
      invariant found == Interested(action, target, services[..i], states)
    {
      var name := services[i];
      OneMore(action, target, services[..i], name, states);
      assert services[..i + 1] == services[..i] + [name];
      if name !in states { continue; }
      var current := states[name];
      var interested := false;
      match action {
        case OnEntering => interested := current.state == target && current.transition == Entering;
        case OnExited => interested := current.state == target && current.transition == Exited;
        case OnChanging => interested := current.state == target;
        case OnNotIn => interested := current.state != target;
        case Undefined =>
      }
      if interested { found := found[name := current]; }
    }
    assert services[..|services|] == services;
  }

  method CollectSelected(mode: FilterMode, names: set<string>, states: States) returns (found: States)
    ensures found == Selected(mode, names, states)
  {
    if |names| == 0 || mode == NoMode { return states; }
    found := map[];
    var todo := states.Keys;
    while todo != {}
      invariant todo <= states.Keys
      invariant found == map n | n in states && n !in todo && Passes(mode, names, n) :: states[n]
      decreases todo
    {
      var n :| n in todo;
      todo := todo - {n};
      match mode {
        case Include => if n in names { found := found[n := states[n]]; }
        case Exclude => if n !in names { found := found[n := states[n]]; }
        case _ =>   // selects nothing
      }
    }
  }

  // What happens to a watcher: a snapshot arrives and, if there is something to send, the caller
  // takes it or the context ends first; or the context ends, or the subscription is closed.
  datatype Arrival = Snapshot(states: States, takenByCaller: bool) | ContextDone | Closed

  // The emissions for a sequence of snapshots, all taken by the caller.
  function Emissions(q: Query, inbox: seq<States>): seq<States> {
    if inbox == [] then []
    else
      Emissions(q, inbox[..|inbox| - 1]) + if Fires(q, Last(inbox)) then [Answer(q, Last(inbox))] else []
  }

  // The snapshots a watcher handles completely.
  function Handled(q: Query, arrivals: seq<Arrival>): seq<States> {
    if arrivals == [] then []
    else
      match arrivals[0]
      case Snapshot(s, taken) => if Fires(q, s) && !taken then [] else [s] + Handled(q, arrivals[1..])
      case _ => []
  }

  // The snapshots the goroutine receives: it stops receiving when the context or the subscription
  // ends, and also when the context ends while it offers an answer to the caller.
  function Received(q: Query, arrivals: seq<Arrival>): seq<States> {
    if arrivals == [] || !arrivals[0].Snapshot? then []
    else if Fires(q, arrivals[0].states) && !arrivals[0].takenByCaller then [arrivals[0].states]
    else [arrivals[0].states] + Received(q, arrivals[1..])
  }

  // The goroutine got as far as offering an answer that the caller has not taken.
  predicate Untaken(q: Query, arrivals: seq<Arrival>) {
    && arrivals != [] && arrivals[0].Snapshot?
    && if Fires(q, arrivals[0].states) && !arrivals[0].takenByCaller then true else Untaken(q, arrivals[1..])
  }

  predicate TakenAt(arrivals: seq<Arrival>, i: int) {
    0 <= i < |arrivals| && arrivals[i].Snapshot? && arrivals[i].takenByCaller
  }

  // Exactly how far that is: up to the first arrival that is no snapshot or, included, the first
  // one whose answer is offered and not taken.
  lemma {:induction false} ReceivedInOrder(q: Query, arrivals: seq<Arrival>)
    ensures var all := Received(q, arrivals);
      && |all| <= |arrivals|
      && forall i :: 0 <= i < |all| ==>
           && arrivals[i].Snapshot? && arrivals[i].states == all[i]
           && (i < |all| - 1 && Fires(q, all[i]) ==> arrivals[i].takenByCaller)
  {
    if arrivals != [] && arrivals[0].Snapshot? {
      ReceivedInOrder(q, arrivals[1..]);
      var all := Received(q, arrivals);
      forall i | 0 < i < |all|
        ensures arrivals[i] == arrivals[1..][i - 1] && all[i] == Received(q, arrivals[1..])[i - 1]
      {
      }
    }
  }

  lemma {:induction false} ReceivedUntil(q: Query, arrivals: seq<Arrival>)
    ensures var all := Received(q, arrivals);
      && |all| <= |arrivals|
      && (|all| < |arrivals| && arrivals[|all|].Snapshot? ==> Untaken(q, arrivals))
      && (Untaken(q, arrivals) <==>
            all != [] && Fires(q, Last(all)) && !TakenAt(arrivals, |all| - 1))
  {
    if arrivals != [] && arrivals[0].Snapshot? {
      var rest := Received(q, arrivals[1..]);
      ReceivedUntil(q, arrivals[1..]);
      if !Fires(q, arrivals[0].states) || arrivals[0].takenByCaller {
        assert rest != [] ==> Last([arrivals[0].states] + rest) == Last(rest);
        assert rest != [] ==> arrivals[1..][|rest| - 1] == arrivals[|rest|];
      }
    }
  }

  ghost predicate HandledUpTo(untaken: bool, q: Query, handled: seq<States>, all: seq<States>) {
    if untaken then all != [] && Fires(q, Last(all)) && handled == all[..|all| - 1] else handled == all
  }

  lemma HandledUpToFirst(untaken: bool, q: Query, handled: seq<States>, all: seq<States>, s: States)
    requires HandledUpTo(untaken, q, handled, all)
    ensures HandledUpTo(untaken, q, [s] + handled, [s] + all)
  {
    if untaken {
      assert ([s] + all)[..|all|] == [s] + all[..|all| - 1];
      assert Last([s] + all) == Last(all);
    }
  }

  // Whatever the caller and the context do: every snapshot received is handled completely, except
  // that the last one is not exactly if the caller has not taken its answer.
  lemma {:induction false} HandledButUntaken(q: Query, arrivals: seq<Arrival>)
    ensures HandledUpTo(Untaken(q, arrivals), q, Handled(q, arrivals), Received(q, arrivals))
  {
    if arrivals != [] && arrivals[0].Snapshot? {
      var s := arrivals[0].states;
      if !Fires(q, s) || arrivals[0].takenByCaller {
        HandledButUntaken(q, arrivals[1..]);
        HandledUpToFirst(Untaken(q, arrivals[1..]), q, Handled(q, arrivals[1..]), Received(q, arrivals[1..]), s);
      }
    }
  }

  // Wherever a watcher is stopped, it has sent the answers to everything it received, up to the
  // one answer that the caller has not taken.
  lemma StoppedAnywhere(q: Query, arrivals: seq<Arrival>)
    ensures var all := Received(q, arrivals);
      Emissions(q, all) == Emissions(q, Handled(q, arrivals))
                           + if Untaken(q, arrivals) then [Answer(q, Last(all))] else []
  {
    HandledButUntaken(q, arrivals);
  }

  lemma {:induction false} NoneFires(q: Query, inbox: seq<States>)
    requires forall i :: 0 <= i < |inbox| ==> !Fires(q, inbox[i])
    ensures Emissions(q, inbox) == []
    decreases |inbox|
  {
    if inbox != [] { NoneFires(q, inbox[..|inbox| - 1]); }
  }

  // If no snapshot fires, nothing is offered and nothing is sent.
  lemma NothingSent(q: Query, arrivals: seq<Arrival>)
    requires forall i :: 0 <= i < |Received(q, arrivals)| ==> !Fires(q, Received(q, arrivals)[i])
    ensures Emissions(q, Handled(q, arrivals)) == [] && !Untaken(q, arrivals)
  {
    HandledButUntaken(q, arrivals);
    NoneFires(q, Received(q, arrivals));
  }

  // An answer can be lost: the context ends while it is offered.
  lemma AnswerLost(q: Query, s: States)
    requires Fires(q, s)
    ensures var arrivals := [Snapshot(s, false), ContextDone];
      Untaken(q, arrivals) && Received(q, arrivals) == [s] && Emissions(q, Handled(q, arrivals)) == []
  {
  }

  // Before arrival i: `done` has been handled and `out` sent.
  ghost predicate Progress(q: Query, arrivals: seq<Arrival>, i: nat, done: seq<States>, out: seq<States>) {
    i <= |arrivals| && Handled(q, arrivals) == done + Handled(q, arrivals[i..]) && out == Emissions(q, done)
  }

  lemma HandleEnd(q: Query, arrivals: seq<Arrival>, i: nat, done: seq<States>, out: seq<States>)
    requires Progress(q, arrivals, i, done, out)
    requires i < |arrivals| && arrivals[i].Snapshot? ==> Fires(q, arrivals[i].states) && !arrivals[i].takenByCaller
    ensures out == Emissions(q, Handled(q, arrivals))
  {
    assert i < |arrivals| ==> arrivals[i..][0] == arrivals[i];
    assert done + [] == done;
  }

  method Examine(q: Query, states: States) returns (answer: States, fires: bool)
    ensures answer == Answer(q, states) && fires == Fires(q, states)
    ensures IsAnswer(q, states, answer) && (fires <==> ShouldFire(q, states))
  {
    AnswersAsAsked(q, states);
    match q
    case All(action, target, services) =>
      answer := CollectInterested(action, target, services, states);
      fires := |answer| == |services|;
    case Any(action, target, services) =>
      answer := CollectInterested(action, target, services, states);
      fires := |answer| > 0;
    case Filtered(mode, names) =>
      answer := CollectSelected(mode, names, states);
      fires := true;
  }

  // The goroutines of WatchAllServices, WatchAnyServices and WatchAllStates: they send exactly
  // the answers to the snapshots they handle, in order, and close the channel at the end.
  method Watcher(q: Query, arrivals: seq<Arrival>) returns (out: seq<States>)
    ensures out == Emissions(q, Handled(q, arrivals))
  {
    out := [];
    ghost var done: seq<States> := [];
    var i := 0;
    while i < |arrivals| && arrivals[i].Snapshot?
      invariant Progress(q, arrivals, i, done, out)
    {
      var states := arrivals[i].states;
      var answer, fires := Examine(q, states);
      if fires && !arrivals[i].takenByCaller { break; }
      if fires { out := out + [answer]; }
      done := done + [states];
      i := i + 1;
    }
    HandleEnd(q, arrivals, i, done, out);
  }
}

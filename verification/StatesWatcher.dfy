// The daemon's states watcher (daemon.go, service_states.go): it folds the updates of all
// services into one map and publishes a copy of the map after every update.
module StatesWatcher {
  import opened Orders
  import opened Lifecycle

  datatype NamedUpdate = NamedUpdate(name: string, update: StateUpdate)

  type States = map<string, StateUpdate>

  // Before its first update every service is in state unknown, "entering".
  function Initial(names: set<string>): States {
    map n | n in names :: StateUpdate(Unknown, Entering)
  }

  function Fold(states: States, updates: seq<NamedUpdate>): States {
    if updates == [] then states
    else Fold(states, updates[..|updates| - 1])[Last(updates).name := Last(updates).update]
  }

  // What the watcher has published after processing the updates.
  function Snapshots(states: States, updates: seq<NamedUpdate>): (r: seq<States>)
    ensures |r| == |updates|
    ensures forall k :: 0 <= k < |r| ==> r[k] == Fold(states, updates[..k + 1])
  {
    seq(|updates|, k requires 0 <= k < |updates| => Fold(states, updates[..k + 1]))
  }

  // --------------------------------------------------------------------- what a snapshot says

  // The updates of one service, in order.
  function Project(updates: seq<NamedUpdate>, n: string): seq<StateUpdate> {
    if updates == [] then []
    else
      Project(updates[..|updates| - 1], n) + if Last(updates).name == n then [Last(updates).update] else []
  }

  lemma {:induction false} ProjectConcat(a: seq<NamedUpdate>, b: seq<NamedUpdate>, n: string)
    ensures Project(a + b, n) == Project(a, n) + Project(b, n)
    decreases |b|
  {
    if b == [] {
      assert a + b == a;
    } else {
      assert (a + b)[..|a + b| - 1] == a + b[..|b| - 1];
      assert Last(a + b) == Last(b);
      ProjectConcat(a, b[..|b| - 1], n);
    }
  }

  lemma ProjectOneMore(updates: seq<NamedUpdate>, u: NamedUpdate, n: string)
    ensures Project(updates + [u], n) == Project(updates, n) + if u.name == n then [u.update] else []
  {
    assert (updates + [u])[..|updates|] == updates;
  }

  // The k-th update is the last write to its service.
  ghost predicate IsLastWrite(updates: seq<NamedUpdate>, n: string, k: nat) {
    k < |updates| && updates[k].name == n && forall j :: k < j < |updates| ==> updates[j].name != n
  }

  // The fold is the last-writer map: a name that was written has the value of its last write, any
  // other name what it had before, and names are never lost.
  lemma {:induction false} FoldIsLastWriter(states: States, updates: seq<NamedUpdate>, n: string, k: nat)
    requires IsLastWrite(updates, n, k)
    ensures n in Fold(states, updates) && Fold(states, updates)[n] == updates[k].update
    decreases |updates|
  {
    var init := updates[..|updates| - 1];
    if k < |init| {
      assert forall j :: k < j < |init| ==> init[j] == updates[j];
      FoldIsLastWriter(states, init, n, k);
      assert updates[|init|].name != n;
    }
  }

  lemma {:induction false} FoldKeepsTheRest(states: States, updates: seq<NamedUpdate>, n: string)
    requires forall j :: 0 <= j < |updates| ==> updates[j].name != n
    ensures n in Fold(states, updates) <==> n in states
    ensures n in states ==> Fold(states, updates)[n] == states[n]
    decreases |updates|
  {
    if updates != [] {
      FoldKeepsTheRest(states, updates[..|updates| - 1], n);
    }
  }

  // The value of a service in a snapshot is the latest of its own updates so far.
  lemma {:induction false} FoldFollowsProject(states: States, updates: seq<NamedUpdate>, n: string)
    requires n in states
    ensures n in Fold(states, updates)
    ensures Fold(states, updates)[n] == if Project(updates, n) == [] then states[n] else Last(Project(updates, n))
    decreases |updates|
  {
    if updates != [] {
      FoldFollowsProject(states, updates[..|updates| - 1], n);
    }
  }

  lemma {:induction false} FoldKeys(states: States, updates: seq<NamedUpdate>)
    requires forall u :: u in updates ==> u.name in states
    ensures Fold(states, updates).Keys == states.Keys
    decreases |updates|
  {
    if updates != [] {
      FoldKeys(states, updates[..|updates| - 1]);
      assert Last(updates) in updates;
    }
  }

  // ---------------------------------------------------------------------------- interleavings

  // The updates are sent by the services in some order, each service sending its own in order.
  ghost predicate IsInterleaving(updates: seq<NamedUpdate>, traces: map<string, seq<StateUpdate>>) {
    && (forall u :: u in updates ==> u.name in traces)
    && (forall n :: n in traces ==> Project(updates, n) == traces[n])
  }

  lemma ProjectPrefix(updates: seq<NamedUpdate>, k: nat, n: string)
    requires k <= |updates|
    ensures Project(updates[..k], n) <= Project(updates, n)
  {
    assert updates == updates[..k] + updates[k..];
    ProjectConcat(updates[..k], updates[k..], n);
  }

  // For every interleaving of the services' updates: the k-th snapshot is about exactly the
  // registered services, and shows of each service a state its own trace has just reached: the
  // last of a prefix of that trace, which only grows from snapshot to snapshot.
  lemma SnapshotsFollowTraces(updates: seq<NamedUpdate>, traces: map<string, seq<StateUpdate>>, k: nat, n: string)
    requires IsInterleaving(updates, traces) && k < |updates| && n in traces
    ensures var p := Project(updates[..k + 1], n);
            var s := Snapshots(Initial(traces.Keys), updates);
            && s[k].Keys == traces.Keys
            && p <= traces[n] && Project(updates[..k], n) <= p
            && s[k][n] == if p == [] then StateUpdate(Unknown, Entering) else Last(p)
  {
    var states := Initial(traces.Keys);
    FoldKeys(states, updates[..k + 1]);
    FoldFollowsProject(states, updates[..k + 1], n);
    ProjectPrefix(updates, k + 1, n);
    ProjectPrefix(updates[..k + 1], k, n);
    assert updates[..k + 1][..k] == updates[..k];
  }

  // The final snapshot shows the last update of every service.
  lemma FinalSnapshot(updates: seq<NamedUpdate>, traces: map<string, seq<StateUpdate>>)
    requires IsInterleaving(updates, traces) && forall n :: n in traces ==> traces[n] != []
    ensures var s := Fold(Initial(traces.Keys), updates);
            s.Keys == traces.Keys && forall n :: n in traces ==> s[n] == Last(traces[n])
  {
    FoldKeys(Initial(traces.Keys), updates);
    forall n | n in traces ensures Fold(Initial(traces.Keys), updates)[n] == Last(traces[n]) {
      FoldFollowsProject(Initial(traces.Keys), updates, n);
    }
  }

  // ---------------------------------------------------------------- what a service sends in all

  // A service's manager and everything that happens to it.
  datatype Service = Service(manager: Manager, ticks: seq<Result>, final: Result)

  // A panic that leaves Manage; RunUntilSuccessManager recovers its own and returns.
  predicate Escapes(s: Service) {
    s.manager == Continuous && Panics(s.manager, s.ticks, s.final)
  }

  // Swallowed: RunUntilSuccessManager recovered from a panic of its runner.
  predicate Swallows(s: Service) {
    s.manager == UntilSuccess && Panics(s.manager, s.ticks, s.final)
  }

  // Everything the service's goroutine sends: the manager's updates, and the final Exit that the
  // daemon sends after recovering from an escaped panic.
  function Sends(s: Service): seq<StateUpdate> {
    Updates(Trace(s.manager, s.ticks, s.final)) + if Escapes(s) then [StateUpdate(Exit, Entering)] else []
  }

  lemma {:induction false} UpdatesOnlyFrom(t: seq<Event>, u: StateUpdate)
    requires u in Updates(t)
    ensures Sent(u) in t
  {
    if t[0] != Sent(u) {
      UpdatesOnlyFrom(t[1..], u);
    }
  }

  // The final update of a service is "entering exit" in every run, panics included, unless its
  // runner reaches a panic under a RunUntilSuccessManager, which swallows it; then the service
  // never sends that update at all, although the daemon means Exit to be its final state.
  lemma FinalUpdate(s: Service)
    ensures Sends(s) != []
    ensures Last(Sends(s)) == StateUpdate(Exit, Entering) <==> !Swallows(s)
    ensures Swallows(s) ==> StateUpdate(Exit, Entering) !in Sends(s)
  {
    var t := Trace(s.manager, s.ticks, s.final);
    TraceEnds(s.manager, s.ticks, s.final);
    PanicsExactly(s.manager, s.ticks, s.final);
    var n := |t| - 1;
    UpdatesConcat(t[..n], [t[n]]);
    assert t == t[..n] + [t[n]];
    assert Updates([t[n]]) == (if t[n].Sent? then [t[n].update] else []) + Updates([t[n]][1..]);
    if IsPanic(t[n]) {
      UpdatesConcat(t[..n - 1], [t[n - 1]]);
      assert t[..n] == t[..n - 1] + [t[n - 1]];
      assert Updates([t[n - 1]]) == [t[n - 1].update] + Updates([t[n - 1]][1..]);
      if StateUpdate(Exit, Entering) in Updates(t) {
        UpdatesOnlyFrom(t, StateUpdate(Exit, Entering));
      }
    }
  }

  // The updates begin with the two of every call, in order.
  ghost predicate BeginsWithPairs(updates: seq<StateUpdate>, ran: seq<Call>) {
    && 2 * |ran| <= |updates|
    && forall i :: 0 <= i < |ran| ==>
         && updates[2 * i] == StateUpdate(ran[i].state, Entering)
         && updates[2 * i + 1] == StateUpdate(ran[i].state, Exited)
  }

  lemma PairsFirst(ran: seq<Call>, rest: seq<StateUpdate>)
    ensures BeginsWithPairs(Pairs(ran) + rest, ran)
  {
    forall i | 0 <= i < |ran|
      ensures (Pairs(ran) + rest)[2 * i] == StateUpdate(ran[i].state, Entering)
      ensures (Pairs(ran) + rest)[2 * i + 1] == StateUpdate(ran[i].state, Exited)
    {
      PairsAt(ran, i);
    }
  }

  // Everything a service sends in a run without a panic: Entering and Exited of every method it
  // ran, the Entering it waited at when it was cancelled, Entering and Exited of the last Stop if
  // there is one, and Exit.
  lemma SendsInOrder(s: Service) returns (h: Shape)
    requires PanicFree(s.ticks, s.final)
    ensures ShapeOk(s.manager, Init, h) && Trace(s.manager, s.ticks, s.final) == Compose(h)
    ensures BeginsWithPairs(Sends(s), h.ran)
    ensures Sends(s)[2 * |h.ran|..] == Waits(h.waiting) + (Pairs(h.cleanup) + [StateUpdate(Exit, Entering)])
    ensures BeginsWithPairs(Pairs(h.cleanup), h.cleanup)
  {
    h := TraceShape(s.manager, s.ticks, s.final);
    TraceHasShape(s.manager, s.ticks, s.final);
    PanicsExactly(s.manager, s.ticks, s.final);
    UpdatesOfShape(h);
    var rest := Waits(h.waiting) + (Pairs(h.cleanup) + [StateUpdate(Exit, Entering)]);
    assert Sends(s) == Pairs(h.ran) + rest;
    PairsFirst(h.ran, rest);
    PairsFirst(h.cleanup, []);
    assert Pairs(h.cleanup) + [] == Pairs(h.cleanup);
  }

  // Everything a service sends in a run that reaches a panic: the same up to the Entering of the
  // panicking method, and Exit only if the panic escaped to the daemon.
  lemma SendsUntilPanic(s: Service) returns (h: PanicShape)
    requires Panics(s.manager, s.ticks, s.final)
    ensures PanicShapeOk(s.manager, Init, h) && Trace(s.manager, s.ticks, s.final) == Wrap(h.ran) + PanicTail(h)
    ensures BeginsWithPairs(Sends(s), h.ran)
    ensures Sends(s)[2 * |h.ran|..] == Waits(h.waiting) + [StateUpdate(h.q, Entering)]
                                       + if s.manager == Continuous then [StateUpdate(Exit, Entering)] else []
  {
    h := PanicHasShape(s.manager, s.ticks, s.final);
    UpdatesOfPanic(h);
    var rest := Waits(h.waiting) + [StateUpdate(h.q, Entering)]
                + if s.manager == Continuous then [StateUpdate(Exit, Entering)] else [];
    assert Sends(s) == Pairs(h.ran) + rest;
    PairsFirst(h.ran, rest);
  }

  // Only a runner that panics can make a service miss its exit.
  lemma ExitUnlessPanic(s: Service)
    requires PanicFree(s.ticks, s.final) || s.manager == Continuous
    ensures Sends(s) != [] && Last(Sends(s)) == StateUpdate(Exit, Entering)
  {
    FinalUpdate(s);
    PanicsExactly(s.manager, s.ticks, s.final);
  }

  // It does happen: the first Init panics, and all that is ever sent is that Init was entered.
  lemma SwallowedPanic()
    ensures var s := Service(UntilSuccess, [Panicked], Nil);
      Swallows(s) && Sends(s) == [StateUpdate(Init, Entering)]
  {
    var t := [Enters(Init), Called(Call(Init, Panicked))];
    assert Trace(UntilSuccess, [Panicked], Nil) == t;
    assert Updates(t) == [StateUpdate(Init, Entering)] + Updates(t[1..]);
    assert Updates(t[1..]) == [] + Updates(t[1..][1..]);
  }
}

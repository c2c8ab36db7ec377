// daemon.Start from the launch of the services to the end of the states watcher (daemon.go), as a
// step machine: one goroutine per service, the buffered update channel, the watcher, and the main
// goroutine that waits for the services and closes the channel.
module Shutdown {
  import opened Orders
  import opened Lifecycle
  import opened StatesWatcher

  datatype Label =
    | Send(name: string)      // a service sends its next update
    | Done(name: string)      // a service's goroutine ends: wg.Done
    | CloseUpdates            // wg.Wait has returned: close(stateUpdateC)
    | Take                    // the watcher receives an update and applies it
    | Publish                 // the broadcaster receives the watcher's snapshot
    | SignalDone              // the watcher's range loop is over: close(doneC)

  // `left` is what each goroutine still has to send, `sent` everything sent so far. The watcher
  // has taken `taken` updates and published `published` snapshots. `faulted` records a send on
  // the closed channel.
  datatype State = State(
    left: map<string, seq<StateUpdate>>, live: set<string>,
    sent: seq<NamedUpdate>, taken: nat, published: nat,
    cap: nat, closed: bool, done: bool, faulted: bool)

  // `traces` gives the updates of each launched service; the channel has room for four per service.
  function Init(traces: map<string, seq<StateUpdate>>): State {
    State(traces, traces.Keys, [], 0, 0, 4 * |traces|, false, false, false)
  }

  function Step(s: State, l: Label): State {
    match l
    case Send(n) =>
      if n !in s.live || n !in s.left || s.left[n] == [] then s
      else if s.closed then s.(faulted := true)
      else if |s.sent| - s.taken >= s.cap then s
      else s.(left := s.left[n := s.left[n][1..]], sent := s.sent + [NamedUpdate(n, s.left[n][0])])
    case Done(n) =>
      if n in s.live && n in s.left && s.left[n] == [] then s.(live := s.live - {n}) else s
    case CloseUpdates =>
      if s.live != {} || s.closed then s else s.(closed := true)
    case Take =>
      if !s.done && s.taken == s.published && s.taken < |s.sent| then s.(taken := s.taken + 1) else s
    case Publish =>
      if s.published < s.taken then s.(published := s.published + 1) else s
    case SignalDone =>
      if s.closed && s.taken == s.published && s.taken >= |s.sent| then s.(done := true) else s
  }

  function Exec(traces: map<string, seq<StateUpdate>>, run: seq<Label>): State {
    if run == [] then Init(traces) else Step(Exec(traces, run[..|run| - 1]), Last(run))
  }

  ghost predicate Inv(traces: map<string, seq<StateUpdate>>, s: State) {
    && s.left.Keys == traces.Keys && s.live <= traces.Keys
    && (forall n :: n in traces ==> Project(s.sent, n) + s.left[n] == traces[n])
    && (forall u :: u in s.sent ==> u.name in traces)
    && (forall n :: n in traces && n !in s.live ==> s.left[n] == [])
    && s.published <= s.taken <= s.published + 1 && s.taken <= |s.sent|
    && s.cap == 4 * |traces| && |s.sent| - s.taken <= s.cap
    && (s.closed ==> s.live == {}) && !s.faulted
    && (s.done ==> s.closed && s.published == |s.sent|)
  }

  lemma SendKeepsInv(traces: map<string, seq<StateUpdate>>, s: State, n: string)
    requires Inv(traces, s)
    ensures Inv(traces, Step(s, Send(n)))
  {
    var r := Step(s, Send(n));
    if r != s {
      var u := NamedUpdate(n, s.left[n][0]);
      assert r.sent == s.sent + [u];
      assert s.left[n] == [u.update] + r.left[n];
      forall k | k in traces ensures Project(r.sent, k) + r.left[k] == traces[k] {
        ProjectOneMore(s.sent, u, k);
      }
    }
  }

  lemma StepKeepsInv(traces: map<string, seq<StateUpdate>>, s: State, l: Label)
    requires Inv(traces, s)
    ensures Inv(traces, Step(s, l))
  {
    match l
    case Send(n) => SendKeepsInv(traces, s, n);
    case _ =>
  }

  lemma {:induction false} Reachable(traces: map<string, seq<StateUpdate>>, run: seq<Label>)
    ensures Inv(traces, Exec(traces, run))
  {
    if run != [] {
      Reachable(traces, run[..|run| - 1]);
      StepKeepsInv(traces, Exec(traces, run[..|run| - 1]), Last(run));
    }
  }

  // A send on the closed channel would be a fault, by any service that is still there.
  lemma SendOnClosedIsAFault(s: State, n: string)
    requires s.closed && n in s.live && n in s.left && s.left[n] != []
    ensures Step(s, Send(n)) == s.(faulted := true)
  {
  }

  // In every run: no update is sent on the closed channel; the channel is closed only when every
  // goroutine has sent all it had and ended; and once the watcher signals done, the updates sent
  // are an interleaving of the services' complete traces and every one has been published.
  lemma NothingIsLost(traces: map<string, seq<StateUpdate>>, run: seq<Label>)
    ensures var s := Exec(traces, run);
      && !s.faulted
      && (s.closed ==> s.live == {} && forall n :: n in traces ==> n in s.left && s.left[n] == [])
      && (s.done ==> IsInterleaving(s.sent, traces) && s.published == |s.sent|)
  {
    Reachable(traces, run);
    var s := Exec(traces, run);
    if s.closed {
      forall n | n in traces ensures Project(s.sent, n) == traces[n] {
        assert s.left[n] == [];
      }
    }
  }

  // What has been published at any time: the snapshots of a prefix of the updates sent, which
  // themselves are prefixes of the services' traces. At most one update is in the watcher's hands
  // and at most four per service are buffered.
  lemma PublishedSnapshots(traces: map<string, seq<StateUpdate>>, run: seq<Label>)
    ensures var s := Exec(traces, run);
      && s.published <= s.taken <= s.published + 1
      && s.taken <= |s.sent| <= s.taken + 4 * |traces|
      && (forall u :: u in s.sent ==> u.name in traces)
      && (forall n :: n in traces ==> Project(s.sent, n) <= traces[n])
  {
    Reachable(traces, run);
  }

  // As long as the broadcaster receives the snapshots, the shutdown cannot get stuck: until the
  // watcher has signalled done some step is enabled. (Module Progress has the broadcaster, too.)
  lemma NoDeadlock(traces: map<string, seq<StateUpdate>>, run: seq<Label>) returns (l: Label)
    requires !Exec(traces, run).done
    ensures Step(Exec(traces, run), l) != Exec(traces, run)
  {
    Reachable(traces, run);
    var s := Exec(traces, run);
    if s.published < s.taken {
      l := Publish;
    } else if s.taken < |s.sent| {
      l := Take;
    } else if s.live != {} {
      var n :| n in s.live;
      assert n in traces && |traces| > 0;
      l := if s.left[n] == [] then Done(n) else Send(n);
      assert s.left[n] != [] ==> !s.closed && Step(s, l).sent != s.sent;
      assert s.left[n] == [] ==> n !in Step(s, l).live;
    } else if !s.closed {
      l := CloseUpdates;
    } else {
      l := SignalDone;
    }
  }
}

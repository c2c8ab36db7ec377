// From the services to a watcher: the managers' updates, interleaved in any way, folded into
// snapshots, published, conflated by a size-1 DropOldest subscription, and filtered.
//
// The states topic is not subscriber aware, and the watcher of the updates is its only publisher:
// message number k of the topic is the snapshot after update number k. A watcher is the consumer
// of one channel.
module EndToEnd {
  import opened Orders
  import opened Lifecycle
  import opened StatesWatcher
  import opened Watch
  import P = Policies
  import B = Broadcast
  import T = BroadcastTheorems
  import D = Shutdown

  // The snapshots a consumer has received.
  function Inbox(snapshots: seq<States>, c: P.Sub): seq<States>
    requires forall i :: 0 <= i < |c.content| ==> c.content[i] < |snapshots|
  {
    T.Values(snapshots, c.Received())
  }

  // Of the messages `numbers`, those that fire are exactly the messages `at`, in order.
  ghost predicate Picks(fires: seq<bool>, numbers: seq<nat>, at: seq<nat>) {
    && Increasing(at)
    && (forall k :: k in at ==> k in numbers)
    && (forall k :: k in numbers ==> k < |fires| && (fires[k] <==> k in at))
  }

  lemma PickOneMore(fires: seq<bool>, numbers: seq<nat>, at: seq<nat>, k: nat)
    requires Picks(fires, numbers, at) && k < |fires| && forall i :: i in numbers ==> i < k
    ensures Picks(fires, numbers + [k], if fires[k] then at + [k] else at)
  {
    assert (at + [k])[..|at|] == at;
    assert at != [] ==> Last(at) in at;
  }

  function Firing(q: Query, snapshots: seq<States>): (r: seq<bool>)
    ensures |r| == |snapshots|
    ensures forall k :: 0 <= k < |r| ==> r[k] == Fires(q, snapshots[k])
  {
    seq(|snapshots|, k requires 0 <= k < |snapshots| => Fires(q, snapshots[k]))
  }

  function Replies(q: Query, snapshots: seq<States>, at: seq<nat>): (r: seq<States>)
    requires forall j :: 0 <= j < |at| ==> at[j] < |snapshots|
    ensures |r| == |at|
    ensures forall j :: 0 <= j < |r| ==> r[j] == Answer(q, snapshots[at[j]])
  {
    seq(|at|, j requires 0 <= j < |at| => Answer(q, snapshots[at[j]]))
  }

  // The messages among `numbers` that fire, in order.
  function Picked(fires: seq<bool>, numbers: seq<nat>): seq<nat>
    requires forall i :: 0 <= i < |numbers| ==> numbers[i] < |fires|
  {
    if numbers == [] then []
    else
      Picked(fires, numbers[..|numbers| - 1]) + if fires[Last(numbers)] then [Last(numbers)] else []
  }

  lemma {:induction false} PickedPicks(fires: seq<bool>, numbers: seq<nat>)
    requires Increasing(numbers) && forall i :: 0 <= i < |numbers| ==> numbers[i] < |fires|
    ensures Picks(fires, numbers, Picked(fires, numbers))
    decreases |numbers|
  {
    if numbers != [] {
      var init, k := numbers[..|numbers| - 1], Last(numbers);
      PickedPicks(fires, init);
      IncreasingEverywhere(numbers);
      PickOneMore(fires, init, Picked(fires, init), k);
      assert numbers == init + [k];
      assert Picked(fires, numbers) == if fires[k] then Picked(fires, init) + [k] else Picked(fires, init);
    }
  }

  lemma PickOneMoreReply(q: Query, snapshots: seq<States>, numbers: seq<nat>, k: nat)
    requires k < |snapshots| && forall i :: 0 <= i < |numbers| ==> numbers[i] < |snapshots|
    requires forall j :: 0 <= j < |Picked(Firing(q, snapshots), numbers)| ==>
      Picked(Firing(q, snapshots), numbers)[j] < |snapshots|
    ensures var fires := Firing(q, snapshots);
            var at, more := Picked(fires, numbers), Picked(fires, numbers + [k]);
      && (forall j :: 0 <= j < |more| ==> more[j] < |snapshots|)
      && Replies(q, snapshots, more)
         == Replies(q, snapshots, at) + if fires[k] then [Answer(q, snapshots[k])] else []
  {
    assert (numbers + [k])[..|numbers|] == numbers;
  }

  lemma EmitOneMore(q: Query, snapshots: seq<States>, numbers: seq<nat>, k: nat)
    requires k < |snapshots| && forall i :: 0 <= i < |numbers| ==> numbers[i] < |snapshots|
    ensures Emissions(q, T.Values(snapshots, numbers + [k]))
         == Emissions(q, T.Values(snapshots, numbers))
            + if Fires(q, snapshots[k]) then [Answer(q, snapshots[k])] else []
  {
    var inbox := T.Values(snapshots, numbers + [k]);
    assert inbox[..|inbox| - 1] == T.Values(snapshots, numbers) && Last(inbox) == snapshots[k];
  }

  // The answers of a watcher are the answers to those received snapshots that fire, in order.
  lemma {:induction false} AnswersInOrder(q: Query, snapshots: seq<States>, numbers: seq<nat>)
    requires forall i :: 0 <= i < |numbers| ==> numbers[i] < |snapshots|
    ensures var at := Picked(Firing(q, snapshots), numbers);
      && (forall j :: 0 <= j < |at| ==> at[j] < |snapshots|)
      && Emissions(q, T.Values(snapshots, numbers)) == Replies(q, snapshots, at)
    decreases |numbers|
  {
    if numbers != [] {
      var init, k := numbers[..|numbers| - 1], Last(numbers);
      AnswersInOrder(q, snapshots, init);
      EmitOneMore(q, snapshots, init, k);
      assert numbers == init + [k];
      PickOneMoreReply(q, snapshots, init, k);
    }
  }

  // out answers the snapshots with the numbers at, all of which fire, in order.
  ghost predicate Answers(q: Query, snapshots: seq<States>, at: seq<nat>, out: seq<States>) {
    && |at| == |out| && Increasing(at)
    && forall j :: 0 <= j < |at| ==>
         at[j] < |snapshots| && ShouldFire(q, snapshots[at[j]]) && IsAnswer(q, snapshots[at[j]], out[j])
  }

  // A watcher that handles the snapshots with the given numbers.
  lemma TrueAnswers(q: Query, snapshots: seq<States>, numbers: seq<nat>) returns (at: seq<nat>)
    requires Increasing(numbers) && forall i :: 0 <= i < |numbers| ==> numbers[i] < |snapshots|
    ensures Picks(Firing(q, snapshots), numbers, at)
    ensures Answers(q, snapshots, at, Emissions(q, T.Values(snapshots, numbers)))
  {
    var fires := Firing(q, snapshots);
    at := Picked(fires, numbers);
    PickedPicks(fires, numbers);
    AnswersInOrder(q, snapshots, numbers);
    forall j | 0 <= j < |at|
      ensures at[j] < |snapshots| && ShouldFire(q, snapshots[at[j]])
      ensures IsAnswer(q, snapshots[at[j]], Replies(q, snapshots, at)[j])
    {
      assert at[j] in at && fires[at[j]];
      AnswersAsAsked(q, snapshots[at[j]]);
    }
  }

  // The daemon and the broadcaster have met `published` times on the publish channel.
  ghost predicate Joint(
    traces: map<string, seq<StateUpdate>>, launch: seq<D.Label>, run: seq<B.Label>, id: nat) {
    && D.Exec(traces, launch).published == B.Exec(false, run).log.published
    && id < |B.Exec(false, run).subs|
  }

  lemma ContentBound(traces: map<string, seq<StateUpdate>>, launch: seq<D.Label>, run: seq<B.Label>, id: nat)
    requires Joint(traces, launch, run, id)
    ensures var c := B.Exec(false, run).subs[id];
      && Increasing(c.content) && Increasing(c.Received())
      && forall i :: 0 <= i < |c.content| ==> c.content[i] < |D.Exec(traces, launch).sent|
  {
    B.Reachable(false, run);
    D.Reachable(traces, launch);
    var s := B.Exec(false, run);
    assert B.SubOk(s, id);
    var c := s.subs[id];
    WithinEverywhere(c.content, c.info.joined, c.seen);
    IncreasingEverywhere(c.content);
    IncreasingFrom(c.Received());
  }

  // The goroutine of a Watch method is the consumer of the channel: the snapshots that arrive at it
  // are those that were taken from the channel.
  ghost predicate Watching(
    traces: map<string, seq<StateUpdate>>, launch: seq<D.Label>, run: seq<B.Label>, id: nat,
    q: Query, arrivals: seq<Arrival>) {
    && Joint(traces, launch, run, id)
    && var sent, c := D.Exec(traces, launch).sent, B.Exec(false, run).subs[id];
    && (forall i :: 0 <= i < |c.content| ==> c.content[i] < |sent|)
    && Received(q, arrivals) == Inbox(Snapshots(Initial(traces.Keys), sent), c)
  }

  // The numbers of the snapshots that the goroutine handles completely.
  function HandledNumbers(q: Query, arrivals: seq<Arrival>, received: seq<nat>): seq<nat> {
    if Untaken(q, arrivals) && received != [] then received[..|received| - 1] else received
  }

  lemma HandledValues(q: Query, arrivals: seq<Arrival>, snapshots: seq<States>, received: seq<nat>)
    requires forall i :: 0 <= i < |received| ==> received[i] < |snapshots|
    requires Received(q, arrivals) == T.Values(snapshots, received)
    ensures Untaken(q, arrivals) ==> received != [] && Fires(q, snapshots[Last(received)])
    ensures Handled(q, arrivals) == T.Values(snapshots, HandledNumbers(q, arrivals, received))
  {
    HandledButUntaken(q, arrivals);
  }

  // Of increasing numbers, the last one is the only one that dropping it removes.
  lemma PicksButLast(fires: seq<bool>, numbers: seq<nat>, at: seq<nat>)
    requires Increasing(numbers) && numbers != [] && Picks(fires, numbers[..|numbers| - 1], at)
    ensures Last(numbers) !in at
    ensures forall k :: k in numbers && k != Last(numbers) ==> k < |fires| && (fires[k] <==> k in at)
  {
    IncreasingEverywhere(numbers);
  }

  lemma HandledTruth(q: Query, arrivals: seq<Arrival>, snapshots: seq<States>, received: seq<nat>)
    returns (at: seq<nat>)
    requires Increasing(received) && forall i :: 0 <= i < |received| ==> received[i] < |snapshots|
    requires Received(q, arrivals) == T.Values(snapshots, received)
    ensures Answers(q, snapshots, at, Emissions(q, Handled(q, arrivals)))
    ensures forall k :: k in at ==> k in received
    ensures forall k :: k in received && Fires(q, snapshots[k]) ==>
      (k in at <==> !(Untaken(q, arrivals) && k == Last(received)))
  {
    HandledValues(q, arrivals, snapshots, received);
    at := TrueAnswers(q, snapshots, HandledNumbers(q, arrivals, received));
    if Untaken(q, arrivals) { PicksButLast(Firing(q, snapshots), received, at); }
  }

  // Soundness. Whatever the schedule of the services, of the daemon, of the broadcaster, of all
  // consumers and of the caller: every emission of a watcher answers the last-writer map of a real
  // prefix of the updates sent, and successive emissions come from longer and longer prefixes. A
  // received snapshot that fires is answered, except for the last one exactly if the caller has
  // not taken its answer.
  lemma WatchersReportTheTruth(
    traces: map<string, seq<StateUpdate>>, launch: seq<D.Label>, run: seq<B.Label>, id: nat,
    q: Query, arrivals: seq<Arrival>)
    returns (at: seq<nat>)
    requires Watching(traces, launch, run, id, q, arrivals)
    ensures var sent := D.Exec(traces, launch).sent;
            var snapshots := Snapshots(Initial(traces.Keys), sent);
            var received := B.Exec(false, run).subs[id].Received();
      && Answers(q, snapshots, at, Emissions(q, Handled(q, arrivals)))
      && (forall k :: k in at ==> k in received)
      && (forall k :: k in received ==>
            k < |sent| && snapshots[k] == Fold(Initial(traces.Keys), sent[..k + 1]))
      && (forall k :: k in received && Fires(q, snapshots[k]) ==>
            (k in at <==> !(Untaken(q, arrivals) && k == Last(received))))
  {
    ContentBound(traces, launch, run, id);
    var snapshots := Snapshots(Initial(traces.Keys), D.Exec(traces, launch).sent);
    at := HandledTruth(q, arrivals, snapshots, B.Exec(false, run).subs[id].Received());
  }

  // The broadcaster is at its loop head and has received a snapshot; the consumer is still
  // subscribed, as the Watch methods subscribe.
  ghost predicate Subscribed(
    traces: map<string, seq<StateUpdate>>, launch: seq<D.Label>, run: seq<B.Label>, id: nat) {
    && Joint(traces, launch, run, id) && D.Exec(traces, launch).published > 0
    && var s := B.Exec(false, run);
    && s.phase.AtHead? && B.IsMember(s, id)
    && s.subs[id].info.policy == P.DropOldest && s.subs[id].info.cap == 1
  }

  // Freshness. At every loop head, whatever has been conflated before: the last snapshot that a
  // watcher has received or has in its mailbox is the newest one published, the fold of all updates
  // up to it, and at most that one is still in the mailbox.
  lemma NewestNeverLost(
    traces: map<string, seq<StateUpdate>>, launch: seq<D.Label>, run: seq<B.Label>, id: nat)
    requires Subscribed(traces, launch, run, id)
    ensures forall i :: 0 <= i < |B.Exec(false, run).subs[id].content| ==>
      B.Exec(false, run).subs[id].content[i] < |D.Exec(traces, launch).sent|
    ensures var d, c := D.Exec(traces, launch), B.Exec(false, run).subs[id];
            var all := T.Values(Snapshots(Initial(traces.Keys), d.sent), c.content);
      && 0 < d.published <= |d.sent| && |c.Pending()| <= 1
      && all != [] && Last(all) == Fold(Initial(traces.Keys), d.sent[..d.published])
  {
    ContentBound(traces, launch, run, id);
    D.PublishedSnapshots(traces, launch);
    T.DropOldestIsFresh(false, run, id);
    var d, c := D.Exec(traces, launch), B.Exec(false, run).subs[id];
  }

  // Besides, the consumer has nothing left to receive.
  ghost predicate CaughtUp(
    traces: map<string, seq<StateUpdate>>, launch: seq<D.Label>, run: seq<B.Label>, id: nat) {
    && Subscribed(traces, launch, run, id)
    && B.Exec(false, run).subs[id].taken == |B.Exec(false, run).subs[id].content|
  }

  // A watcher that has emptied its mailbox has received the newest snapshot last.
  lemma NewestArrives(
    traces: map<string, seq<StateUpdate>>, launch: seq<D.Label>, run: seq<B.Label>, id: nat)
    requires CaughtUp(traces, launch, run, id)
    ensures forall i :: 0 <= i < |B.Exec(false, run).subs[id].content| ==>
      B.Exec(false, run).subs[id].content[i] < |D.Exec(traces, launch).sent|
    ensures var d := D.Exec(traces, launch);
            var inbox := Inbox(Snapshots(Initial(traces.Keys), d.sent), B.Exec(false, run).subs[id]);
      && d.published <= |d.sent|
      && inbox != [] && Last(inbox) == Fold(Initial(traces.Keys), d.sent[..d.published])
  {
    NewestNeverLost(traces, launch, run, id);
    var c := B.Exec(false, run).subs[id];
    assert c.Received() == c.content;
  }

  // After the shutdown the newest snapshot is the final one.
  lemma FinalSnapshotArrives(
    traces: map<string, seq<StateUpdate>>, launch: seq<D.Label>, run: seq<B.Label>, id: nat)
    requires CaughtUp(traces, launch, run, id) && D.Exec(traces, launch).done
    ensures forall i :: 0 <= i < |B.Exec(false, run).subs[id].content| ==>
      B.Exec(false, run).subs[id].content[i] < |D.Exec(traces, launch).sent|
    ensures var sent := D.Exec(traces, launch).sent;
            var inbox := Inbox(Snapshots(Initial(traces.Keys), sent), B.Exec(false, run).subs[id]);
            IsInterleaving(sent, traces) && inbox != [] && Last(inbox) == Fold(Initial(traces.Keys), sent)
  {
    NewestArrives(traces, launch, run, id);
    D.NothingIsLost(traces, launch);
    var sent := D.Exec(traces, launch).sent;
    assert sent[..|sent|] == sent;
  }

  // ------------------------------------------------------------------------------ waiting for exit

  function Traces(services: map<string, Service>): map<string, seq<StateUpdate>> {
    map n | n in services :: Sends(services[n])
  }

  lemma ExitNeverShown(services: map<string, Service>, sent: seq<NamedUpdate>, k: nat, n: string)
    requires n in services && Swallows(services[n]) && k < |sent|
    requires Project(sent, n) <= Traces(services)[n]
    ensures var s := Fold(Initial(Traces(services).Keys), sent[..k + 1]);
      n in s && s[n] != StateUpdate(Exit, Entering)
  {
    FoldFollowsProject(Initial(Traces(services).Keys), sent[..k + 1], n);
    ProjectPrefix(sent, k + 1, n);
    FinalUpdate(services[n]);
    var p := Project(sent[..k + 1], n);
    assert p <= Sends(services[n]);
    if p != [] {
      assert Last(p) == Sends(services[n])[|p| - 1];
    }
  }

  // The named services have sent all they ever send.
  ghost predicate HaveEnded(services: map<string, Service>, updates: seq<NamedUpdate>, names: seq<string>) {
    forall n :: n in names ==> n in services && Project(updates, n) == Sends(services[n])
  }

  lemma ExitShown(services: map<string, Service>, updates: seq<NamedUpdate>, n: string)
    requires n in services && Project(updates, n) == Sends(services[n]) && !Swallows(services[n])
    ensures var states := Fold(Initial(Traces(services).Keys), updates);
      n in states && states[n] == StateUpdate(Exit, Entering)
  {
    FinalUpdate(services[n]);
    assert n in Traces(services);
    FoldFollowsProject(Initial(Traces(services).Keys), updates, n);
  }

  lemma AnswerIfExited(states: States, names: seq<string>)
    requires NoDuplicates(names) && forall n :: n in names ==> n in states && states[n] == StateUpdate(Exit, Entering)
    ensures var q := All(OnEntering, Exit, names);
      Fires(q, states) && Answer(q, states) == map n | n in names :: StateUpdate(Exit, Entering)
  {
    AllFires(OnEntering, Exit, names, states);
  }

  lemma AllExited(services: map<string, Service>, updates: seq<NamedUpdate>, names: seq<string>)
    requires HaveEnded(services, updates, names) && NoDuplicates(names)
    requires forall n :: n in names ==> !Swallows(services[n])
    ensures var states, q := Fold(Initial(Traces(services).Keys), updates), All(OnEntering, Exit, names);
      Fires(q, states) && Answer(q, states) == map n | n in names :: StateUpdate(Exit, Entering)
  {
    var states := Fold(Initial(Traces(services).Keys), updates);
    forall n | n in names ensures n in states && states[n] == StateUpdate(Exit, Entering) {
      ExitShown(services, updates, n);
    }
    AnswerIfExited(states, names);
  }

  // The last answer that the watcher has offered, and the only one that may not have been taken.
  ghost predicate Offered(q: Query, arrivals: seq<Arrival>, answer: States) {
    var out, all := Emissions(q, Handled(q, arrivals)), Emissions(q, Received(q, arrivals));
    && all != [] && Last(all) == answer
    && out == if Untaken(q, arrivals) then all[..|all| - 1] else all
  }

  // Waiting with WatchAllServices for others to exit, while the waiting service and the daemon go
  // on: as soon as the named services have ended, their updates are published and the watcher has
  // caught up, the answer that all of them are entering exit has been offered, as the last one, if
  // no runner among them reached a panic that is swallowed. It has been sent unless the caller has
  // not taken it; in that case it is the only answer missing.
  lemma WaitingForExitSucceeds(
    services: map<string, Service>, launch: seq<D.Label>, run: seq<B.Label>, id: nat,
    names: seq<string>, arrivals: seq<Arrival>)
    requires Watching(Traces(services), launch, run, id, All(OnEntering, Exit, names), arrivals)
    requires CaughtUp(Traces(services), launch, run, id)
    requires var d := D.Exec(Traces(services), launch);
      d.published <= |d.sent| && HaveEnded(services, d.sent[..d.published], names)
    requires NoDuplicates(names) && forall n :: n in names ==> !Swallows(services[n])
    ensures Offered(All(OnEntering, Exit, names), arrivals, map n | n in names :: StateUpdate(Exit, Entering))
  {
    var traces, q := Traces(services), All(OnEntering, Exit, names);
    var d := D.Exec(traces, launch);
    NewestArrives(traces, launch, run, id);
    AllExited(services, d.sent[..d.published], names);
    StoppedAnywhere(q, arrivals);
  }

  // The same after the shutdown, when every service has ended.
  lemma EverybodyHasExited(
    services: map<string, Service>, launch: seq<D.Label>, run: seq<B.Label>, id: nat,
    names: seq<string>, arrivals: seq<Arrival>)
    requires Watching(Traces(services), launch, run, id, All(OnEntering, Exit, names), arrivals)
    requires CaughtUp(Traces(services), launch, run, id) && D.Exec(Traces(services), launch).done
    requires NoDuplicates(names) && forall n :: n in names ==> n in services && !Swallows(services[n])
    ensures Offered(All(OnEntering, Exit, names), arrivals, map n | n in names :: StateUpdate(Exit, Entering))
  {
    var traces := Traces(services);
    var d := D.Exec(traces, launch);
    D.NothingIsLost(traces, launch);
    assert d.sent[..d.published] == d.sent;
    forall n | n in names ensures Project(d.sent, n) == Sends(services[n]) { assert n in traces; }
    WaitingForExitSucceeds(services, launch, run, id, names, arrivals);
  }

  lemma NeverFires(services: map<string, Service>, launch: seq<D.Label>, names: seq<string>, n: string, k: nat)
    requires n in names && n in services && Swallows(services[n])
    requires k < |D.Exec(Traces(services), launch).sent|
    ensures var snapshots := Snapshots(Initial(Traces(services).Keys), D.Exec(Traces(services), launch).sent);
      !Fires(All(OnEntering, Exit, names), snapshots[k])
  {
    var traces := Traces(services);
    var sent := D.Exec(traces, launch).sent;
    D.PublishedSnapshots(traces, launch);
    assert n in traces;
    ExitNeverShown(services, sent, k, n);
    AllFires(OnEntering, Exit, names, Fold(Initial(traces.Keys), sent[..k + 1]));
  }

  // If one of the named services does swallow a panic, the wait is in vain: nothing is ever emitted.
  lemma WaitingForExitFails(
    services: map<string, Service>, launch: seq<D.Label>, run: seq<B.Label>, id: nat,
    names: seq<string>, arrivals: seq<Arrival>, n: string)
    requires Watching(Traces(services), launch, run, id, All(OnEntering, Exit, names), arrivals)
    requires n in names && n in services && Swallows(services[n])
    ensures var q := All(OnEntering, Exit, names);
      Emissions(q, Handled(q, arrivals)) == [] && !Untaken(q, arrivals)
  {
    var traces, q := Traces(services), All(OnEntering, Exit, names);
    var received := B.Exec(false, run).subs[id].Received();
    forall i | 0 <= i < |received| ensures !Fires(q, Received(q, arrivals)[i]) {
      NeverFires(services, launch, names, n, received[i]);
    }
    NothingSent(q, arrivals);
  }
}

// Whether the daemon can get stuck: its goroutines, the watcher of the updates and the broadcaster
// together, with consumers that may have stopped receiving.
//
// The watcher's send of a snapshot and the broadcaster's receive are one step of both. The timer
// of a DropNewestAfterTimeout subscriber is taken to fire.
module Progress {
  import opened Orders
  import opened Wrappers
  import opened Lifecycle
  import opened StatesWatcher
  import P = Policies
  import B = Broadcast
  import T = BroadcastTheorems
  import D = Shutdown

  // No consumer receives anything during the call.
  predicate NoHelp(env: P.Env) {
    !env.parked && env.between == 0 && !env.parkedAgain
  }

  // The subscriber's policy waits for its consumer.
  predicate Blocked(c: P.Sub) {
    c.info.policy == P.DropNone && |c.Pending()| == c.info.cap
  }

  // Only a DropNone subscriber whose buffer is full can hold up the broadcaster.
  lemma WaitsOnlyIfBlocked(c: P.Sub, env: P.Env)
    requires P.Ordered(c) && P.Open(c) && c.info.policy != P.Unset && NoHelp(env)
    ensures Blocked(c) ==> P.Send(c, c.seen, env).Waiting?
    ensures !Blocked(c) && env.elapsed ==> P.Send(c, c.seen, env).Returned?
  {
    P.WhoWaitsAndWhoDrops(c, env);
  }

  // The fan-out has come to a subscriber and waits there for its consumer.
  ghost predicate Held(s: B.State)
    requires B.WellFormed(s)
  {
    s.phase.FanningOut? && s.phase.at.Some? && Blocked(s.subs[s.members[s.phase.at.value]])
  }

  // Coming to a subscriber is a step. Its Send then returns unless the subscriber is blocked.
  lemma VisitMoves(s: B.State, g: string, env: P.Env)
    requires B.Inv(s) && B.CanVisit(s, g) && NoHelp(env)
    ensures Blocked(s.subs[s.members[g]]) ==>
      B.DeliverStep(s, g, env) == s.(phase := B.FanningOut(s.phase.todo, Some(g)))
    ensures !Blocked(s.subs[s.members[g]]) && env.elapsed ==>
      B.DeliverStep(s, g, env).phase
      == if s.phase.todo == {g} then B.AtHead else B.FanningOut(s.phase.todo - {g}, None)
  {
    var c := s.subs[s.members[g]];
    assert B.SubOk(s, s.members[g]);
    WaitsOnlyIfBlocked(c, env);
    assert s.phase.todo - {g} == {} <==> s.phase.todo == {g};
  }

  // ------------------------------------------------------------------------------------ the daemon

  ghost predicate DaemonMoves(d: D.State) {
    exists l: D.Label :: !l.Publish? && D.Step(d, l) != d
  }

  // The watcher holds a snapshot that it has not got rid of, and the services cannot go on
  // either: all of them wait for room in the update channel, or they have ended and the channel is
  // closed.
  ghost predicate DaemonWaits(d: D.State) {
    && d.published < d.taken
    && if d.live == {} then d.closed
       else |d.sent| - d.taken >= d.cap && forall n :: n in d.live ==> n in d.left && d.left[n] != []
  }

  lemma BusyDaemonMoves(traces: map<string, seq<StateUpdate>>, d: D.State)
    requires D.Inv(traces, d) && d.published < d.taken && !DaemonWaits(d)
    ensures DaemonMoves(d)
  {
    if d.live == {} {
      assert D.Step(d, D.CloseUpdates).closed;
    } else if |d.sent| - d.taken >= d.cap {
      var n :| n in d.live && d.left[n] == [];
      assert n !in D.Step(d, D.Done(n)).live;
    } else {
      var n :| n in d.live;
      if d.left[n] == [] {
        assert n !in D.Step(d, D.Done(n)).live;
      } else {
        assert |D.Step(d, D.Send(n)).sent| == |d.sent| + 1;
      }
    }
  }

  lemma DaemonWaitsExactly(traces: map<string, seq<StateUpdate>>, launch: seq<D.Label>)
    requires !D.Exec(traces, launch).done
    ensures DaemonMoves(D.Exec(traces, launch)) <==> !DaemonWaits(D.Exec(traces, launch))
  {
    D.Reachable(traces, launch);
    var d := D.Exec(traces, launch);
    if d.published == d.taken {
      var l := D.NoDeadlock(traces, launch);
      assert !l.Publish?;
    } else if !DaemonWaits(d) {
      BusyDaemonMoves(traces, d);
    } else {
    }
  }

  // ------------------------------------------------------------------------------------- together

  // Some step can be taken although no consumer does anything.
  ghost predicate Moves(d: D.State, s: B.State)
    requires B.WellFormed(s)
  {
    || DaemonMoves(d)
    || (exists g, env :: NoHelp(env) && B.DeliverStep(s, g, env) != s)
    || (D.Step(d, D.Publish) != d && B.PublishStep(s) != s)
  }

  // The daemon waits for the broadcaster, and the broadcaster for the consumer of the subscriber
  // that its fan-out has come to; or it does not receive any more, because a close request has
  // been handled or the loop has ended.
  ghost predicate Jammed(d: D.State, s: B.State)
    requires B.WellFormed(s)
  {
    DaemonWaits(d) && (Held(s) || (!s.phase.FanningOut? && (s.gate.closeHandled || s.phase.Finished?)))
  }

  const ALONE := P.Env(false, 0, false, true, false)

  lemma FanOutMoves(s: B.State)
    requires B.Inv(s) && s.phase.FanningOut?
    ensures (exists g, env :: NoHelp(env) && B.DeliverStep(s, g, env) != s)
       <==> !Held(s)
  {
    if Held(s) {
      forall g, env | NoHelp(env) ensures B.DeliverStep(s, g, env) == s {
        if B.CanVisit(s, g) { VisitMoves(s, g, env); }
      }
    } else {
      var g :| g in s.phase.todo && (s.phase.at.Some? ==> g == s.phase.at.value);
      VisitMoves(s, g, ALONE);
      assert g !in s.phase.todo - {g};
      assert NoHelp(ALONE) && B.DeliverStep(s, g, ALONE) != s;
    }
  }

  lemma HeadReceives(run: seq<B.Label>)
    ensures var s := B.Exec(false, run);
      B.PublishStep(s) != s <==> s.phase.AtHead? && !s.gate.closeHandled
  {
    T.GateFollowsSubscribers(false, run);
    T.ExecAfter(false, run, B.Publish);
  }

  // In every run, before the watcher of the updates has signalled done: the whole is stuck exactly
  // if it is jammed. Unless the topic has been closed that means that the fan-out has come to a
  // subscriber that asked to lose nothing and whose consumer has stopped receiving.
  lemma StuckExactlyIfJammed(
    traces: map<string, seq<StateUpdate>>, launch: seq<D.Label>, run: seq<B.Label>)
    requires D.Exec(traces, launch).published == B.Exec(false, run).log.published
    requires !D.Exec(traces, launch).done
    ensures Moves(D.Exec(traces, launch), B.Exec(false, run))
       <==> !Jammed(D.Exec(traces, launch), B.Exec(false, run))
  {
    var d, s := D.Exec(traces, launch), B.Exec(false, run);
    B.Reachable(false, run);
    DaemonWaitsExactly(traces, launch);
    HeadReceives(run);
    if s.phase.FanningOut? {
      FanOutMoves(s);
    } else if DaemonWaits(d) {
      assert D.Step(d, D.Publish).published == d.published + 1;
    }
  }

  // The subscribers visited in the given order, with no consumer doing anything.
  function Alone(s: B.State, order: seq<string>): (r: B.State)
    requires B.WellFormed(s)
    ensures B.WellFormed(r)
    decreases |order|
  {
    if order == [] then s else Alone(B.DeliverStep(s, order[0], ALONE), order[1..])
  }

  lemma OthersKept(s: B.State, g: string)
    requires B.Inv(s) && B.CanVisit(s, g)
    ensures B.DeliverStep(s, g, ALONE).members == s.members
    ensures forall h :: h in s.phase.todo && h != g ==>
      B.DeliverStep(s, g, ALONE).subs[s.members[h]] == s.subs[s.members[h]]
  {
    assert s.subs[s.members[g]].info.group == g;
  }

  // One visit of a fan-out leaves what it does not visit, and whether that is blocked, alone.
  lemma VisitLeaves(s: B.State, g: string)
    requires B.Inv(s) && s.phase.FanningOut?
    ensures var r := B.DeliverStep(s, g, ALONE);
      && r.members == s.members && B.Inv(r)
      && (forall h :: h in s.phase.todo && h != g ==>
            r.phase.FanningOut? && h in r.phase.todo && r.subs[r.members[h]] == s.subs[s.members[h]])
      && (r.phase.FanningOut? ==> r.phase.todo <= s.phase.todo)
      && (g in s.phase.todo && Blocked(s.subs[s.members[g]]) ==>
            r.phase.FanningOut? && g in r.phase.todo && r.subs == s.subs)
  {
    B.DeliverKeepsInv(s, g, ALONE);
    if B.CanVisit(s, g) {
      VisitMoves(s, g, ALONE);
      OthersKept(s, g);
    }
  }

  ghost predicate SomeBlocked(s: B.State)
    requires B.WellFormed(s) && s.phase.FanningOut?
  {
    exists g :: g in s.phase.todo && Blocked(s.subs[s.members[g]])
  }

  lemma {:induction false} NothingMore(s: B.State, order: seq<string>)
    requires B.Inv(s) && (s.phase.AtHead? || Held(s))
    ensures Alone(s, order) == s
    decreases |order|
  {
    if order != [] {
      if B.CanVisit(s, order[0]) { VisitMoves(s, order[0], ALONE); }
      NothingMore(s, order[1..]);
    }
  }

  lemma SameBlocked(s: B.State, r: B.State, g: string)
    requires B.WellFormed(s) && B.WellFormed(r) && s.phase.FanningOut? && r.phase.FanningOut?
    requires g in s.phase.todo && r.phase.todo == s.phase.todo - {g} && !Blocked(s.subs[s.members[g]])
    requires forall h :: h in r.phase.todo ==> r.subs[r.members[h]] == s.subs[s.members[h]]
    ensures SomeBlocked(s) <==> SomeBlocked(r)
  {
    if SomeBlocked(s) {
      var h :| h in s.phase.todo && Blocked(s.subs[s.members[h]]);
      assert h in r.phase.todo;
    }
  }

  // Whatever order a fan-out takes, with no consumer doing anything: it comes to its end exactly if
  // none of the subscribers left is blocked; otherwise it ends up held by one that is.
  lemma {:induction false} EveryOrder(s: B.State, order: seq<string>)
    requires B.Inv(s) && s.phase.FanningOut? && s.phase.at == None
    requires forall g :: g in s.phase.todo ==> g in order
    ensures if SomeBlocked(s) then Held(Alone(s, order)) else Alone(s, order).phase.AtHead?
    decreases |order|
  {
    assert order != [] by { var g :| g in s.phase.todo; }
    var g, r := order[0], B.DeliverStep(s, order[0], ALONE);
    VisitLeaves(s, g);
    if g !in s.phase.todo {
      EveryOrder(s, order[1..]);
    } else {
      VisitMoves(s, g, ALONE);
      if Blocked(s.subs[s.members[g]]) || s.phase.todo == {g} {
        NothingMore(r, order[1..]);
      } else {
        EveryOrder(r, order[1..]);
        SameBlocked(s, r, g);
      }
    }
  }

  // ------------------------------------------------------------------------- when it never jams

  // Nobody asks the states topic to lose nothing, closes it, or disconnects it.
  predicate Careful(l: B.Label) {
    !l.Close? && !l.Disconnect? && (l.Subscribe? ==> l.conf.policy != P.DropNone && l.conf.policy != P.Unset)
  }

  ghost predicate Undemanding(s: B.State) {
    && !s.gate.closeHandled && !s.phase.Finished?
    && forall id :: 0 <= id < |s.subs| ==> s.subs[id].info.policy != P.DropNone
  }

  lemma OneMoreChannel(s: B.State, l: B.Label)
    requires B.WellFormed(s)
    ensures |B.Step(s, l).subs| <= |s.subs| || (l.Subscribe? && |B.Step(s, l).subs| == |s.subs| + 1)
    ensures |B.Step(s, l).subs| > |s.subs| ==>
      B.Step(s, l).subs[|s.subs|].info == T.CreatedInfo(l.conf, s.log.published)
  {
  }

  lemma StaysOpen(s: B.State, l: B.Label)
    requires B.WellFormed(s) && Careful(l) && !s.gate.closeHandled && !s.phase.Finished?
    ensures !B.Step(s, l).gate.closeHandled && !B.Step(s, l).phase.Finished?
  {
  }

  lemma StepKeepsUndemanding(s: B.State, l: B.Label)
    requires B.Inv(s) && Undemanding(s) && Careful(l)
    ensures Undemanding(B.Step(s, l))
  {
    var r := B.Step(s, l);
    StaysOpen(s, l);
    T.StepExtends(s, l);
    OneMoreChannel(s, l);
    forall id | 0 <= id < |r.subs| ensures r.subs[id].info.policy != P.DropNone {
      if id < |s.subs| { T.ExtendsInfo(s, r, id); }
    }
  }

  lemma {:induction false} CarefulRun(run: seq<B.Label>)
    requires forall l :: l in run ==> Careful(l)
    ensures Undemanding(B.Exec(false, run))
  {
    if run != [] {
      var init := run[..|run| - 1];
      CarefulRun(init);
      B.Reachable(false, init);
      assert Last(run) in run;
      StepKeepsUndemanding(B.Exec(false, init), Last(run));
    }
  }

  // If every consumer of the states subscribes with a policy that drops, as the Watch methods do,
  // the daemon can always take a step until it is done, however the consumers behave.
  lemma NeverStuck(traces: map<string, seq<StateUpdate>>, launch: seq<D.Label>, run: seq<B.Label>)
    requires D.Exec(traces, launch).published == B.Exec(false, run).log.published
    requires !D.Exec(traces, launch).done && forall l :: l in run ==> Careful(l)
    ensures Moves(D.Exec(traces, launch), B.Exec(false, run))
  {
    CarefulRun(run);
    StuckExactlyIfJammed(traces, launch, run);
    var s := B.Exec(false, run);
    if s.phase.FanningOut? {
      var g :| g in s.phase.todo;
      assert !Blocked(s.subs[s.members[g]]);
    }
  }

  // A service that is cancelled before its first tick.
  function Idler(): Service {
    Service(UntilSuccess, [], Nil)
  }

  lemma IdlerSends()
    ensures Sends(Idler()) == [StateUpdate(Exit, Entering)]
  {
    assert [Enters(Exit)][1..] == [];
    FinalUpdate(Idler());
  }

  // Two such services, the daemon's steps up to the close of the update channel, and two consumers.
  function EndedTraces(): map<string, seq<StateUpdate>> {
    map["a" := Sends(Idler()), "b" := Sends(Idler())]
  }

  function EndedLabels(): seq<D.Label> {
    [D.Send("a"), D.Take, D.Publish, D.Send("b"), D.Take, D.Done("a"), D.Done("b"), D.CloseUpdates]
  }

  function JamLabels(): seq<B.Label> {
    [B.Subscribe(P.Config("g", false, 0, P.DropNone)), B.Subscribe(P.Config("h", false, 1, P.DropOldest)),
     B.Publish, B.Deliver("g", ALONE)]
  }

  // What the daemon does in the eight steps of EndedLabels.
  function Ended(k: nat): D.State
    requires k <= 8
  {
    var u := StateUpdate(Exit, Entering);
    var left: map<string, seq<StateUpdate>> :=
      map["a" := if k == 0 then [u] else [], "b" := if k < 4 then [u] else []];
    var both := [NamedUpdate("a", u), NamedUpdate("b", u)];
    var sent := if k == 0 then [] else if k < 4 then both[..1] else both;
    D.State(left, if k < 6 then {"a", "b"} else if k < 7 then {"b"} else {}, sent,
            if k < 2 then 0 else if k < 5 then 1 else 2, if k < 3 then 0 else 1, 8, k == 8, false, false)
  }

  lemma EndedStep(s: D.State, k: nat)
    requires k < 8 && s == Ended(k)
    ensures D.Step(s, EndedLabels()[k]) == Ended(k + 1)
  {
    assert {"a", "b"} - {"a"} == {"b"} && {"b"} - {"b"} == {};
    var r := D.Step(s, EndedLabels()[k]);
    assert r.left == Ended(k + 1).left;
  }

  lemma DaemonAfter(traces: map<string, seq<StateUpdate>>, launch: seq<D.Label>, l: D.Label)
    ensures D.Exec(traces, launch + [l]) == D.Step(D.Exec(traces, launch), l)
  {
    assert (launch + [l])[..|launch|] == launch;
  }

  lemma {:induction false} EndedSteps(k: nat)
    requires k <= 8
    ensures D.Exec(EndedTraces(), EndedLabels()[..k]) == Ended(k)
  {
    if k == 0 {
      IdlerSends();
    } else {
      EndedSteps(k - 1);
      EndedStep(Ended(k - 1), k - 1);
      assert EndedLabels()[..k] == EndedLabels()[..k - 1] + [EndedLabels()[k - 1]];
      DaemonAfter(EndedTraces(), EndedLabels()[..k - 1], EndedLabels()[k - 1]);
    }
  }

  lemma SubscribedTwice()
    ensures var s := B.Exec(false, JamLabels()[..2]);
      && s.phase.AtHead? && s.gate.recv && s.log.published == 0 && |s.subs| == 2
      && s.members == map["g" := 0, "h" := 1] && s.members.Keys == {"g", "h"} && Blocked(s.subs[0])
  {
    var run := JamLabels();
    var g, h := run[0], run[1];
    assert [] + [g] == run[..1] && run[..1] + [h] == run[..2];
    T.ExecAfter(false, [], g);
    T.ExecAfter(false, run[..1], h);
    var s := B.Exec(false, run[..1]);
    assert s.subs == [P.NewSub(g.conf, 0)] && s.members == map["g" := 0];
  }

  lemma HeldBroadcaster()
    ensures var s := B.Exec(false, JamLabels());
      s.log.published == 1 && s.phase == B.FanningOut({"g", "h"}, Some("g")) && Held(s)
  {
    var run := JamLabels();
    SubscribedTwice();
    assert run[..3] == run[..2] + [B.Publish];
    T.ExecAfter(false, run[..2], B.Publish);
    assert run == run[..3] + [B.Deliver("g", ALONE)];
    T.ExecAfter(false, run[..3], B.Deliver("g", ALONE));
    B.Reachable(false, run[..3]);
    VisitMoves(B.Exec(false, run[..3]), "g", ALONE);
  }

  // One consumer of the states that asked to lose nothing and does not receive is enough: both
  // services have ended, their updates have been folded, and the shutdown waits for ever. The
  // other consumer, which is behind it in the range, gets nothing either.
  lemma JammedShutdown()
    ensures var d, s := D.Exec(EndedTraces(), EndedLabels()), B.Exec(false, JamLabels());
      && d.published == s.log.published && !d.done && Jammed(d, s) && !Moves(d, s)
      && s.phase == B.FanningOut({"g", "h"}, Some("g"))
  {
    EndedSteps(8);
    assert EndedLabels()[..8] == EndedLabels();
    HeldBroadcaster();
    StuckExactlyIfJammed(EndedTraces(), EndedLabels(), JamLabels());
  }
}

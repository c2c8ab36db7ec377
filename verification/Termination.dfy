// The daemon and the broadcaster together reach the end: without new requests only a bounded number
// of steps is left, and if every consumer of the states subscribes with a policy that drops, a step
// is left until the daemon is done.
module Termination {
  import opened Orders
  import opened Lifecycle
  import opened StatesWatcher
  import opened Progress
  import P = Policies
  import B = Broadcast
  import T = BroadcastTheorems
  import D = Shutdown

  datatype Runs = Runs(launch: seq<D.Label>, run: seq<B.Label>)

  // A step without a request: of the daemon, of the fan-out, of a consumer, or the watcher's send
  // of a snapshot together with its receipt.
  datatype Move = Daemon(l: D.Label) | Visit(g: string, env: P.Env) | Receive(id: nat) | Meet

  function After(r: Runs, m: Move): Runs {
    match m
    case Daemon(l) => Runs(r.launch + [l], r.run)
    case Visit(g, env) => Runs(r.launch, r.run + [B.Deliver(g, env)])
    case Receive(id) => Runs(r.launch, r.run + [B.Consume(id)])
    case Meet => Runs(r.launch + [D.Publish], r.run + [B.Publish])
  }

  ghost predicate Joint(traces: map<string, seq<StateUpdate>>, r: Runs) {
    D.Exec(traces, r.launch).published == B.Exec(false, r.run).log.published
  }

  // The move changes something; consumers may also try in vain.
  ghost predicate Works(d: D.State, s: B.State, m: Move)
    requires B.WellFormed(s)
  {
    match m
    case Daemon(l) => !l.Publish? && D.Step(d, l) != d
    case Visit(g, env) => B.DeliverStep(s, g, env) != s
    case Receive(id) => true
    case Meet => D.Step(d, D.Publish) != d && B.PublishStep(s) != s
  }

  // ---------------------------------------------------------------------------------- the work left

  // The number of updates that the services have still to send.
  ghost function Total(left: map<string, seq<StateUpdate>>): nat
    decreases |left|
  {
    if left == map[] then 0
    else
      var n :| n in left;
      |left[n]| + Total(left - {n})
  }

  lemma {:induction false} TotalOf(left: map<string, seq<StateUpdate>>, n: string)
    requires n in left
    ensures Total(left) == |left[n]| + Total(left - {n})
    decreases |left|
  {
    var k :| k in left && Total(left) == |left[k]| + Total(left - {k});
    if k != n {
      TotalOf(left - {k}, n);
      TotalOf(left - {n}, k);
      assert left - {k} - {n} == left - {n} - {k};
    }
  }

  lemma TotalAfterSend(left: map<string, seq<StateUpdate>>, n: string)
    requires n in left && left[n] != []
    ensures Total(left[n := left[n][1..]]) == Total(left) - 1
  {
    var less := left[n := left[n][1..]];
    TotalOf(left, n);
    TotalOf(less, n);
    assert less - {n} == left - {n};
  }

  // What the fan-out has left: two steps for each subscriber, or one if it has come to it already.
  function FanWork(s: B.State): nat {
    if s.phase.FanningOut? then 2 * |s.phase.todo| + (if s.phase.at.None? then 1 else 0) else 0
  }

  // More than any fan-out takes.
  function Round(s: B.State): nat {
    2 * |s.members| + 2
  }

  function Count(b: bool): nat {
    if b then 1 else 0
  }

  function Times(n: nat, cost: nat): nat {
    if n == 0 then 0 else cost + Times(n - 1, cost)
  }

  // Every update still to be sent, to be taken and to be published costs a round of the fan-out
  // and its own steps.
  function Price(unsent: nat, waiting: nat, held: nat, round: nat): nat {
    Times(unsent, round + 3) + Times(waiting, round + 2) + Times(held, round + 1)
  }

  lemma PriceOfMoves(unsent: nat, waiting: nat, held: nat, round: nat)
    ensures Price(unsent + 1, waiting, held, round) == Price(unsent, waiting + 1, held, round) + 1
    ensures Price(unsent, waiting + 1, held, round) == Price(unsent, waiting, held + 1, round) + 1
    ensures Price(unsent, waiting, held + 1, round) == Price(unsent, waiting, held, round) + round + 1
  {
  }

  // The ends of the goroutines, the close and the signal.
  function Ends(d: D.State): nat {
    |d.live| + Count(!d.closed) + Count(!d.done)
  }

  ghost function DaemonWork(d: D.State, round: nat): nat {
    var waiting, held := |d.sent| - d.taken, d.taken - d.published;
    if waiting < 0 || held < 0 then 0 else Price(Total(d.left), waiting, held, round) + Ends(d)
  }

  ghost function Work(d: D.State, s: B.State): nat {
    DaemonWork(d, Round(s)) + FanWork(s)
  }

  lemma SendWorks(d: D.State, n: string, round: nat)
    requires d.published <= d.taken <= |d.sent| && !d.closed && D.Step(d, D.Send(n)) != d
    ensures DaemonWork(D.Step(d, D.Send(n)), round) < DaemonWork(d, round)
  {
    TotalAfterSend(d.left, n);
    TotalOf(d.left, n);
    PriceOfMoves(Total(d.left) - 1, |d.sent| - d.taken, d.taken - d.published, round);
  }

  lemma TakeWorks(d: D.State, round: nat)
    requires d.published <= d.taken <= |d.sent| && D.Step(d, D.Take) != d
    ensures DaemonWork(D.Step(d, D.Take), round) < DaemonWork(d, round)
  {
    PriceOfMoves(Total(d.left), |d.sent| - d.taken - 1, d.taken - d.published, round);
  }

  lemma EndWorks(d: D.State, l: D.Label, round: nat)
    requires d.published <= d.taken <= |d.sent| && D.Step(d, l) != d
    requires l.Done? || l.CloseUpdates? || l.SignalDone?
    ensures DaemonWork(D.Step(d, l), round) < DaemonWork(d, round)
  {
    if l.Done? { assert |d.live - {l.name}| == |d.live| - 1; }
  }

  lemma DaemonWorks(traces: map<string, seq<StateUpdate>>, d: D.State, l: D.Label, round: nat)
    requires D.Inv(traces, d) && !l.Publish? && D.Step(d, l) != d
    ensures DaemonWork(D.Step(d, l), round) < DaemonWork(d, round)
    ensures D.Step(d, l).published == d.published
  {
    match l {
      case Send(n) => SendWorks(d, n, round);
      case Take => TakeWorks(d, round);
      case _ => EndWorks(d, l, round);
    }
  }

  lemma VisitWorks(s: B.State, g: string, env: P.Env)
    requires B.Inv(s) && B.DeliverStep(s, g, env) != s
    ensures var r := B.DeliverStep(s, g, env);
      FanWork(r) < FanWork(s) && r.members == s.members && r.log.published == s.log.published
  {
    assert s.phase.todo - {g} != {} ==> |s.phase.todo - {g}| == |s.phase.todo| - 1;
  }

  lemma ReceiptWorks(s: B.State)
    requires B.Inv(s) && B.PublishStep(s) != s
    ensures var r := B.PublishStep(s);
      && r.members == s.members && r.log.published == s.log.published + 1
      && FanWork(s) == 0 && FanWork(r) < Round(s)
  {
    assert |s.members.Keys| == |s.members|;
  }

  lemma MeetWorks(d: D.State, s: B.State)
    requires B.Inv(s) && d.taken <= |d.sent|
    requires D.Step(d, D.Publish) != d && B.PublishStep(s) != s
    ensures D.Step(d, D.Publish).published == d.published + 1
    ensures Work(D.Step(d, D.Publish), B.PublishStep(s)) < Work(d, s)
  {
    ReceiptWorks(s);
    PriceOfMoves(Total(d.left), |d.sent| - d.taken, d.taken - d.published - 1, Round(s));
  }

  // What a move makes of the two.
  function DaemonAfterMove(d: D.State, m: Move): D.State {
    if m.Daemon? then D.Step(d, m.l) else if m.Meet? then D.Step(d, D.Publish) else d
  }

  function LoopAfterMove(s: B.State, m: Move): B.State
    requires B.WellFormed(s)
  {
    match m
    case Daemon(_) => s
    case Visit(g, env) => B.DeliverStep(s, g, env)
    case Receive(id) => B.ConsumeStep(s, id)
    case Meet => B.PublishStep(s)
  }

  lemma StepWorks(traces: map<string, seq<StateUpdate>>, d: D.State, s: B.State, m: Move)
    requires D.Inv(traces, d) && B.Inv(s) && Works(d, s, m)
    ensures Work(DaemonAfterMove(d, m), LoopAfterMove(s, m)) + Count(!m.Receive?) <= Work(d, s)
    ensures d.published == s.log.published ==>
      DaemonAfterMove(d, m).published == LoopAfterMove(s, m).log.published
  {
    match m {
      case Daemon(l) => DaemonWorks(traces, d, l, Round(s));
      case Visit(g, env) => VisitWorks(s, g, env);
      case Receive(id) =>
      case Meet => MeetWorks(d, s);
    }
  }

  lemma ExecAfterMove(traces: map<string, seq<StateUpdate>>, r: Runs, m: Move)
    ensures D.Exec(traces, After(r, m).launch) == DaemonAfterMove(D.Exec(traces, r.launch), m)
    ensures B.Exec(false, After(r, m).run) == LoopAfterMove(B.Exec(false, r.run), m)
  {
    match m {
      case Daemon(l) => DaemonAfter(traces, r.launch, l);
      case Visit(g, env) => T.ExecAfter(false, r.run, B.Deliver(g, env));
      case Receive(id) => T.ExecAfter(false, r.run, B.Consume(id));
      case Meet =>
        DaemonAfter(traces, r.launch, D.Publish);
        T.ExecAfter(false, r.run, B.Publish);
    }
  }

  ghost function WorkOf(traces: map<string, seq<StateUpdate>>, r: Runs): nat {
    Work(D.Exec(traces, r.launch), B.Exec(false, r.run))
  }

  // Every move that changes something leaves less work, except that consumers leave it as it is.
  lemma MoveWorks(traces: map<string, seq<StateUpdate>>, r: Runs, m: Move)
    requires Joint(traces, r) && Works(D.Exec(traces, r.launch), B.Exec(false, r.run), m)
    ensures Joint(traces, After(r, m))
    ensures WorkOf(traces, After(r, m)) + Count(!m.Receive?) <= WorkOf(traces, r)
  {
    D.Reachable(traces, r.launch);
    B.Reachable(false, r.run);
    ExecAfterMove(traces, r, m);
    StepWorks(traces, D.Exec(traces, r.launch), B.Exec(false, r.run), m);
  }

  // ------------------------------------------------------------------------------- the end is reached

  function AfterAll(r: Runs, moves: seq<Move>): Runs
    decreases |moves|
  {
    if moves == [] then r else AfterAll(After(r, moves[0]), moves[1..])
  }

  // Every move changes something in its turn.
  ghost predicate Plays(traces: map<string, seq<StateUpdate>>, r: Runs, moves: seq<Move>)
    decreases |moves|
  {
    moves != [] ==>
      Works(D.Exec(traces, r.launch), B.Exec(false, r.run), moves[0]) && Plays(traces, After(r, moves[0]), moves[1..])
  }

  function MovesOf(moves: seq<Move>): nat {
    if moves == [] then 0 else Count(!moves[0].Receive?) + MovesOf(moves[1..])
  }

  // However the steps and the consumers are scheduled, the daemon and the broadcaster take no more
  // steps than the work they have left.
  lemma {:induction false} BoundedWork(traces: map<string, seq<StateUpdate>>, r: Runs, moves: seq<Move>)
    requires Joint(traces, r) && Plays(traces, r, moves)
    ensures Joint(traces, AfterAll(r, moves))
    ensures MovesOf(moves) + WorkOf(traces, AfterAll(r, moves)) <= WorkOf(traces, r)
    decreases |moves|
  {
    if moves != [] {
      MoveWorks(traces, r, moves[0]);
      BoundedWork(traces, After(r, moves[0]), moves[1..]);
    }
  }

  lemma SomeMove(traces: map<string, seq<StateUpdate>>, r: Runs) returns (m: Move)
    requires Joint(traces, r) && !D.Exec(traces, r.launch).done && forall l :: l in r.run ==> Careful(l)
    ensures !m.Receive? && Works(D.Exec(traces, r.launch), B.Exec(false, r.run), m)
  {
    NeverStuck(traces, r.launch, r.run);
    var d, s := D.Exec(traces, r.launch), B.Exec(false, r.run);
    if DaemonMoves(d) {
      var l: D.Label :| !l.Publish? && D.Step(d, l) != d;
      m := Daemon(l);
    } else if g, env :| NoHelp(env) && B.DeliverStep(s, g, env) != s {
      m := Visit(g, env);
    } else {
      m := Meet;
    }
  }

  lemma StaysCareful(r: Runs, moves: seq<Move>)
    requires forall l :: l in r.run ==> Careful(l)
    ensures forall l :: l in AfterAll(r, moves).run ==> Careful(l)
    decreases |moves|
  {
    if moves != [] { StaysCareful(After(r, moves[0]), moves[1..]); }
  }

  // If every consumer of the states subscribed with a policy that drops: a schedule that cannot be
  // continued has brought the daemon to its end, and it had no more steps than there was work.
  lemma EveryScheduleEndsDone(traces: map<string, seq<StateUpdate>>, r: Runs, moves: seq<Move>)
    requires Joint(traces, r) && Plays(traces, r, moves) && forall l :: l in r.run ==> Careful(l)
    requires forall m: Move {:trigger m.Receive?} :: !m.Receive? ==>
      !Works(D.Exec(traces, AfterAll(r, moves).launch), B.Exec(false, AfterAll(r, moves).run), m)
    ensures D.Exec(traces, AfterAll(r, moves).launch).done && MovesOf(moves) <= WorkOf(traces, r)
  {
    BoundedWork(traces, r, moves);
    StaysCareful(r, moves);
    if !D.Exec(traces, AfterAll(r, moves).launch).done {
      var m := SomeMove(traces, AfterAll(r, moves));
      assert false;
    }
  }

  // And there is one, from everywhere, even if no consumer ever receives anything again.
  lemma {:induction false} DoneIsReached(traces: map<string, seq<StateUpdate>>, r: Runs) returns (moves: seq<Move>)
    requires Joint(traces, r) && forall l :: l in r.run ==> Careful(l)
    ensures Plays(traces, r, moves) && D.Exec(traces, AfterAll(r, moves).launch).done
    ensures MovesOf(moves) == |moves| <= WorkOf(traces, r)
    decreases WorkOf(traces, r)
  {
    moves := [];
    if !D.Exec(traces, r.launch).done {
      var m := SomeMove(traces, r);
      MoveWorks(traces, r, m);
      var rest := DoneIsReached(traces, After(r, m));
      moves := [m] + rest;
      assert moves[1..] == rest;
    }
  }
}

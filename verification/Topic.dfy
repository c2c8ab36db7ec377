// The topic in front of the broadcaster (intracom/topic.go): any number of concurrent calls of
// Subscribe, Unsubscribe and Close, as a step machine. The run of the broadcaster that results is
// part of the state.
module Topic {
  import opened Orders
  import opened Wrappers
  import P = Policies
  import B = Broadcast
  import T = BroadcastTheorems

  datatype Request = Subscribe(conf: P.Config) | Unsubscribe(group: string, ch: nat) | Close

  function LabelOf(r: Request): B.Label {
    match r
    case Subscribe(conf) => B.Subscribe(conf)
    case Unsubscribe(group, ch) => B.Unsubscribe(group, ch)
    case Close => B.Close
  }

  // How far a call has got.
  datatype Phase =
    | Begun
    | Checked                           // found the topic open; Close has marked it closed
    | Waiting                           // has sent its request
    | Shutting(response: B.Response)    // Close, between closing its two channels
    | Returned(response: B.Response)    // returned what the response says
    | Refused                           // returned because the topic was already closed
    | GaveUp                            // returned because its context was done
    | Panicked                          // sent on a closed channel, or closed a channel twice

  // `responses` is what the call's response channel holds. `at` is bookkeeping: the position of
  // the request in the broadcaster's run, once it has been received.
  datatype Call = Call(request: Request, phase: Phase, responses: seq<B.Response>, at: Option<nat>)

  // A response channel has room for one response, the request channel for one request (which is
  // represented by its call).
  const CAPACITY := 1

  // closer: the call that marked the topic closed, if it is. blocked: the broadcaster waits to
  // send a response that the response channel has no room for.
  datatype State = State(
    closed: bool, closer: nat, queue: seq<nat>, calls: seq<Call>, run: seq<B.Label>,
    requestsClosed: bool, publishClosed: bool, blocked: bool)

  datatype Label =
    | Begin(request: Request)
    | Go(i: nat)              // call i takes its next step, if it can
    | GiveUp(i: nat)          // the context of call i is done; Close has none
    | Serve                   // the broadcaster receives a request, handles it and responds
    | Broadcaster(l: B.Label) // any other step of the broadcaster or of a consumer

  function Init(): State {
    State(false, 0, [], [], [], false, false, false)
  }

  function Move(s: State, i: nat, p: Phase): State
    requires i < |s.calls|
  {
    s.(calls := s.calls[i := s.calls[i].(phase := p)])
  }

  function Check(s: State, i: nat): State
    requires i < |s.calls|
  {
    if s.closed then Move(s, i, Refused)
    else if s.calls[i].request.Close? then Move(s, i, Checked).(closed := true, closer := i)
    else Move(s, i, Checked)
  }

  function Enqueue(s: State, i: nat): State
    requires i < |s.calls|
  {
    if s.requestsClosed then Move(s, i, Panicked)
    else if |s.queue| < CAPACITY then Move(s, i, Waiting).(queue := s.queue + [i])
    else s
  }

  // The call receives its response, if there is one.
  function Receive(s: State, i: nat): State
    requires i < |s.calls|
  {
    var c := s.calls[i];
    if c.responses == [] then s
    else
      var t := s.(calls := s.calls[i := c.(responses := c.responses[1..])]);
      if !c.request.Close? then Move(t, i, Returned(c.responses[0]))
      else if s.requestsClosed then Move(t, i, Panicked)
      else Move(t, i, Shutting(c.responses[0])).(requestsClosed := true)
  }

  function ClosePublish(s: State, i: nat, r: B.Response): State
    requires i < |s.calls|
  {
    if s.publishClosed then Move(s, i, Panicked) else Move(s, i, Returned(r)).(publishClosed := true)
  }

  function GoStep(s: State, i: nat): State
    requires i < |s.calls|
  {
    match s.calls[i].phase
    case Begun => Check(s, i)
    case Checked => Enqueue(s, i)
    case Waiting => Receive(s, i)
    case Shutting(r) => ClosePublish(s, i, r)
    case _ => s
  }

  function GiveUpStep(s: State, i: nat): State
    requires i < |s.calls|
  {
    var c := s.calls[i];
    if !c.request.Close? && (c.phase.Checked? || c.phase.Waiting?) then Move(s, i, GaveUp) else s
  }

  // The broadcaster handles the next request and sends its answer to the call's response channel.
  function ServeStep(s: State, answer: B.Response): State
    requires s.queue != [] && s.queue[0] < |s.calls|
  {
    var i := s.queue[0];
    var c := s.calls[i];
    var t := s.(queue := s.queue[1..], run := s.run + [LabelOf(c.request)]);
    if |c.responses| >= CAPACITY then t.(blocked := true)
    else t.(calls := s.calls[i := c.(responses := c.responses + [answer], at := Some(|s.run|))])
  }

  predicate CanServe(s: State, atHead: bool) {
    !s.blocked && atHead && s.queue != [] && s.queue[0] < |s.calls|
  }

  // A closed channel ends the loop: the request channel once it is empty.
  predicate MayEnd(s: State, recv: bool) {
    (s.requestsClosed && s.queue == []) || (s.publishClosed && recv)
  }

  // atHead, recv: the broadcaster is at its select, and the publish channel is selectable;
  // answer: what it would answer to the next request.
  function StepWith(s: State, l: Label, atHead: bool, recv: bool, answer: B.Response): State {
    match l
    case Begin(r) => s.(calls := s.calls + [Call(r, Begun, [], None)])
    case Go(i) => if i < |s.calls| then GoStep(s, i) else s
    case GiveUp(i) => if i < |s.calls| then GiveUpStep(s, i) else s
    case Serve => if CanServe(s, atHead) then ServeStep(s, answer) else s
    case Broadcaster(b) =>
      if s.blocked || B.IsRequest(b) || (b.Disconnect? && !MayEnd(s, recv)) then s
      else s.(run := s.run + [b])
  }

  function NextAnswer(aware: bool, s: State): B.Response {
    if s.queue == [] || s.queue[0] >= |s.calls| then B.NoneYet
    else B.Exec(aware, s.run + [LabelOf(s.calls[s.queue[0]].request)]).log.answer
  }

  function Step(aware: bool, s: State, l: Label): State {
    var b := B.Exec(aware, s.run);
    StepWith(s, l, b.phase.AtHead?, b.gate.recv, NextAnswer(aware, s))
  }

  function Exec(aware: bool, steps: seq<Label>): State
    decreases |steps|
  {
    if steps == [] then Init() else Step(aware, Exec(aware, steps[..|steps| - 1]), Last(steps))
  }

  // ------------------------------------------------------------------------------ the invariant

  // The call marked the topic closed, and did not return an error for it.
  predicate Closes(c: Call) {
    c.request.Close? && !c.phase.Begun? && !c.phase.Refused?
  }

  // The request at this position was handled, with answer r.
  ghost predicate HandledAt(aware: bool, run: seq<B.Label>, at: nat, l: B.Label, r: B.Response) {
    && at < |run| && run[at] == l && B.Exec(aware, run[..at]).phase.AtHead?
    && B.Exec(aware, run[..at + 1]).log.answer == r
  }

  // The call's response, wherever it is: in the response channel or with the caller.
  function ResponseOf(c: Call): Option<B.Response> {
    if c.responses != [] then Some(c.responses[0])
    else if c.phase.Shutting? || c.phase.Returned? then Some(c.phase.response)
    else None
  }

  ghost predicate ResponseOk(aware: bool, run: seq<B.Label>, c: Call) {
    c.at.Some? && ResponseOf(c).Some? ==>
      HandledAt(aware, run, c.at.value, LabelOf(c.request), ResponseOf(c).value)
  }

  ghost predicate CallOk(s: State, i: nat)
    requires i < |s.calls|
  {
    var c := s.calls[i];
    && |c.responses| <= CAPACITY
    && (c.at.Some? <==> ResponseOf(c).Some?)
    && (c.responses != [] ==> c.phase.Waiting? || c.phase.GaveUp?)
    && (Closes(c) ==> s.closed && i == s.closer && !c.phase.GaveUp? && !c.phase.Panicked?)
    && (c.phase.Waiting? && c.at.None? ==> s.queue == [i])
    && (c.phase.Shutting? ==> c.request.Close?)
    && (c.phase.Panicked? ==> s.requestsClosed)
  }

  ghost predicate ClosingOk(s: State) {
    && (s.closed ==> s.closer < |s.calls| && Closes(s.calls[s.closer]))
    && (s.requestsClosed <==> s.closed && (s.calls[s.closer].phase.Shutting? || s.calls[s.closer].phase.Returned?))
    && (s.publishClosed <==> s.closed && s.calls[s.closer].phase.Returned?)
    && forall k :: 0 <= k < |s.run| && s.run[k].Close? ==> s.closed && s.calls[s.closer].at == Some(k)
  }

  // A request in the request channel belongs to a call that has had no response yet.
  predicate Enqueued(c: Call) {
    c.at.None? && c.responses == [] && (c.phase.Waiting? || (c.phase.GaveUp? && !c.request.Close?))
  }

  ghost predicate QueueOk(s: State) {
    && |s.queue| <= CAPACITY
    && (s.queue != [] ==> s.queue[0] < |s.calls| && Enqueued(s.calls[s.queue[0]]))
  }

  ghost predicate Control(s: State) {
    QueueOk(s) && ClosingOk(s) && !s.blocked && forall i :: 0 <= i < |s.calls| ==> CallOk(s, i)
  }

  ghost predicate Inv(aware: bool, s: State) {
    Control(s) && forall i :: 0 <= i < |s.calls| ==> ResponseOk(aware, s.run, s.calls[i])
  }

  lemma CheckKeepsControl(s: State, i: nat)
    requires Control(s) && i < |s.calls| && s.calls[i].phase.Begun?
    ensures Control(Check(s, i))
  {
    var r := Check(s, i);
    assert CallOk(s, i);
    forall j | 0 <= j < |r.calls| ensures CallOk(r, j) {
      assert CallOk(s, j);
    }
  }

  lemma EnqueueKeepsControl(s: State, i: nat)
    requires Control(s) && i < |s.calls| && s.calls[i].phase.Checked?
    ensures Control(Enqueue(s, i))
  {
    var r := Enqueue(s, i);
    assert CallOk(s, i);
    forall j | 0 <= j < |r.calls| ensures CallOk(r, j) {
      assert CallOk(s, j);
    }
  }

  lemma ReceiveKeepsControl(s: State, i: nat)
    requires Control(s) && i < |s.calls| && s.calls[i].phase.Waiting?
    ensures Control(Receive(s, i))
  {
    var r := Receive(s, i);
    assert CallOk(s, i);
    forall j | 0 <= j < |r.calls| ensures CallOk(r, j) {
      assert CallOk(s, j);
    }
  }

  lemma ClosePublishKeepsControl(s: State, i: nat)
    requires Control(s) && i < |s.calls| && s.calls[i].phase.Shutting?
    ensures Control(ClosePublish(s, i, s.calls[i].phase.response))
  {
    var r := ClosePublish(s, i, s.calls[i].phase.response);
    assert CallOk(s, i);
    forall j | 0 <= j < |r.calls| ensures CallOk(r, j) {
      assert CallOk(s, j);
    }
  }

  lemma GiveUpKeepsControl(s: State, i: nat)
    requires Control(s) && i < |s.calls|
    ensures Control(GiveUpStep(s, i))
  {
    var r := GiveUpStep(s, i);
    assert CallOk(s, i);
    forall j | 0 <= j < |r.calls| ensures CallOk(r, j) {
      assert CallOk(s, j);
    }
  }

  // A step of call i that keeps its response, from its response channel to what it returns.
  ghost predicate KeepsResponse(s: State, r: State, i: nat)
    requires i < |s.calls|
  {
    && r.run == s.run && |r.calls| == |s.calls|
    && r.calls[i].request == s.calls[i].request && r.calls[i].at == s.calls[i].at
    && (ResponseOf(r.calls[i]).Some? ==> ResponseOf(r.calls[i]) == ResponseOf(s.calls[i]))
    && forall j :: 0 <= j < |s.calls| && j != i ==> r.calls[j] == s.calls[j]
  }

  lemma ReceiveKeepsResponse(s: State, i: nat)
    requires Control(s) && i < |s.calls| && s.calls[i].phase.Waiting?
    ensures KeepsResponse(s, Receive(s, i), i)
  {
    assert CallOk(s, i);
  }

  lemma GoKeepsResponse(s: State, i: nat)
    requires Control(s) && i < |s.calls|
    ensures KeepsResponse(s, GoStep(s, i), i)
  {
    assert CallOk(s, i);
    if s.calls[i].phase.Waiting? { ReceiveKeepsResponse(s, i); }
  }

  lemma GoKeepsInv(aware: bool, s: State, i: nat)
    requires Inv(aware, s) && i < |s.calls|
    ensures Inv(aware, GoStep(s, i))
  {
    match s.calls[i].phase {
      case Begun => CheckKeepsControl(s, i);
      case Checked => EnqueueKeepsControl(s, i);
      case Waiting => ReceiveKeepsControl(s, i);
      case Shutting(r) => ClosePublishKeepsControl(s, i);
      case _ =>
    }
    GoKeepsResponse(s, i);
    var r := GoStep(s, i);
    forall j | 0 <= j < |r.calls| ensures ResponseOk(aware, r.run, r.calls[j]) {
      assert ResponseOk(aware, s.run, s.calls[j]);
    }
  }

  lemma GiveUpKeepsInv(aware: bool, s: State, i: nat)
    requires Inv(aware, s) && i < |s.calls|
    ensures Inv(aware, GiveUpStep(s, i))
  {
    GiveUpKeepsControl(s, i);
    var r := GiveUpStep(s, i);
    forall j | 0 <= j < |r.calls| ensures ResponseOk(aware, r.run, r.calls[j]) {
      assert ResponseOk(aware, s.run, s.calls[j]);
    }
  }

  lemma ResponseStill(aware: bool, run: seq<B.Label>, c: Call, more: B.Label)
    requires ResponseOk(aware, run, c)
    ensures ResponseOk(aware, run + [more], c)
  {
    if c.at.Some? && ResponseOf(c).Some? {
      assert (run + [more])[..c.at.value] == run[..c.at.value];
      assert (run + [more])[..c.at.value + 1] == run[..c.at.value + 1];
    }
  }

  lemma RunKeepsInv(aware: bool, s: State, l: B.Label)
    requires Inv(aware, s) && !l.Close?
    ensures Inv(aware, s.(run := s.run + [l]))
  {
    var r := s.(run := s.run + [l]);
    forall j | 0 <= j < |r.calls| ensures CallOk(r, j) && ResponseOk(aware, r.run, r.calls[j]) {
      assert CallOk(s, j) && ResponseOk(aware, s.run, s.calls[j]);
      ResponseStill(aware, s.run, s.calls[j], l);
    }
  }

  // The response channel of the call whose request is received next has room: the broadcaster's
  // send of the response never waits.
  lemma ResponseFindsRoom(s: State)
    requires Control(s) && s.queue != []
    ensures s.queue[0] < |s.calls| && |s.calls[s.queue[0]].responses| < CAPACITY
    ensures forall r :: !ServeStep(s, r).blocked
  {
  }

  lemma ServeKeepsControl(s: State, r: B.Response)
    requires Control(s) && s.queue != []
    ensures Control(ServeStep(s, r))
  {
    var t := ServeStep(s, r);
    assert CallOk(s, s.queue[0]);
    forall j | 0 <= j < |t.calls| ensures CallOk(t, j) {
      assert CallOk(s, j);
    }
  }

  lemma ServeKeepsResponse(aware: bool, s: State, r: B.Response, j: nat)
    requires Inv(aware, s) && s.queue != [] && B.Exec(aware, s.run).phase.AtHead? && j < |s.calls|
    requires r == NextAnswer(aware, s)
    ensures ResponseOk(aware, ServeStep(s, r).run, ServeStep(s, r).calls[j])
  {
    var i := s.queue[0];
    var l := LabelOf(s.calls[i].request);
    assert CallOk(s, j) && ResponseOk(aware, s.run, s.calls[j]);
    if j == i {
      assert (s.run + [l])[..|s.run|] == s.run && (s.run + [l])[..|s.run| + 1] == s.run + [l];
    } else {
      ResponseStill(aware, s.run, s.calls[j], l);
    }
  }

  lemma ServeKeepsInv(aware: bool, s: State, r: B.Response)
    requires Inv(aware, s) && s.queue != [] && B.Exec(aware, s.run).phase.AtHead? && r == NextAnswer(aware, s)
    ensures Inv(aware, ServeStep(s, r))
  {
    ServeKeepsControl(s, r);
    forall j | 0 <= j < |s.calls|
      ensures ResponseOk(aware, ServeStep(s, r).run, ServeStep(s, r).calls[j])
    {
      ServeKeepsResponse(aware, s, r, j);
    }
  }

  lemma BeginKeepsInv(aware: bool, s: State, request: Request)
    requires Inv(aware, s)
    ensures Inv(aware, s.(calls := s.calls + [Call(request, Begun, [], None)]))
  {
    var r := s.(calls := s.calls + [Call(request, Begun, [], None)]);
    forall j | 0 <= j < |r.calls| ensures CallOk(r, j) {
      if j < |s.calls| { assert CallOk(s, j); }
    }
  }

  lemma StepKeepsInv(aware: bool, s: State, l: Label, atHead: bool, recv: bool, answer: B.Response)
    requires Inv(aware, s) && atHead == B.Exec(aware, s.run).phase.AtHead? && answer == NextAnswer(aware, s)
    ensures Inv(aware, StepWith(s, l, atHead, recv, answer))
  {
    match l {
      case Begin(request) => BeginKeepsInv(aware, s, request);
      case Go(i) => if i < |s.calls| { GoKeepsInv(aware, s, i); }
      case GiveUp(i) => if i < |s.calls| { GiveUpKeepsInv(aware, s, i); }
      case Serve => if CanServe(s, atHead) { ServeKeepsInv(aware, s, answer); }
      case Broadcaster(b) => if !b.Close? { RunKeepsInv(aware, s, b); }
    }
  }

  lemma {:induction false} Reachable(aware: bool, steps: seq<Label>)
    ensures Inv(aware, Exec(aware, steps))
  {
    if steps != [] {
      var s := Exec(aware, steps[..|steps| - 1]);
      Reachable(aware, steps[..|steps| - 1]);
      var b := B.Exec(aware, s.run);
      StepKeepsInv(aware, s, Last(steps), b.phase.AtHead?, b.gate.recv, NextAnswer(aware, s));
    }
  }

  // -------------------------------------------------------------------------- what the calls get

  // No response ever waits for room: in every run the broadcaster is never blocked by a response
  // channel, and no response channel holds more than its capacity.
  lemma ResponsesNeverBlock(aware: bool, steps: seq<Label>)
    ensures var s := Exec(aware, steps);
      && !s.blocked
      && (forall i :: 0 <= i < |s.calls| ==> |s.calls[i].responses| <= CAPACITY)
      && (s.queue != [] ==> s.queue[0] < |s.calls| && |s.calls[s.queue[0]].responses| < CAPACITY)
  {
    Reachable(aware, steps);
    var s := Exec(aware, steps);
    forall i | 0 <= i < |s.calls| ensures |s.calls[i].responses| <= CAPACITY {
      assert CallOk(s, i);
    }
    if s.queue != [] { ResponseFindsRoom(s); }
  }

  // A true answer to the call's own request.
  ghost predicate AnsweredTruly(aware: bool, run: seq<B.Label>, c: Call, r: B.Response) {
    && c.at.Some? && c.at.value < |run| && run[c.at.value] == LabelOf(c.request)
    && B.Exec(aware, run[..c.at.value + 1]).log.answer == r
    && T.Truthful(B.Exec(aware, run[..c.at.value]), LabelOf(c.request), B.Exec(aware, run[..c.at.value + 1]))
  }

  lemma TruthAt(aware: bool, run: seq<B.Label>, at: nat, l: B.Label, r: B.Response)
    requires HandledAt(aware, run, at, l, r) && B.IsRequest(l)
    ensures T.Truthful(B.Exec(aware, run[..at]), l, B.Exec(aware, run[..at + 1]))
  {
    assert run[..at + 1] == run[..at] + [l];
    T.ResponsesAreTruthful(aware, run[..at], l);
  }

  lemma ReturnedTruth(aware: bool, s: State, i: nat)
    requires Inv(aware, s) && i < |s.calls| && s.calls[i].phase.Returned?
    ensures AnsweredTruly(aware, s.run, s.calls[i], s.calls[i].phase.response)
  {
    assert CallOk(s, i) && ResponseOk(aware, s.run, s.calls[i]);
    TruthAt(aware, s.run, s.calls[i].at.value, LabelOf(s.calls[i].request), s.calls[i].phase.response);
  }

  // What a call returns is the response that the broadcaster gave to its own request, which was
  // true when it was given.
  lemma AnswersAreTruthful(aware: bool, steps: seq<Label>, i: nat)
    requires i < |Exec(aware, steps).calls| && Exec(aware, steps).calls[i].phase.Returned?
    ensures var s := Exec(aware, steps);
      AnsweredTruly(aware, s.run, s.calls[i], s.calls[i].phase.response)
  {
    Reachable(aware, steps);
    ReturnedTruth(aware, Exec(aware, steps), i);
  }

  // Every request that the broadcaster has handled belongs to exactly one call.
  ghost predicate Owns(s: State, i: nat, k: nat) {
    i < |s.calls| && s.calls[i].at == Some(k)
  }

  ghost predicate Accounted(s: State) {
    && (forall k :: 0 <= k < |s.run| && B.IsRequest(s.run[k]) ==> exists i :: Owns(s, i, k))
    && (forall i :: 0 <= i < |s.calls| && s.calls[i].at.Some? ==> s.calls[i].at.value < |s.run|)
    && (forall i, j :: 0 <= i < j < |s.calls| && s.calls[i].at.Some? ==> s.calls[i].at != s.calls[j].at)
  }

  // Positions are kept, except that call x may have got the next one.
  ghost predicate Inherits(s: State, r: State) {
    && |s.calls| <= |r.calls| && s.run == r.run
    && (forall i :: 0 <= i < |s.calls| ==> r.calls[i].at == s.calls[i].at)
    && (forall i :: |s.calls| <= i < |r.calls| ==> r.calls[i].at.None?)
  }

  lemma InheritsAccounted(s: State, r: State)
    requires Accounted(s) && Inherits(s, r)
    ensures Accounted(r)
  {
    forall k | 0 <= k < |r.run| && B.IsRequest(r.run[k]) ensures exists i :: Owns(r, i, k) {
      var i :| Owns(s, i, k);
      assert Owns(r, i, k);
    }
  }

  lemma ServeAccounted(s: State, answer: B.Response)
    requires Accounted(s) && Control(s) && s.queue != []
    ensures Accounted(ServeStep(s, answer))
  {
    var i, r := s.queue[0], ServeStep(s, answer);
    ResponseFindsRoom(s);
    forall k | 0 <= k < |r.run| && B.IsRequest(r.run[k]) ensures exists j :: Owns(r, j, k) {
      if k < |s.run| {
        var j :| Owns(s, j, k);
        assert Owns(r, j, k);
      } else {
        assert Owns(r, i, k);
      }
    }
  }

  lemma GoAccounted(s: State, i: nat)
    requires Accounted(s) && Control(s) && i < |s.calls|
    ensures Accounted(GoStep(s, i))
  {
    GoKeepsResponse(s, i);
    InheritsAccounted(s, GoStep(s, i));
  }

  lemma RunAccounted(s: State, l: B.Label)
    requires Accounted(s) && !B.IsRequest(l)
    ensures Accounted(s.(run := s.run + [l]))
  {
    var r := s.(run := s.run + [l]);
    forall k | 0 <= k < |r.run| && B.IsRequest(r.run[k]) ensures exists j :: Owns(r, j, k) {
      var j :| Owns(s, j, k);
      assert Owns(r, j, k);
    }
  }

  lemma StepAccounted(s: State, l: Label, atHead: bool, recv: bool, answer: B.Response)
    requires Accounted(s) && Control(s)
    ensures Accounted(StepWith(s, l, atHead, recv, answer))
  {
    match l {
      case Begin(request) => InheritsAccounted(s, StepWith(s, l, atHead, recv, answer));
      case Go(i) => if i < |s.calls| { GoAccounted(s, i); }
      case GiveUp(i) => if i < |s.calls| { InheritsAccounted(s, GiveUpStep(s, i)); }
      case Serve => if CanServe(s, atHead) { ServeAccounted(s, answer); }
      case Broadcaster(b) => if !B.IsRequest(b) { RunAccounted(s, b); }
    }
  }

  lemma {:induction false} RequestsAreAccountedFor(aware: bool, steps: seq<Label>)
    ensures Accounted(Exec(aware, steps))
    decreases |steps|
  {
    if steps != [] {
      var s := Exec(aware, steps[..|steps| - 1]);
      RequestsAreAccountedFor(aware, steps[..|steps| - 1]);
      Reachable(aware, steps[..|steps| - 1]);
      var b := B.Exec(aware, s.run);
      StepAccounted(s, Last(steps), b.phase.AtHead?, b.gate.recv, NextAnswer(aware, s));
    }
  }

  // Exactly one response: of every request that the broadcaster has handled there is exactly one
  // call, and its response is in the call's response channel, or with the caller.
  lemma ExactlyOneResponse(aware: bool, steps: seq<Label>, k: nat) returns (i: nat)
    requires k < |Exec(aware, steps).run| && B.IsRequest(Exec(aware, steps).run[k])
    ensures var s := Exec(aware, steps);
      && Owns(s, i, k) && ResponseOf(s.calls[i]).Some?
      && HandledAt(aware, s.run, k, LabelOf(s.calls[i].request), ResponseOf(s.calls[i]).value)
      && forall j :: Owns(s, j, k) ==> j == i
  {
    RequestsAreAccountedFor(aware, steps);
    Reachable(aware, steps);
    var s := Exec(aware, steps);
    i :| Owns(s, i, k);
    assert CallOk(s, i) && ResponseOk(aware, s.run, s.calls[i]);
  }

  // Close takes effect once: among all its calls, in every run, at most one gets past the closed
  // flag, and that one never gives up and never panics.
  lemma OnlyOneCloses(aware: bool, steps: seq<Label>, i: nat, j: nat)
    requires var s := Exec(aware, steps);
      i < |s.calls| && j < |s.calls| && Closes(s.calls[i]) && Closes(s.calls[j])
    ensures i == j
    ensures var p := Exec(aware, steps).calls[i].phase;
      p.Checked? || p.Waiting? || p.Shutting? || p.Returned?
  {
    Reachable(aware, steps);
    assert CallOk(Exec(aware, steps), i) && CallOk(Exec(aware, steps), j);
  }

  lemma SplitRun(run: seq<B.Label>, k: nat)
    requires k < |run|
    ensures run == run[..k] + [run[k]] + run[k + 1..]
  {
  }

  // Channels that were there when a close request was handled are closed, now and ever after.
  lemma ClosedSince(aware: bool, before: seq<B.Label>, after: seq<B.Label>)
    requires B.Exec(aware, before).phase.AtHead?
    ensures var s := B.Exec(aware, before + [B.Close] + after);
      && |B.Exec(aware, before).subs| <= |s.subs|
      && forall id :: 0 <= id < |B.Exec(aware, before).subs| ==> s.subs[id].flags.closes == 1
  {
    var mid, end := B.Exec(aware, before + [B.Close]), B.Exec(aware, before + [B.Close] + after);
    assert before + [B.Close] + [] == before + [B.Close];
    T.ClosedForGood(aware, before, []);
    T.RunExtends(aware, before + [B.Close], after);
    T.ChannelLifetime(aware, before + [B.Close] + after);
    forall id | 0 <= id < |mid.subs| ensures end.subs[id].flags.closes == 1 {
      assert P.SameChannel(mid.subs[id], end.subs[id]);
    }
  }

  // What a handled close request means for a run of the broadcaster that has no other.
  ghost predicate ClosedAt(aware: bool, run: seq<B.Label>, k: nat) {
    && k < |run| && (forall m :: 0 <= m < |run| ==> (run[m].Close? <==> m == k))
    && var before, now := B.Exec(aware, run[..k]), B.Exec(aware, run);
    && |before.subs| <= |now.subs|
    && (forall id :: 0 <= id < |before.subs| ==> now.subs[id].flags.closes == 1)
    && ((forall m :: k < m < |run| ==> !run[m].Subscribe?) ==>
          T.AllClosed(now) && now.log.published == before.log.published)
  }

  lemma AfterClose(aware: bool, run: seq<B.Label>, k: nat)
    requires k < |run| && run[k] == B.Close && B.Exec(aware, run[..k]).phase.AtHead?
    requires forall m :: 0 <= m < |run| && run[m].Close? ==> m == k
    ensures ClosedAt(aware, run, k)
  {
    SplitRun(run, k);
    ClosedSince(aware, run[..k], run[k + 1..]);
    if forall m :: k < m < |run| ==> !run[m].Subscribe? {
      T.ClosedForGood(aware, run[..k], run[k + 1..]);
    }
  }

  // When Close has returned without an error: both channels of the topic are closed; exactly one
  // close request has ever been handled; every channel created by a request handled before it is
  // closed; and if no subscribe request was handled after it, every channel there is.
  lemma CloseClosesAll(aware: bool, steps: seq<Label>, i: nat)
    requires i < |Exec(aware, steps).calls|
    requires Exec(aware, steps).calls[i].request.Close? && Exec(aware, steps).calls[i].phase.Returned?
    ensures var s := Exec(aware, steps);
      && s.requestsClosed && s.publishClosed
      && s.calls[i].at.Some? && ClosedAt(aware, s.run, s.calls[i].at.value)
  {
    Reachable(aware, steps);
    var s := Exec(aware, steps);
    assert CallOk(s, i) && ResponseOk(aware, s.run, s.calls[i]);
    AfterClose(aware, s.run, s.calls[i].at.value);
  }

  // ------------------------------------------------------------------------------ calls come to an end

  // The call has returned, one way or the other.
  predicate HasEnded(p: Phase) {
    p.Returned? || p.Refused? || p.GaveUp? || p.Panicked?
  }

  // Only the phase of call i differs.
  ghost predicate OnlyMoves(s: State, r: State, i: nat, p: Phase)
    requires i < |s.calls|
  {
    r == s.(calls := s.calls[i := s.calls[i].(phase := p)])
  }

  lemma ExecAfter(aware: bool, steps: seq<Label>, l: Label)
    ensures Exec(aware, steps + [l]) == Step(aware, Exec(aware, steps), l)
  {
    assert (steps + [l])[..|steps|] == steps;
  }

  // A Subscribe or Unsubscribe that is past the check and has not returned ends as soon as its
  // context is done, whatever the broadcaster does and also if its response is already there.
  lemma GivingUpEnds(aware: bool, steps: seq<Label>, i: nat)
    requires i < |Exec(aware, steps).calls| && !Exec(aware, steps).calls[i].request.Close?
    requires !Exec(aware, steps).calls[i].phase.Begun? && !HasEnded(Exec(aware, steps).calls[i].phase)
    ensures OnlyMoves(Exec(aware, steps), Exec(aware, steps + [GiveUp(i)]), i, GaveUp)
  {
    Reachable(aware, steps);
    assert CallOk(Exec(aware, steps), i);
    ExecAfter(aware, steps, GiveUp(i));
  }

  // A call that finds the topic closed ends refused by its next step; one that finds it open goes on.
  lemma CheckedAtOnce(aware: bool, steps: seq<Label>, i: nat)
    requires i < |Exec(aware, steps).calls| && Exec(aware, steps).calls[i].phase.Begun?
    ensures var s, r := Exec(aware, steps), Exec(aware, steps + [Go(i)]);
      && r.calls == s.calls[i := s.calls[i].(phase := if s.closed then Refused else Checked)]
      && r.closed == (s.closed || s.calls[i].request.Close?) && r.queue == s.queue && r.run == s.run
  {
    ExecAfter(aware, steps, Go(i));
  }

  // A request is sent as soon as there is room for it.
  lemma SentAtOnce(aware: bool, steps: seq<Label>, i: nat)
    requires i < |Exec(aware, steps).calls| && Exec(aware, steps).calls[i].phase.Checked?
    requires !Exec(aware, steps).requestsClosed && Exec(aware, steps).queue == []
    ensures var s, r := Exec(aware, steps), Exec(aware, steps + [Go(i)]);
      r == s.(calls := s.calls[i := s.calls[i].(phase := Waiting)], queue := [i])
  {
    ExecAfter(aware, steps, Go(i));
  }

  // A request in the request channel is answered as soon as the broadcaster is at its select.
  lemma ServedAtOnce(aware: bool, steps: seq<Label>)
    ensures var s, r := Exec(aware, steps), Exec(aware, steps + [Serve]);
      s.queue != [] && B.Exec(aware, s.run).phase.AtHead? ==>
        && s.queue[0] < |s.calls| == |r.calls| && r.queue == []
        && r.run == s.run + [LabelOf(s.calls[s.queue[0]].request)]
        && r.calls[s.queue[0]].responses == [B.Exec(aware, r.run).log.answer]
        && r.calls[s.queue[0]].phase == s.calls[s.queue[0]].phase
  {
    var s := Exec(aware, steps);
    Reachable(aware, steps);
    if s.queue != [] { ResponseFindsRoom(s); }
    ExecAfter(aware, steps, Serve);
  }

  // A call of any kind whose response is in its channel gets it by its next step: Subscribe and
  // Unsubscribe return it, Close goes on to close the channels, which takes one more step.
  lemma ReceivedAtOnce(aware: bool, steps: seq<Label>, i: nat)
    requires i < |Exec(aware, steps).calls|
    requires Exec(aware, steps).calls[i].phase.Waiting? && Exec(aware, steps).calls[i].responses != []
    ensures var s, r := Exec(aware, steps), Exec(aware, steps + [Go(i)]);
      && i < |r.calls| && r.run == s.run && r.calls[i].responses == []
      && r.calls[i].phase == (if s.calls[i].request.Close? then Shutting(s.calls[i].responses[0])
                              else Returned(s.calls[i].responses[0]))
      && r.requestsClosed == (s.requestsClosed || s.calls[i].request.Close?)
  {
    Reachable(aware, steps);
    assert CallOk(Exec(aware, steps), i);
    ExecAfter(aware, steps, Go(i));
  }

  lemma ClosedAtOnce(aware: bool, steps: seq<Label>, i: nat)
    requires i < |Exec(aware, steps).calls| && Exec(aware, steps).calls[i].phase.Shutting?
    ensures var s, r := Exec(aware, steps), Exec(aware, steps + [Go(i)]);
      i < |r.calls| && r.calls[i].phase == Returned(s.calls[i].phase.response) && r.publishClosed
  {
    Reachable(aware, steps);
    assert CallOk(Exec(aware, steps), i);
    ExecAfter(aware, steps, Go(i));
  }

  lemma EndedGo(s: State, k: nat, i: nat)
    requires i < |s.calls| && k < |s.calls| && HasEnded(s.calls[i].phase)
    ensures i < |GoStep(s, k).calls| && GoStep(s, k).calls[i].phase == s.calls[i].phase
  {
    if k == i { assert GoStep(s, k) == s; }
  }

  lemma EndedServe(s: State, answer: B.Response, i: nat)
    requires i < |s.calls| && s.queue != [] && s.queue[0] < |s.calls|
    ensures i < |ServeStep(s, answer).calls| && ServeStep(s, answer).calls[i].phase == s.calls[i].phase
  {
  }

  lemma EndedStep(s: State, l: Label, atHead: bool, recv: bool, answer: B.Response, i: nat)
    requires i < |s.calls| && HasEnded(s.calls[i].phase)
    ensures var r := StepWith(s, l, atHead, recv, answer);
      i < |r.calls| && r.calls[i].phase == s.calls[i].phase
  {
    match l {
      case Go(k) => if k < |s.calls| { EndedGo(s, k, i); }
      case Serve => if CanServe(s, atHead) { EndedServe(s, answer, i); }
      case _ =>
    }
  }

  // A call that has ended is not touched again, except that a response may still come for one that
  // has given up.
  lemma {:induction false} EndedForGood(aware: bool, steps: seq<Label>, more: seq<Label>, i: nat)
    requires i < |Exec(aware, steps).calls| && HasEnded(Exec(aware, steps).calls[i].phase)
    ensures i < |Exec(aware, steps + more).calls|
    ensures Exec(aware, steps + more).calls[i].phase == Exec(aware, steps).calls[i].phase
    decreases |more|
  {
    if more == [] {
      assert steps + more == steps;
    } else {
      var init := more[..|more| - 1];
      EndedForGood(aware, steps, init, i);
      assert steps + more == (steps + init) + [Last(more)];
      ExecAfter(aware, steps + init, Last(more));
      var s := Exec(aware, steps + init);
      var b := B.Exec(aware, s.run);
      EndedStep(s, Last(more), b.phase.AtHead?, b.gate.recv, NextAnswer(aware, s), i);
    }
  }

  // ------------------------------------------------------------------------------ the end of the loop

  // What a step adds to the broadcaster's run.
  lemma StepRun(s: State, l: Label, atHead: bool, recv: bool, answer: B.Response)
    requires Control(s)
    ensures var r := StepWith(s, l, atHead, recv, answer);
      || r.run == s.run
      || (r.run != [] && r.run == s.run + [Last(r.run)] && (Last(r.run).Disconnect? ==> s.requestsClosed))
  {
    match l {
      case Go(i) => if i < |s.calls| { GoKeepsResponse(s, i); }
      case _ =>
    }
  }

  lemma EndLabel(aware: bool, run: seq<B.Label>, l: B.Label)
    ensures B.Exec(aware, run + [l]).phase.Finished? ==> B.Exec(aware, run).phase.Finished? || l.Disconnect?
  {
    T.ExecAfter(aware, run, l);
  }

  lemma EndTurn(aware: bool, s: State, l: Label)
    requires Control(s) && (B.Exec(aware, s.run).phase.Finished? ==> s.requestsClosed)
    ensures var r := Step(aware, s, l); B.Exec(aware, r.run).phase.Finished? ==> r.requestsClosed
  {
    var b := B.Exec(aware, s.run);
    var r := StepWith(s, l, b.phase.AtHead?, b.gate.recv, NextAnswer(aware, s));
    StepRun(s, l, b.phase.AtHead?, b.gate.recv, NextAnswer(aware, s));
    if r.run != s.run { EndLabel(aware, s.run, Last(r.run)); }
  }

  // The loop ends only once Close has closed the request channel.
  lemma {:induction false} EndsAfterClose(aware: bool, steps: seq<Label>)
    ensures var s := Exec(aware, steps); B.Exec(aware, s.run).phase.Finished? ==> s.requestsClosed
  {
    if steps != [] {
      EndsAfterClose(aware, steps[..|steps| - 1]);
      Reachable(aware, steps[..|steps| - 1]);
      EndTurn(aware, Exec(aware, steps[..|steps| - 1]), Last(steps));
    }
  }

  lemma DisconnectEnds(aware: bool, run: seq<B.Label>)
    ensures var b := B.Exec(aware, run);
      B.Exec(aware, run + [B.Disconnect]).phase.Finished? <==> b.phase.Finished? || b.phase.AtHead?
  {
    T.ExecAfter(aware, run, B.Disconnect);
  }

  lemma DisconnectStep(s: State, atHead: bool, recv: bool, answer: B.Response)
    requires !s.blocked
    ensures StepWith(s, Broadcaster(B.Disconnect), atHead, recv, answer).run
         == if (s.requestsClosed && s.queue == []) || (s.publishClosed && recv) then s.run + [B.Disconnect] else s.run
  {
  }

  // When it can end: at its select, once the request channel is closed and empty, or once the
  // publish channel is closed and selectable.
  lemma EndsExactlyWhenDisconnected(aware: bool, steps: seq<Label>)
    ensures var s := Exec(aware, steps);
            var b := B.Exec(aware, s.run);
      B.Exec(aware, Exec(aware, steps + [Broadcaster(B.Disconnect)]).run).phase.Finished? <==>
        b.phase.Finished?
        || (b.phase.AtHead? && ((s.requestsClosed && s.queue == []) || (s.publishClosed && b.gate.recv)))
  {
    Reachable(aware, steps);
    var s := Exec(aware, steps);
    var b := B.Exec(aware, s.run);
    ExecAfter(aware, steps, Broadcaster(B.Disconnect));
    DisconnectStep(s, b.phase.AtHead?, b.gate.recv, NextAnswer(aware, s));
    DisconnectEnds(aware, s.run);
  }

  // Nothing else that the broadcaster and the consumers do waits for the calls.
  lemma BroadcasterGoesOn(aware: bool, steps: seq<Label>, l: B.Label)
    requires !B.IsRequest(l) && !l.Disconnect?
    ensures var s := Exec(aware, steps); Exec(aware, steps + [Broadcaster(l)]) == s.(run := s.run + [l])
  {
    Reachable(aware, steps);
    ExecAfter(aware, steps, Broadcaster(l));
  }

  // ------------------------------------------------------------------------- racing with Close

  ghost predicate PanicsAfter(aware: bool, steps: seq<Label>, more: seq<Label>, i: nat) {
    var r := Exec(aware, steps + more);
    i < |r.calls| && r.calls[i].phase.Panicked?
  }

  // Past the closed check without a request sent yet, or panicked already.
  predicate Racing(s: State, i: nat) {
    i < |s.calls| && (s.calls[i].phase.Checked? || s.calls[i].phase.Panicked?)
  }

  lemma NoNewRace(s: State, l: Label, atHead: bool, recv: bool, answer: B.Response, i: nat)
    requires s.closed && s.requestsClosed && Racing(StepWith(s, l, atHead, recv, answer), i)
    requires i < |s.calls| && Closes(s.calls[i]) ==> !s.calls[i].phase.Waiting?
    requires i < |s.calls| ==> !s.calls[i].phase.Shutting? || !s.publishClosed
    ensures Racing(s, i)
  {
  }

  lemma OldRace(aware: bool, s: State, l: Label, i: nat)
    requires Inv(aware, s) && s.requestsClosed
    ensures Step(aware, s, l).requestsClosed
    ensures Racing(Step(aware, s, l), i) ==> Racing(s, i)
  {
    var b := B.Exec(aware, s.run);
    if Racing(Step(aware, s, l), i) {
      if i < |s.calls| { assert CallOk(s, i); }
      NoNewRace(s, l, b.phase.AtHead?, b.gate.recv, NextAnswer(aware, s), i);
    }
  }

  lemma {:induction false} RacesAreOld(aware: bool, steps: seq<Label>, more: seq<Label>, i: nat)
    requires Exec(aware, steps).requestsClosed
    ensures Exec(aware, steps + more).requestsClosed
    ensures Racing(Exec(aware, steps + more), i) ==> Racing(Exec(aware, steps), i)
    decreases |more|
  {
    if more == [] {
      assert steps + more == steps;
    } else {
      var init := more[..|more| - 1];
      RacesAreOld(aware, steps, init, i);
      assert steps + more == (steps + init) + [Last(more)];
      ExecAfter(aware, steps + init, Last(more));
      Reachable(aware, steps + init);
      OldRace(aware, Exec(aware, steps + init), Last(more), i);
    }
  }

  // No call panics before Close has closed the request channel; from then on exactly those calls
  // can still panic that had found the topic open but had not sent their request yet.
  lemma PanicsExactlyIfRacing(aware: bool, steps: seq<Label>, i: nat)
    ensures var s := Exec(aware, steps);
      && (!s.requestsClosed && i < |s.calls| ==> !s.calls[i].phase.Panicked?)
      && (s.requestsClosed ==> (Racing(s, i) <==> exists more :: PanicsAfter(aware, steps, more, i)))
  {
    Reachable(aware, steps);
    var s := Exec(aware, steps);
    if i < |s.calls| { assert CallOk(s, i); }
    if s.requestsClosed {
      if Racing(s, i) {
        ExecAfter(aware, steps, Go(i));
        assert PanicsAfter(aware, steps, [Go(i)], i);
      }
      forall more | PanicsAfter(aware, steps, more, i) ensures Racing(s, i) {
        RacesAreOld(aware, steps, more, i);
      }
    }
  }

  // A run with a race: the labels, and the state before each of them.
  function RaceConfig(): P.Config {
    P.Config("g", false, 0, P.Unset)
  }

  function RaceLabels(): seq<Label> {
    [Begin(Subscribe(RaceConfig())), Go(0), Begin(Close), Go(1), Go(1), Serve, Go(1), Go(0)]
  }

  function RaceState(k: nat): State
    requires k <= 8
  {
    var sub := Call(Subscribe(RaceConfig()), if k < 2 then Begun else if k < 8 then Checked else Panicked, [], None);
    var phase := if k < 4 then Begun else if k < 5 then Checked else if k < 7 then Waiting else Shutting(B.TopicClosed);
    var close := Call(Close, phase, if k == 6 then [B.TopicClosed] else [], if k < 6 then None else Some(0));
    State(k >= 4, if k < 4 then 0 else 1, if k == 5 then [1] else [],
          if k == 0 then [] else if k < 3 then [sub] else [sub, close],
          if k < 6 then [] else [B.Close], k >= 7, false, false)
  }

  lemma ExecOneMore(aware: bool, labels: seq<Label>, k: nat)
    requires k < |labels|
    ensures Exec(aware, labels[..k + 1]) == Step(aware, Exec(aware, labels[..k]), labels[k])
  {
    assert labels[..k + 1] == labels[..k] + [labels[k]];
    ExecAfter(aware, labels[..k], labels[k]);
  }

  lemma RaceStep(s: State, k: nat, atHead: bool, recv: bool, answer: B.Response)
    requires k < 8 && s == RaceState(k) && (k == 5 ==> atHead && answer == B.TopicClosed)
    ensures StepWith(s, RaceLabels()[k], atHead, recv, answer) == RaceState(k + 1)
  {
    var r := StepWith(s, RaceLabels()[k], atHead, recv, answer);
    var none: seq<B.Response> := [];
    assert none + [B.TopicClosed] == [B.TopicClosed] && [B.TopicClosed][1..] == none;
    assert k == 5 ==> r.calls[1] == RaceState(6).calls[1];
    assert k == 6 ==> r.calls[1] == RaceState(7).calls[1];
    assert r.calls == RaceState(k + 1).calls;
  }

  lemma AnswerInRace(aware: bool)
    ensures B.Exec(aware, []).phase.AtHead? && NextAnswer(aware, RaceState(5)) == B.TopicClosed
  {
    assert [] + [B.Close] == [B.Close];
    T.ResponsesAreTruthful(aware, [], B.Close);
  }

  lemma RaceTurn(aware: bool, s: State, k: nat)
    requires k < 8 && s == RaceState(k)
    ensures Step(aware, s, RaceLabels()[k]) == RaceState(k + 1)
  {
    var b := B.Exec(aware, s.run);
    AnswerInRace(aware);
    RaceStep(s, k, b.phase.AtHead?, b.gate.recv, NextAnswer(aware, s));
  }

  lemma {:induction false} RaceSteps(aware: bool, k: nat)
    requires k <= 8
    ensures Exec(aware, RaceLabels()[..k]) == RaceState(k)
  {
    if k == 0 {
    } else {
      RaceSteps(aware, k - 1);
      RaceTurn(aware, RaceState(k - 1), k - 1);
      ExecOneMore(aware, RaceLabels(), k - 1);
    }
  }

  // A call that panics: Subscribe has found the topic open when Close runs to the point where it
  // closes the request channel, and then sends its request.
  lemma RacingCallPanics(aware: bool)
    ensures var s := Exec(aware, RaceLabels());
      |s.calls| == 2 && s.calls[0].phase == Panicked && s.requestsClosed
  {
    RaceSteps(aware, 8);
    assert RaceLabels()[..8] == RaceLabels();
  }

  // ---------------------------------------------------------------------- subscribers that come late

  // The topic is closed and every call that had found it open is past sending its request.
  ghost predicate Quiet(s: State) {
    s.closed && s.queue == [] && forall i :: 0 <= i < |s.calls| ==> !s.calls[i].phase.Checked?
  }

  lemma QuietGo(s: State, i: nat)
    requires Quiet(s) && i < |s.calls|
    ensures Quiet(GoStep(s, i)) && GoStep(s, i).run == s.run
  {
  }

  lemma QuietStep(s: State, l: Label, atHead: bool, recv: bool, answer: B.Response)
    requires Quiet(s)
    ensures var r := StepWith(s, l, atHead, recv, answer);
      Quiet(r) && (r.run == s.run || (l.Broadcaster? && !B.IsRequest(l.l) && r.run == s.run + [l.l]))
  {
    match l {
      case Go(i) => if i < |s.calls| { QuietGo(s, i); }
      case _ =>
    }
  }

  // The same channels, and the same ones of them closed.
  ghost predicate SameClosed(s: B.State, r: B.State) {
    |r.subs| == |s.subs| && forall id :: 0 <= id < |s.subs| ==> r.subs[id].flags.closes == s.subs[id].flags.closes
  }

  lemma DeliverySameClosed(s: B.State, g: string, env: P.Env)
    requires B.Inv(s)
    ensures SameClosed(s, B.DeliverStep(s, g, env))
  {
    if B.CanVisit(s, g) {
      assert B.SubOk(s, s.members[g]);
      P.SendKeepsOrder(s.subs[s.members[g]], env);
    }
  }

  lemma SameClosedStep(s: B.State, l: B.Label)
    requires B.Inv(s) && !B.IsRequest(l)
    ensures SameClosed(s, B.Step(s, l))
  {
    match l {
      case Deliver(g, env) => DeliverySameClosed(s, g, env);
      case _ =>
    }
  }

  lemma QuietTurn(aware: bool, s: State, l: Label)
    requires Quiet(s)
    ensures Quiet(Step(aware, s, l))
    ensures SameClosed(B.Exec(aware, s.run), B.Exec(aware, Step(aware, s, l).run))
  {
    var b := B.Exec(aware, s.run);
    QuietStep(s, l, b.phase.AtHead?, b.gate.recv, NextAnswer(aware, s));
    if l.Broadcaster? && !B.IsRequest(l.l) {
      B.Reachable(aware, s.run);
      T.ExecAfter(aware, s.run, l.l);
      SameClosedStep(b, l.l);
    }
  }

  // Once it is quiet no channel is created or closed any more, whatever is called.
  lemma {:induction false} QuietForGood(aware: bool, steps: seq<Label>, more: seq<Label>)
    requires Quiet(Exec(aware, steps))
    ensures Quiet(Exec(aware, steps + more))
    ensures SameClosed(B.Exec(aware, Exec(aware, steps).run), B.Exec(aware, Exec(aware, steps + more).run))
    decreases |more|
  {
    if more == [] {
      assert steps + more == steps;
    } else {
      var init := more[..|more| - 1];
      QuietForGood(aware, steps, init);
      assert steps + more == (steps + init) + [Last(more)];
      ExecAfter(aware, steps + init, Last(more));
      QuietTurn(aware, Exec(aware, steps + init), Last(more));
    }
  }

  // A run with a late subscriber.
  function LateLabels(): seq<Label> {
    [Begin(Subscribe(RaceConfig())), Go(0), Begin(Close), Go(1), Go(1), Serve, Go(0), Go(1), Serve, Go(1), Go(0)]
  }

  function LateRun(): seq<B.Label> {
    [B.Close, B.Subscribe(RaceConfig())]
  }

  function LateSubscribe(k: nat): Call {
    Call(Subscribe(RaceConfig()),
         if k < 2 then Begun else if k < 7 then Checked else if k < 11 then Waiting else Returned(B.Subscribed(0)),
         if k == 9 || k == 10 then [B.Subscribed(0)] else [], if k < 9 then None else Some(1))
  }

  function LateClose(k: nat): Call {
    Call(Close,
         if k < 4 then Begun else if k < 5 then Checked else if k < 8 then Waiting
         else if k < 10 then Shutting(B.TopicClosed) else Returned(B.TopicClosed),
         if k == 6 || k == 7 then [B.TopicClosed] else [], if k < 6 then None else Some(0))
  }

  function LateState(k: nat): State
    requires k <= 11
  {
    State(k >= 4, if k < 4 then 0 else 1, if k == 5 then [1] else if k == 7 || k == 8 then [0] else [],
          if k == 0 then [] else if k < 3 then [LateSubscribe(k)] else [LateSubscribe(k), LateClose(k)],
          LateRun()[..if k < 6 then 0 else if k < 9 then 1 else 2], k >= 8, k >= 10, false)
  }

  lemma LateStepBefore(s: State, k: nat, atHead: bool, recv: bool, answer: B.Response)
    requires k < 6 && s == LateState(k) && (k == 5 ==> atHead && answer == B.TopicClosed)
    ensures StepWith(s, LateLabels()[k], atHead, recv, answer) == LateState(k + 1)
  {
    var r := StepWith(s, LateLabels()[k], atHead, recv, answer);
    var none: seq<B.Response> := [];
    assert none + [answer] == [answer];
    assert LateRun()[..0] + [B.Close] == LateRun()[..1];
    assert k >= 2 ==> r.calls[1] == LateClose(k + 1);
    assert r.calls == LateState(k + 1).calls;
    assert r.queue == LateState(k + 1).queue && r.run == LateState(k + 1).run;
  }

  lemma LateStepMiddle(s: State, k: nat, atHead: bool, recv: bool, answer: B.Response)
    requires 6 <= k < 8 && s == LateState(k)
    ensures StepWith(s, LateLabels()[k], atHead, recv, answer) == LateState(k + 1)
  {
    var r := StepWith(s, LateLabels()[k], atHead, recv, answer);
    assert [B.TopicClosed][1..] == [];
    assert r.calls == [LateSubscribe(k + 1), LateClose(k + 1)];
    assert r.queue == LateState(k + 1).queue && r.run == LateState(k + 1).run;
  }

  lemma LateStepServe(s: State, k: nat, atHead: bool, recv: bool, answer: B.Response)
    requires 8 <= k < 9 && s == LateState(k) && atHead && answer == B.Subscribed(0)
    ensures StepWith(s, LateLabels()[k], atHead, recv, answer) == LateState(k + 1)
  {
    var r := StepWith(s, LateLabels()[k], atHead, recv, answer);
    var none: seq<B.Response> := [];
    assert none + [answer] == [answer];
    assert LateRun()[..1] + [LateRun()[1]] == LateRun()[..2];
    assert r.calls == [LateSubscribe(k + 1), LateClose(k + 1)];
    assert r.queue == LateState(k + 1).queue && r.run == LateState(k + 1).run;
  }

  lemma LateStepEnd(s: State, k: nat, atHead: bool, recv: bool, answer: B.Response)
    requires 9 <= k < 11 && s == LateState(k)
    ensures StepWith(s, LateLabels()[k], atHead, recv, answer) == LateState(k + 1)
  {
    var r := StepWith(s, LateLabels()[k], atHead, recv, answer);
    assert [B.Subscribed(0)][1..] == [];
    assert r.calls == [LateSubscribe(k + 1), LateClose(k + 1)];
    assert r.queue == LateState(k + 1).queue && r.run == LateState(k + 1).run;
  }

  lemma LateAnswers(aware: bool)
    ensures B.Exec(aware, LateRun()[..0]).phase.AtHead? && B.Exec(aware, LateRun()[..1]).phase.AtHead?
    ensures B.Exec(aware, LateRun()[..1]).log.answer == B.TopicClosed
    ensures var s := B.Exec(aware, LateRun());
      s.log.answer == B.Subscribed(0) && |s.subs| == 1 && s.subs[0].flags.closes == 0
  {
    assert LateRun()[..0] == [] && [] + [B.Close] == LateRun()[..1];
    T.ExecAfter(aware, [], B.Close);
    var s := B.Exec(aware, LateRun()[..1]);
    assert s.subs == [] && s.members == map[] && s.log.answer == B.TopicClosed;
    assert LateRun()[..1] + [LateRun()[1]] == LateRun();
    T.ExecAfter(aware, LateRun()[..1], LateRun()[1]);
  }

  lemma LateTurn(aware: bool, s: State, k: nat)
    requires k < 11 && s == LateState(k)
    ensures Step(aware, s, LateLabels()[k]) == LateState(k + 1)
  {
    LateAnswers(aware);
    assert LateRun()[..0] + [B.Close] == LateRun()[..1] && LateRun()[..1] + [LateRun()[1]] == LateRun();
    var b := B.Exec(aware, s.run);
    if k < 6 {
      LateStepBefore(s, k, b.phase.AtHead?, b.gate.recv, NextAnswer(aware, s));
    } else if k < 8 {
      LateStepMiddle(s, k, b.phase.AtHead?, b.gate.recv, NextAnswer(aware, s));
    } else if k == 8 {
      LateStepServe(s, k, b.phase.AtHead?, b.gate.recv, NextAnswer(aware, s));
    } else {
      LateStepEnd(s, k, b.phase.AtHead?, b.gate.recv, NextAnswer(aware, s));
    }
  }

  lemma {:induction false} LateSteps(aware: bool, k: nat)
    requires k <= 11
    ensures Exec(aware, LateLabels()[..k]) == LateState(k)
  {
    if k == 0 {
    } else {
      LateSteps(aware, k - 1);
      LateTurn(aware, LateState(k - 1), k - 1);
      ExecOneMore(aware, LateLabels(), k - 1);
    }
  }

  lemma LateEnd(aware: bool)
    ensures Exec(aware, LateLabels()) == LateState(11)
  {
    LateSteps(aware, 11);
    assert LateLabels()[..11] == LateLabels();
  }

  lemma LateIsQuiet(s: State)
    requires s == LateState(11)
    ensures Quiet(s) && s.run == LateRun() && s.calls == [LateSubscribe(11), LateClose(11)]
  {
  }

  lemma OpenAfterwards(aware: bool, steps: seq<Label>, more: seq<Label>)
    requires Quiet(Exec(aware, steps))
    requires var s := B.Exec(aware, Exec(aware, steps).run); |s.subs| == 1 && s.subs[0].flags.closes == 0
    ensures var s := B.Exec(aware, Exec(aware, steps + more).run); |s.subs| == 1 && s.subs[0].flags.closes == 0
  {
    QuietForGood(aware, steps, more);
  }

  // A subscribe request that is sent after the close request and still handled: both calls return,
  // and the subscriber's channel is open when Close has returned and stays open in every
  // continuation, so no call can ever close it.
  lemma LateSubscriberStaysOpen(aware: bool, more: seq<Label>)
    ensures var calls := Exec(aware, LateLabels()).calls;
      |calls| == 2 && calls[0].phase == Returned(B.Subscribed(0)) && calls[1].phase == Returned(B.TopicClosed)
    ensures var s := B.Exec(aware, Exec(aware, LateLabels() + more).run);
      |s.subs| == 1 && s.subs[0].flags.closes == 0
  {
    LateEnd(aware);
    LateIsQuiet(LateState(11));
    LateAnswers(aware);
    OpenAfterwards(aware, LateLabels(), more);
  }
}

// The broadcaster as the program runs it: objects with fields, a loop and nested loops, proved to
// follow the step machine of module Broadcast.
module BroadcastLoop {
  import opened Orders
  import opened Wrappers
  import opened Policies
  import opened Broadcast
  import opened BroadcastTheorems

  // intracom/subscriber.go. `id` stands for the identity of the channel; `received` is the
  // consumer's side of the channel.
  class Subscriber {
    const id: nat
    const group: string
    const policy: Policy
    const cap: nat
    ghost const joined: nat
    var buffer: seq<nat>
    var closed: bool
    var stopped: bool
    var closes: nat
    ghost var received: seq<nat>
    ghost var seen: nat

    ghost function View(): Sub
      reads this
    {
      RawSub(Info(group, policy, cap, joined), received + buffer, |received|, Flags(closed, stopped, closes), seen)
    }

    constructor (id: nat, conf: Config, ghost published: nat)
      ensures this.id == id && View() == NewSub(conf, published)
    {
      this.id := id;
      group, policy, cap := conf.group, if conf.policy == Unset then DropNone else conf.policy, conf.cap;
      joined := published;
      buffer := [];
      closed, stopped, closes := false, false, 0;
      received, seen := [], published;
    }

    // The consumer receives up to k messages.
    method Consume(k: nat)
      modifies this
      ensures View() == Take(old(View()), k)
    {
      var n := if k <= |buffer| then k else |buffer|;
      received := received + buffer[..n];
      buffer := buffer[n..];
      assert received + buffer == old(received + buffer);
    }

    method PushMessage(m: nat)
      requires cap == 0 ==> buffer == []
      modifies this
      ensures View() == Push(old(View()), m)
    {
      if cap == 0 {
        received := received + [m];   // handed to the parked consumer
      } else {
        buffer := buffer + [m];
      }
      assert received + buffer == old(received + buffer) + [m];
    }

    method PopMessage()
      modifies this
      ensures View() == Pop(old(View()))
    {
      if buffer != [] {
        buffer := buffer[1..];
        assert received + buffer == old(received + buffer)[..|received|] + old(received + buffer)[|received| + 1..];
      }
    }

    predicate Ready(parked: bool)
      reads this
      ensures Ready(parked) == Room(View(), parked)
    {
      |buffer| < cap || (cap == 0 && parked)
    }

    // Whether Send can return under this schedule, or still waits in a blocking select.
    predicate Returns(env: Env)
      reads this
      ensures forall m :: Returns(env) == Send(View(), m, env).Returned?
    {
      closed || stopped || policy == DropNewest || policy == DropOldest || Ready(env.parked)
      || (policy == DropNewestAfterTimeout
          && (env.elapsed || (cap > 0 && |buffer| - env.between < cap) || (cap == 0 && env.parkedAgain)))
    }

    // The policy's Handle. The precondition says that the selects have committed.
    method HandleMessage(m: nat, env: Env) returns (outcome: Outcome)
      requires |buffer| <= cap && Handle(View(), m, env).Returned?
      modifies this
      ensures Handle(old(View()), m, env) == Returned(View(), outcome)
    {
      if stopped {
        if env.stopFirst { return SubscriberStopped; }
        if policy == DropOldest {
          PopMessage();
          Consume(env.between);
          if env.elapsed { return SubscriberStopped; }
        }
        return SendOnClosed;
      }
      match policy
      case DropNewest =>
        if Ready(env.parked) {
          PushMessage(m);
          outcome := Sent;
        } else {
          outcome := Dropped;
        }
      case DropOldest =>
        PopMessage();
        Consume(env.between);
        if Ready(env.parkedAgain) {
          PushMessage(m);
          outcome := Sent;
        } else {
          outcome := BufferFull;
        }
      case DropNewestAfterTimeout =>
        if Ready(env.parked) {
          PushMessage(m);
          return Sent;
        }
        Consume(env.between);
        if env.elapsed {
          outcome := Dropped;
        } else {
          PushMessage(m);
          outcome := Sent;
        }
      case _ =>   // DropNone
        PushMessage(m);
        outcome := Sent;
    }

    method SendMessage(m: nat, env: Env) returns (outcome: Outcome)
      requires |buffer| <= cap && Returns(env)
      modifies this
      ensures Send(old(View()), m, env) == Returned(View(), outcome)
    {
      if closed {
        outcome := AlreadyClosed;
      } else {
        outcome := HandleMessage(m, env);
      }
      seen := m + 1;
    }

    method CloseChannel() returns (failed: bool)
      modifies this
      ensures CloseSub(old(View())) == Closing(View(), failed)
    {
      if closed { return true; }
      closed := true;
      stopped := true;
      closes := closes + 1;
      failed := false;
    }
  }

  ghost function Views(channels: seq<Subscriber>): (r: seq<Sub>)
    reads channels
    ensures |r| == |channels|
    ensures forall i :: 0 <= i < |r| ==> r[i] == channels[i].View()
  {
    seq(|channels|, i requires 0 <= i < |channels| reads channels => channels[i].View())
  }

  ghost predicate Keyed(v: seq<Sub>, m: map<string, nat>) {
    forall g :: g in m ==> m[g] < |v| && v[m[g]].info.group == g
  }

  // The channels of the members outside `left` have been closed.
  ghost function Closed(v: seq<Sub>, m: map<string, nat>, left: set<string>): (r: seq<Sub>)
    ensures |r| == |v|
  {
    seq(|v|, id requires 0 <= id < |v| =>
      if v[id].info.group in m && m[v[id].info.group] == id && v[id].info.group !in left then CloseSub(v[id]).sub
      else v[id])
  }

  lemma NoneClosed(v: seq<Sub>, m: map<string, nat>)
    ensures Closed(v, m, m.Keys) == v
  {
  }

  lemma CloseOneMore(v: seq<Sub>, m: map<string, nat>, left: set<string>, g: string)
    requires Keyed(v, m) && g in left && g in m
    ensures var c := Closed(v, m, left);
      Closed(v, m, left - {g}) == c[m[g] := CloseSub(c[m[g]]).sub]
  {
  }

  // How the state of the loop is followed through a schedule.

  // The labels that are enabled while the loop is inside the fan-out.
  function FanningStep(s: State, l: Label): State
    requires WellFormed(s)
  {
    match l
    case Deliver(g, env) => DeliverStep(s, g, env)
    case Consume(id) => ConsumeStep(s, id)
    case _ => s
  }

  ghost predicate Position(n: nat) {
    true
  }

  // The states of a run, one before each label of the schedule and one at the end. (The trigger
  // makes the verifier look at one turn only where Position(n) is mentioned.)
  ghost predicate IsTrace(trace: seq<State>, aware: bool, schedule: seq<Label>) {
    && |trace| == |schedule| + 1
    && forall n: nat {:trigger Position(n)} :: Position(n) && n <= |schedule| ==> trace[n] == Exec(aware, schedule[..n])
  }

  // Channels are only added.
  lemma AllNew(before: seq<Subscriber>, now: seq<Subscriber>)
    requires before <= now
    ensures now == before + now[|before|..]
  {
  }

  ghost function States(aware: bool, schedule: seq<Label>): (trace: seq<State>)
    ensures IsTrace(trace, aware, schedule)
  {
    seq(|schedule| + 1, i requires 0 <= i <= |schedule| => Exec(aware, schedule[..i]))
  }

  lemma Advance(trace: seq<State>, aware: bool, schedule: seq<Label>, n: nat)
    requires IsTrace(trace, aware, schedule) && n < |schedule|
    ensures Inv(trace[n]) && trace[n + 1] == Step(trace[n], schedule[n])
  {
    assert Position(n) && Position(n + 1);
    Reachable(aware, schedule[..n]);
    assert schedule[..n + 1] == schedule[..n] + [schedule[n]];
    ExecAfter(aware, schedule[..n], schedule[n]);
  }

  // How a fan-out changes the log: lastMessage is stored when the last subscriber has been visited.
  predicate Fanned(log: Log, log': Log, todo: set<string>, todo': set<string>) {
    log' == log.(faulted := log'.faulted, last := if todo != {} && todo' == {} then log.published else log.last)
  }

  // Where the range loop over the subscribers is: those it has not finished with, and the one whose
  // Send is waiting.
  datatype Range = Range(todo: set<string>, at: Option<string>)

  function Inside(r: Range): Phase {
    FanningOut(r.todo, r.at)
  }

  // The loop is inside the fan-out as long as there are subscribers left to visit.
  function FanPhase(r: Range): Phase {
    if r.todo == {} then AtHead else Inside(r)
  }

  lemma CloseIsFaultless(s: State)
    requires Inv(s) && s.phase.AtHead?
    ensures Keyed(s.subs, s.members)
    ensures CloseStep(s) ==
            State(Closed(s.subs, s.members, {}), map[],
                  s.gate.(recv := false, broadcasting := false, closeHandled := true),
                  Respond(s.log, TopicClosed), AtHead)
  {
    forall id | 0 <= id < |s.subs| ensures !(IsMember(s, id) && CloseSub(s.subs[id]).failed) {
      assert SubOk(s, id);
    }
    assert CloseStep(s).subs == Closed(s.subs, s.members, {});
  }

  predicate Answered(log: Log, log': Log, answer: Response) {
    log' == Respond(log.(faulted := log'.faulted), answer)
  }

  // Message number -> lastMessage and haveReceived.
  function Remembered(published: nat): Option<nat> {
    if published == 0 then None else Some(published - 1)
  }

  // The `subscribers` map of broadcast_sync.go. `channels` lists every channel created, which is
  // what the consumers hold.
  class Registry {
    var subscribers: map<string, Subscriber>
    var channels: seq<Subscriber>

    ghost predicate Linked()
      reads this, channels
    {
      && (forall i :: 0 <= i < |channels| ==> channels[i].id == i)
      && (forall g :: g in subscribers ==>
            subscribers[g].id < |channels| && channels[subscribers[g].id] == subscribers[g])
    }

    ghost function Members(): map<string, nat>
      reads this
    {
      map g | g in subscribers :: subscribers[g].id
    }

    predicate Empty()
      reads this
      ensures Empty() <==> Members() == map[]
      ensures Empty() <==> subscribers == map[]
    {
      assert Members().Keys == subscribers.Keys;
      |subscribers| < 1
    }

    constructor ()
      ensures Linked() && channels == [] && subscribers == map[]
    {
      subscribers, channels := map[], [];
    }

    // A consumer receives from one of the channels.
    method ConsumerReceives(id: nat)
      requires Linked() && id < |channels|
      modifies channels
      ensures Linked() && Views(channels) == old(Views(channels)[id := Take(channels[id].View(), 1)])
    {
      ghost var v := Views(channels);
      channels[id].Consume(1);
      assert Views(channels) == v[id := channels[id].View()];
    }

    method SendTo(g: string, env: Env, m: nat) returns (err: Outcome, ghost c: Sub)
      requires Linked() && g in subscribers
      requires |subscribers[g].buffer| <= subscribers[g].cap && subscribers[g].Returns(env)
      modifies channels
      ensures Linked() && Views(channels) == old(Views(channels))[subscribers[g].id := c]
      ensures Send(old(Views(channels)[subscribers[g].id]), m, env) == Returned(c, err)
    {
      ghost var v := Views(channels);
      var sub := subscribers[g];
      err := sub.SendMessage(m, env);
      c := sub.View();
      assert Views(channels) == v[sub.id := c];
    }

    // A new subscriber gets the last message if a non-blocking send of it succeeds.
    method Create(id: nat, conf: Config, lastMessage: Option<nat>, ghost published: nat) returns (c: Subscriber)
      ensures fresh(c) && c.id == id
      ensures c.View() == Replay(NewSub(conf, published), if lastMessage.None? then 0 else lastMessage.value + 1)
    {
      c := new Subscriber(id, conf, published);
      if lastMessage.Some? && c.cap > 0 {
        c.PushMessage(lastMessage.value);
      }
    }

    method Add(c: Subscriber)
      requires Linked() && c.id == |channels|
      modifies this
      ensures Linked() && channels == old(channels) + [c] && subscribers == old(subscribers)[c.group := c]
      ensures Members() == old(Members())[c.group := c.id]
      ensures Views(channels) == old(Views(channels)) + [c.View()]
    {
      channels := channels + [c];
      subscribers := subscribers[c.group := c];
      assert channels[..|channels| - 1] == old(channels);
    }

    method Join(conf: Config, lastMessage: Option<nat>, ghost published: nat) returns (id: nat)
      requires Linked()
      modifies this
      ensures Linked() && id == old(|channels|)
      ensures |channels| == id + 1 && channels == old(channels) + [channels[id]] && fresh(channels[id])
      ensures Views(channels)
           == old(Views(channels))
              + [Replay(NewSub(conf, published), if lastMessage.None? then 0 else lastMessage.value + 1)]
      ensures Members() == old(Members())[conf.group := id]
    {
      id := |channels|;
      var c := Create(id, conf, lastMessage, published);
      Add(c);
      assert c.group == conf.group by { assert c.View().info.group == conf.group; }
    }

    // delete(subscribers, g)
    method Delete(g: string)
      requires Linked()
      modifies this`subscribers
      ensures Linked() && subscribers == old(subscribers) - {g}
      ensures Members() == old(Members()) - {g}
    {
      subscribers := subscribers - {g};
    }

    method CloseAt(id: nat) returns (failed: bool)
      requires Linked() && id < |channels|
      modifies channels
      ensures Linked()
      ensures var c := old(CloseSub(Views(channels)[id]));
        failed == c.failed && Views(channels) == old(Views(channels))[id := c.sub]
    {
      ghost var v := Views(channels);
      failed := channels[id].CloseChannel();
      assert Views(channels) == v[id := channels[id].View()];
    }

    method Remove(g: string) returns (failed: bool)
      requires Linked() && g in subscribers
      modifies this`subscribers, channels
      ensures Linked() && subscribers == old(subscribers) - {g}
      ensures Members() == old(Members()) - {g}
      ensures var c := old(CloseSub(Views(channels)[subscribers[g].id]));
        failed == c.failed && Views(channels) == old(Views(channels))[old(subscribers[g].id) := c.sub]
    {
      var sub := subscribers[g];
      Delete(g);
      failed := CloseAt(sub.id);
    }

    // Some of the members m of the channels v have been closed.
    ghost predicate PartlyClosed(v: seq<Sub>, m: map<string, nat>)
      reads this, channels
    {
      && Linked() && Keyed(v, m)
      && (forall g :: g in Members() ==> g in m && Members()[g] == m[g])
      && Views(channels) == Closed(v, m, Members().Keys)
    }

    method CloseOne(ghost v: seq<Sub>, ghost m: map<string, nat>)
      requires PartlyClosed(v, m) && subscribers != map[]
      modifies this`subscribers, channels
      ensures PartlyClosed(v, m) && subscribers.Keys < old(subscribers.Keys)
    {
      var g :| g in subscribers;
      ghost var left := Members().Keys;
      assert g in Members();
      CloseOneMore(v, m, left, g);
      var err := Remove(g);   // an error is ignored
      assert Members().Keys == left - {g};
      assert g !in subscribers.Keys;
    }

    // A close request closes the members' channels in whatever order the map is ranged over.
    method CloseAll()
      requires Linked() && Keyed(Views(channels), Members())
      modifies this`subscribers, channels
      ensures Linked() && subscribers == map[]
      ensures Views(channels) == old(Closed(Views(channels), Members(), {}))
    {
      ghost var v, m := Views(channels), Members();
      NoneClosed(v, m);
      while subscribers != map[]
        invariant PartlyClosed(v, m)
        decreases subscribers.Keys
      {
        CloseOne(v, m);
      }
      assert Members().Keys == {};
    }

    // The registry together with the loop's other variables, as a state of the step machine.
    ghost function View(gate: Gate, log: Log, phase: Phase): State
      reads this, channels
    {
      State(Views(channels), Members(), gate, log, phase)
    }

    method HandleUnsubscribe(group: string, ch: nat, gate: Gate, ghost log: Log)
      returns (gate': Gate, answer: Response, ghost log': Log)
      requires Linked() && WellFormed(View(gate, log, AtHead))
      modifies this`subscribers, channels
      ensures Linked() && Answered(log, log', answer)
      ensures View(gate', log', AtHead) == UnsubscribeStep(old(View(gate, log, AtHead)), group, ch)
    {
      gate', log' := gate, log;
      if group in subscribers {
        if subscribers[group].id != ch {
          return gate, WrongChannel, Respond(log, WrongChannel);
        }
        var err := Remove(group);
        if err {
          return gate, UnsubscribeFailed, Respond(log.(faulted := true), UnsubscribeFailed);
        }
      }
      answer, log' := Unsubscribed, Respond(log, Unsubscribed);
      if gate.aware && gate.broadcasting && Empty() {
        gate' := gate.(recv := false, broadcasting := false);
      }
    }

    method HandleSubscribe(conf: Config, lastMessage: Option<nat>, gate: Gate, ghost log: Log)
      returns (gate': Gate, answer: Response, ghost log': Log)
      requires Linked() && WellFormed(View(gate, log, AtHead))
      requires log.last == if lastMessage.None? then 0 else lastMessage.value + 1
      modifies this
      ensures Linked() && Answered(log, log', answer)
      ensures View(gate', log', AtHead) == SubscribeStep(old(View(gate, log, AtHead)), conf)
      ensures old(channels) <= channels && fresh(channels[|old(channels)|..])
    {
      gate' := gate;
      var id: nat;
      if conf.group in subscribers {
        id := subscribers[conf.group].id;
        if conf.errIfExists {
          return gate, AlreadyExists(id), Respond(log, AlreadyExists(id));
        }
      } else {
        id := Join(conf, lastMessage, log.published);
      }
      answer, log' := Subscribed(id), Respond(log, Subscribed(id));
      if gate.aware && !gate.broadcasting && !Empty() {
        gate' := gate.(recv := true, broadcasting := true);
      }
    }

    method HandleClose(gate: Gate, ghost log: Log) returns (gate': Gate, answer: Response, ghost log': Log)
      requires Linked() && Inv(View(gate, log, AtHead))
      modifies this`subscribers, channels
      ensures Linked() && Answered(log, log', answer)
      ensures View(gate', log', AtHead) == CloseStep(old(View(gate, log, AtHead)))
    {
      ghost var s := View(gate, log, AtHead);
      gate' := gate.(recv := false, broadcasting := false, closeHandled := true);
      CloseIsFaultless(s);
      CloseAll();
      answer, log' := TopicClosed, Respond(log, TopicClosed);
      assert Members() == map[];
    }

    // One handled request, one response.
    method Handle(l: Label, lastMessage: Option<nat>, gate: Gate, ghost log: Log)
      returns (gate': Gate, answer: Response, ghost log': Log)
      requires Linked() && Inv(View(gate, log, AtHead)) && IsRequest(l)
      requires log.last == if lastMessage.None? then 0 else lastMessage.value + 1
      modifies this, channels
      ensures Linked() && Answered(log, log', answer)
      ensures View(gate', log', AtHead) == Step(old(View(gate, log, AtHead)), l)
      ensures old(channels) <= channels && fresh(channels[|old(channels)|..])
    {
      match l
      case Subscribe(conf) => gate', answer, log' := HandleSubscribe(conf, lastMessage, gate, log);
      case Unsubscribe(group, ch) => gate', answer, log' := HandleUnsubscribe(group, ch, gate, log);
      case Close => gate', answer, log' := HandleClose(gate, log);
    }

    // The range loop of message m comes to the subscriber of group g, or still is there. If the Send
    // cannot return yet, the loop stays.
    method VisitOne(g: string, env: Env, m: nat, r: Range, ghost gate: Gate, ghost log: Log)
      returns (r': Range, ghost log': Log)
      requires Linked() && WellFormed(View(gate, log, Inside(r))) && log.published == m + 1
      requires g in r.todo && (r.at == None || r.at == Some(g))
      requires |subscribers[g].buffer| <= subscribers[g].cap
      modifies channels
      ensures Linked() && r'.todo <= r.todo && Fanned(log, log', r.todo, r'.todo)
      ensures View(gate, log', FanPhase(r')) == DeliverStep(old(View(gate, log, Inside(r))), g, env)
    {
      r', log' := Range(r.todo, Some(g)), log;
      assert g in Members();
      if subscribers[g].Returns(env) {
        ghost var s := View(gate, log, Inside(r));
        ghost var c;
        var err;
        err, c := SendTo(g, env, m);   // an error is ignored, the fan-out continues
        r' := Range(r.todo - {g}, None);
        log' := log.(faulted := log.faulted || Fault(err), last := if r'.todo == {} then m + 1 else log.last);
        assert View(gate, log', FanPhase(r')) == Visit(s, g, c, err);
      }
    }

    // What one label of the schedule does while the loop is inside the fan-out of message m.
    method FanStep(l: Label, m: nat, r: Range, ghost gate: Gate, ghost log: Log)
      returns (r': Range, ghost log': Log)
      requires Linked() && Bounded() && WellFormed(View(gate, log, Inside(r))) && log.published == m + 1
      requires r.todo <= subscribers.Keys
      modifies channels
      ensures Linked() && r'.todo <= r.todo && Fanned(log, log', r.todo, r'.todo)
      ensures View(gate, log', FanPhase(r')) == FanningStep(old(View(gate, log, Inside(r))), l)
    {
      r', log' := r, log;
      match l
      case Deliver(g, env) =>
        if g in r.todo && (r.at == None || r.at == Some(g)) {
          r', log' := VisitOne(g, env, m, r, gate, log);
        }
      case Consume(id) => if id < |channels| { ConsumerReceives(id); }
      case _ =>   // not enabled
    }

    // No buffer holds more than its channel's capacity.
    ghost predicate Bounded()
      reads this, subscribers.Values
    {
      forall g :: g in subscribers ==> |subscribers[g].buffer| <= subscribers[g].cap
    }

    lemma InvBounds(s: State)
      requires Linked() && Inv(s) && s.subs == Views(channels) && s.members == Members()
      ensures Bounded()
    {
      forall g | g in subscribers ensures |subscribers[g].buffer| <= subscribers[g].cap {
        assert g in s.members;
        assert SubOk(s, subscribers[g].id);
        assert s.subs[subscribers[g].id] == subscribers[g].View();
      }
    }

    lemma Prepare(r: Range, gate: Gate, log: Log, schedule: seq<Label>, n: nat, aware: bool, trace: seq<State>)
      requires Linked() && r.todo != {} && n < |schedule| && IsTrace(trace, aware, schedule)
      requires View(gate, log, Inside(r)) == trace[n]
      ensures Bounded() && r.todo <= subscribers.Keys && WellFormed(View(gate, log, Inside(r)))
      ensures FanningStep(View(gate, log, Inside(r)), schedule[n]) == trace[n + 1]
    {
      var s := View(gate, log, Inside(r));
      Advance(trace, aware, schedule, n);
      InvBounds(s);
      assert Members().Keys == subscribers.Keys;
    }

    method FanTurn(
      m: nat, r: Range, schedule: seq<Label>, n: nat,
      ghost gate: Gate, ghost log: Log, ghost aware: bool, ghost trace: seq<State>)
      returns (r': Range, ghost log': Log)
      requires Linked() && r.todo != {} && n < |schedule| && log.published == m + 1
      requires IsTrace(trace, aware, schedule) && View(gate, log, Inside(r)) == trace[n]
      modifies channels
      ensures Linked() && r'.todo <= r.todo && Fanned(log, log', r.todo, r'.todo)
      ensures View(gate, log', FanPhase(r')) == trace[n + 1]
    {
      Prepare(r, gate, log, schedule, n, aware, trace);
      r', log' := FanStep(schedule[n], m, r, gate, log);
    }

    // The fan-out of message m: the schedule decides the order of the subscribers and what the
    // consumers do in between. A Send that waits holds the loop. It ends when every subscriber has
    // been visited.
    method FanOut(
      m: nat, schedule: seq<Label>, start: nat,
      ghost gate: Gate, ghost log: Log, ghost aware: bool, ghost trace: seq<State>)
      returns (next: nat, r: Range, ghost log': Log)
      requires Linked() && log.published == m + 1 && IsTrace(trace, aware, schedule)
      requires start <= |schedule| && View(gate, log, FanPhase(Range(subscribers.Keys, None))) == trace[start]
      modifies channels
      ensures Linked() && start <= next <= |schedule| && Fanned(log, log', subscribers.Keys, r.todo)
      ensures View(gate, log', FanPhase(r)) == trace[next]
      ensures r.todo == {} || next == |schedule|
    {
      next, r, log' := start, Range(subscribers.Keys, None), log;
      while r.todo != {} && next < |schedule|
        invariant r.todo <= subscribers.Keys
        invariant Linked() && start <= next <= |schedule| && Fanned(log, log', subscribers.Keys, r.todo)
        invariant View(gate, log', FanPhase(r)) == trace[next]
        decreases |schedule| - next
      {
        r, log' := FanTurn(m, r, schedule, next, gate, log', aware, trace);
        next := next + 1;
      }
    }
  }

  // The request case of the select: one handled request, one response.
  method HandleRequest(
    reg: Registry, l: Label, lastMessage: Option<nat>, n: nat, schedule: seq<Label>, gate: Gate,
    ghost log: Log, ghost aware: bool, ghost trace: seq<State>)
    returns (gate': Gate, answer: Response, ghost log': Log)
    requires reg.Linked() && IsTrace(trace, aware, schedule) && n < |schedule| && l == schedule[n] && IsRequest(l)
    requires reg.View(gate, log, AtHead) == trace[n] && lastMessage == Remembered(log.last)
    modifies reg, reg.channels
    ensures reg.Linked() && reg.View(gate', log', AtHead) == trace[n + 1] && Answered(log, log', answer)
    ensures old(reg.channels) <= reg.channels && fresh(reg.channels[|old(reg.channels)|..])
  {
    Advance(trace, aware, schedule, n);
    gate', answer, log' := reg.Handle(l, lastMessage, gate, log);
  }

  // A message arrives on the publish channel and is fanned out.
  method HandleMessage(
    reg: Registry, m: nat, n: nat, schedule: seq<Label>, gate: Gate,
    ghost log: Log, ghost aware: bool, ghost trace: seq<State>)
    returns (next: nat, r: Range, ghost log': Log)
    requires reg.Linked() && IsTrace(trace, aware, schedule) && n < |schedule| && schedule[n] == Publish
    requires gate.recv && log.published == m && reg.View(gate, log, AtHead) == trace[n]
    modifies reg.channels
    ensures reg.Linked() && n < next <= |schedule| && reg.View(gate, log', FanPhase(r)) == trace[next]
    ensures r.todo == {} || next == |schedule|
    ensures log'.answered == log.answered && log'.answer == log.answer && log'.published == m + 1
    ensures r.todo == {} ==> log'.last == m + 1
  {
    Advance(trace, aware, schedule, n);
    assert reg.Members().Keys == reg.subscribers.Keys;
    ghost var log1 := log.(published := m + 1, last := if reg.subscribers.Keys == {} then m + 1 else log.last);
    assert reg.View(gate, log1, FanPhase(Range(reg.subscribers.Keys, None))) == PublishStep(trace[n]);
    next, r, log' := reg.FanOut(m, schedule, n + 1, gate, log1, aware, trace);
  }

  // The loop's local variables (recv and broadcasting are in the gate).
  datatype Locals = Locals(
    gate: Gate, lastMessage: Option<nat>, published: nat, responses: seq<Response>, returned: bool)

  ghost predicate Describes(v: Locals, log: Log, phase: Phase) {
    && |v.responses| == log.answered && (v.responses != [] ==> Last(v.responses) == log.answer)
    && v.published == log.published && v.returned == phase.Finished?
    && (!phase.FanningOut? ==> log.last == v.published && v.lastMessage == Remembered(v.published))
  }

  // One turn of the loop.
  method Turn(
    reg: Registry, v: Locals, n: nat, schedule: seq<Label>,
    ghost log: Log, ghost aware: bool, ghost trace: seq<State>)
    returns (v': Locals, n': nat, ghost log': Log, ghost phase': Phase)
    requires reg.Linked() && IsTrace(trace, aware, schedule) && n < |schedule|
    requires !v.returned && Describes(v, log, AtHead) && reg.View(v.gate, log, AtHead) == trace[n]
    modifies reg, reg.channels
    ensures reg.Linked() && n < n' <= |schedule|
    ensures Describes(v', log', phase') && reg.View(v'.gate, log', phase') == trace[n']
    ensures phase'.FanningOut? ==> n' == |schedule|
    ensures old(reg.channels) <= reg.channels && fresh(reg.channels[|old(reg.channels)|..])
  {
    v', n', log', phase' := v, n + 1, log, AtHead;
    var l := schedule[n];
    if l == Publish && v.gate.recv {
      var r;
      n', r, log' := HandleMessage(reg, v.published, n, schedule, v.gate, log, aware, trace);
      phase' := FanPhase(r);
      v' := v.(published := v.published + 1,
               lastMessage := if r.todo == {} then Some(v.published) else v.lastMessage);
    } else if IsRequest(l) {
      var gate, answer;
      gate, answer, log' := HandleRequest(reg, l, v.lastMessage, n, schedule, v.gate, log, aware, trace);
      v' := v.(gate := gate, responses := v.responses + [answer]);
    } else {
      Advance(trace, aware, schedule, n);
      if l.Consume? && l.id < |reg.channels| {
        reg.ConsumerReceives(l.id);
      } else if l == Disconnect {
        v', phase' := v.(returned := true), Finished;
      }
    }
  }

  // The loop, for a schedule of everything that happens to it and to its consumers. It processes
  // the schedule up to n: all of it, unless a closed channel ends the loop.
  method Run(aware: bool, schedule: seq<Label>)
    returns (reg: Registry, n: nat, v: Locals, ghost s: State)
    ensures fresh(reg) && reg.Linked() && n <= |schedule|
    ensures s == Exec(aware, schedule[..n]) && (n < |schedule| ==> s.phase == Finished)
    ensures s == reg.View(v.gate, s.log, s.phase) && Describes(v, s.log, s.phase)
  {
    reg := new Registry();
    n, v := 0, Locals(Gate(aware, !aware, !aware, false), None, 0, [], false);
    ghost var trace := States(aware, schedule);
    ghost var log, phase := Log(0, 0, 0, NoneYet, false), AtHead;
    while n < |schedule| && !v.returned
      invariant n <= |schedule| && IsTrace(trace, aware, schedule)
      invariant reg.Linked() && fresh(reg) && fresh(reg.channels)
      invariant Describes(v, log, phase) && reg.View(v.gate, log, phase) == trace[n]
      invariant phase.FanningOut? ==> n == |schedule|
      decreases |schedule| - n
    {
      ghost var before := reg.channels;
      v, n, log, phase := Turn(reg, v, n, schedule, log, aware, trace);
      AllNew(before, reg.channels);
    }
    s := trace[n];
  }
}

// The broadcaster protocol (intracom/broadcast_sync.go) as a step machine.
//
// A run is a finite sequence of labels. Each label is one atomic step of the broadcaster or of a
// consumer; a label that is not enabled changes nothing, so every sequence is a run and every
// finite prefix of every interleaving is covered, also runs that stop inside a fan-out because a
// blocking policy is still waiting. Channels are identified by the order of their creation.
//
// The fan-out ranges over the subscribers in an order that the labels choose. A Send that waits
// holds it at its subscriber: nobody else is visited before that Send has returned. (It is tried
// again as a whole; what its selects do together is one label that does not wait first.)
module Broadcast {
  import opened Orders
  import opened Policies
  import opened Wrappers

  datatype Label =
    | Consume(id: nat)                          // a consumer receives one message from channel id
    | Publish                                       // the loop receives a message from the publish channel
    | Deliver(group: string, env: Env)          // the fan-out comes to, or still is at, a subscriber
    | Subscribe(conf: Config)
    | Unsubscribe(group: string, ch: nat)
    | Close
    | UnknownRequest
    | Disconnect                                // a closed publish or request channel ends the loop

  datatype Response =
    | Subscribed(id: nat) | AlreadyExists(id: nat)
    | Unsubscribed | WrongChannel | UnsubscribeFailed
    | TopicClosed
    | NoneYet

  // at: the subscriber whose Send is waiting.
  datatype Phase = AtHead | FanningOut(todo: set<string>, at: Option<string>) | Finished

  // recv: the publish channel is selectable (a nil channel blocks for ever).
  datatype Gate = Gate(aware: bool, recv: bool, broadcasting: bool, closeHandled: bool)

  // `published` counts the messages taken from the publish channel and `last` those completely
  // broadcast: haveReceived is last > 0 and lastMessage is message last - 1. `answered` counts
  // the responses and `answer` is the latest. `faulted` records a Send or Close that reported a
  // closed subscriber, or a panic on a closed channel.
  datatype Log = Log(published: nat, last: nat, answered: nat, answer: Response, faulted: bool)

  datatype State = State(subs: seq<Sub>, members: map<string, nat>, gate: Gate, log: Log, phase: Phase)

  ghost predicate WellFormed(s: State) {
    && (forall g :: g in s.members ==> s.members[g] < |s.subs|)
    && (s.phase.FanningOut? ==> s.phase.todo <= s.members.Keys && s.phase.todo != {} && s.log.published > 0)
    && (s.phase.FanningOut? && s.phase.at.Some? ==> s.phase.at.value in s.phase.todo)
  }

  function Init(aware: bool): (s: State)
    ensures WellFormed(s)
  {
    State([], map[], Gate(aware, !aware, !aware, false), Log(0, 0, 0, NoneYet, false), AtHead)
  }

  function IsMember(s: State, id: nat): bool
    requires id < |s.subs|
  {
    s.subs[id].info.group in s.members && s.members[s.subs[id].info.group] == id
  }

  // The end of the fan-out, once no subscriber is left to visit.
  function Settle(s: State, todo: set<string>): State {
    if todo == {} then s.(phase := AtHead, log := s.log.(last := s.log.published))
    else s.(phase := FanningOut(todo, None))
  }

  function PublishStep(s: State): (r: State)
    requires WellFormed(s)
    ensures WellFormed(r)
  {
    if s.phase.AtHead? && s.gate.recv then
      Settle(s.(log := s.log.(published := s.log.published + 1)), s.members.Keys)
    else s
  }

  predicate Fault(o: Outcome) {
    o == SubscriberStopped || o == AlreadyClosed || o == SendOnClosed
  }

  // The subscriber of group g has been visited and is now c.
  function Visit(s: State, g: string, c: Sub, o: Outcome): (r: State)
    requires WellFormed(s) && s.phase.FanningOut? && g in s.phase.todo
    ensures WellFormed(r)
  {
    Settle(s.(subs := s.subs[s.members[g] := c], log := s.log.(faulted := s.log.faulted || Fault(o))),
           s.phase.todo - {g})
  }

  // Whether the fan-out can be at the subscriber of group g next.
  predicate CanVisit(s: State, g: string) {
    s.phase.FanningOut? && g in s.phase.todo && (s.phase.at == None || s.phase.at == Some(g))
  }

  function DeliverStep(s: State, g: string, env: Env): (r: State)
    requires WellFormed(s)
    ensures WellFormed(r)
  {
    if !CanVisit(s, g) then s
    else
      match Send(s.subs[s.members[g]], s.log.published - 1, env)
      case Waiting => s.(phase := FanningOut(s.phase.todo, Some(g)))
      case Returned(c, o) => Visit(s, g, c, o)
  }

  // A new subscriber gets the last message if a non-blocking send of it succeeds.
  function Replay(c: Sub, last: nat): Sub {
    if last > 0 && c.info.cap > 0 then c.(content := c.content + [last - 1]) else c
  }

  function OpenGate(gate: Gate, members: map<string, nat>): Gate {
    if gate.aware && !gate.broadcasting && members != map[] then gate.(recv := true, broadcasting := true) else gate
  }

  function ShutGate(gate: Gate, members: map<string, nat>): Gate {
    if gate.aware && gate.broadcasting && members == map[] then gate.(recv := false, broadcasting := false) else gate
  }

  function Respond(log: Log, r: Response): Log {
    log.(answered := log.answered + 1, answer := r)
  }

  function SubscribeStep(s: State, conf: Config): (r: State)
    requires WellFormed(s)
    ensures WellFormed(r)
  {
    if !s.phase.AtHead? then s
    else if conf.group in s.members then
      var id := s.members[conf.group];
      if conf.errIfExists then s.(log := Respond(s.log, AlreadyExists(id)))
      else s.(log := Respond(s.log, Subscribed(id)), gate := OpenGate(s.gate, s.members))
    else
      var members := s.members[conf.group := |s.subs|];
      State(s.subs + [Replay(NewSub(conf, s.log.published), s.log.last)], members,
            OpenGate(s.gate, members), Respond(s.log, Subscribed(|s.subs|)), s.phase)
  }

  function Remove(s: State, group: string, ch: nat, c: Closing): (r: State)
    requires WellFormed(s) && s.phase.AtHead? && ch < |s.subs|
    ensures WellFormed(r)
  {
    var members := s.members - {group};
    if c.failed then
      State(s.subs[ch := c.sub], members, s.gate, Respond(s.log.(faulted := true), UnsubscribeFailed), s.phase)
    else
      State(s.subs[ch := c.sub], members, ShutGate(s.gate, members), Respond(s.log, Unsubscribed), s.phase)
  }

  function UnsubscribeStep(s: State, group: string, ch: nat): (r: State)
    requires WellFormed(s)
    ensures WellFormed(r)
  {
    if !s.phase.AtHead? then s
    else if group !in s.members then
      s.(log := Respond(s.log, Unsubscribed), gate := ShutGate(s.gate, s.members))
    else if s.members[group] != ch then s.(log := Respond(s.log, WrongChannel))
    else Remove(s, group, ch, CloseSub(s.subs[ch]))
  }

  function CloseStep(s: State): (r: State)
    requires WellFormed(s)
    ensures WellFormed(r)
  {
    if !s.phase.AtHead? then s
    else
      var fault := exists id | 0 <= id < |s.subs| :: IsMember(s, id) && CloseSub(s.subs[id]).failed;
      State(seq(|s.subs|, id requires 0 <= id < |s.subs| =>
              if IsMember(s, id) then CloseSub(s.subs[id]).sub else s.subs[id]),
            map[],
            s.gate.(recv := false, broadcasting := false, closeHandled := true),
            Respond(s.log.(faulted := s.log.faulted || fault), TopicClosed),
            s.phase)
  }

  function ConsumeStep(s: State, id: nat): (r: State)
    requires WellFormed(s)
    ensures WellFormed(r)
  {
    if id < |s.subs| then s.(subs := s.subs[id := Take(s.subs[id], 1)]) else s
  }

  predicate IsRequest(l: Label) {
    l.Subscribe? || l.Unsubscribe? || l.Close?
  }

  function Step(s: State, l: Label): (r: State)
    requires WellFormed(s)
    ensures WellFormed(r)
  {
    match l
    case Consume(id) => ConsumeStep(s, id)
    case Publish => PublishStep(s)
    case Deliver(g, env) => DeliverStep(s, g, env)
    case Subscribe(conf) => SubscribeStep(s, conf)
    case Unsubscribe(group, ch) => UnsubscribeStep(s, group, ch)
    case Close => CloseStep(s)
    case UnknownRequest => s
    case Disconnect => if s.phase.AtHead? then s.(phase := Finished) else s
  }

  // The state after a run, and the same for a run that is not empty.
  function Exec(aware: bool, run: seq<Label>): (s: State)
    ensures WellFormed(s)
    decreases |run|, 1
  {
    if run == [] then Init(aware) else ExecLast(aware, run)
  }

  function ExecLast(aware: bool, run: seq<Label>): (s: State)
    requires run != []
    ensures WellFormed(s)
    decreases |run|, 0
  {
    Step(Exec(aware, run[..|run| - 1]), Last(run))
  }

  // ------------------------------------------------------------------------------ the invariant

  // A member whose turn in the current fan-out is still to come.
  ghost predicate Awaiting(s: State, id: nat)
    requires id < |s.subs|
  {
    s.phase.FanningOut? && s.subs[id].info.group in s.phase.todo
  }

  ghost predicate SubOk(s: State, id: nat)
    requires id < |s.subs|
  {
    var c := s.subs[id];
    && SubInv(c)
    && (Open(c) <==> IsMember(s, id))
    && c.seen <= s.log.published
    && (Open(c) ==> c.seen == if Awaiting(s, id) then s.log.published - 1 else s.log.published)
  }

  ghost predicate SubsOk(s: State) {
    forall id :: 0 <= id < |s.subs| ==> SubOk(s, id)
  }

  ghost predicate Named(s: State)
    requires WellFormed(s)
  {
    forall g :: g in s.members ==> s.subs[s.members[g]].info.group == g
  }

  ghost predicate Gated(s: State) {
    && s.gate.recv == s.gate.broadcasting
    && (s.gate.recv <==> if s.gate.aware then s.members != map[] else !s.gate.closeHandled)
  }

  ghost predicate Counted(s: State) {
    s.log.published == if s.phase.FanningOut? then s.log.last + 1 else s.log.last
  }

  ghost predicate Inv(s: State) {
    WellFormed(s) && Named(s) && SubsOk(s) && Gated(s) && Counted(s) && !s.log.faulted
  }

  lemma PublishKeepsInv(s: State)
    requires Inv(s)
    ensures Inv(PublishStep(s))
  {
    var r := PublishStep(s);
    forall id | 0 <= id < |r.subs| ensures SubOk(r, id) {
      assert SubOk(s, id);
    }
  }

  // A step that leaves a subscriber, its membership and its place in the fan-out alone.
  lemma Untouched(s: State, r: State, id: nat)
    requires id < |s.subs| && id < |r.subs| && SubOk(s, id)
    requires r.subs[id] == s.subs[id] && r.log.published == s.log.published
    requires IsMember(r, id) == IsMember(s, id) && (Open(s.subs[id]) ==> Awaiting(r, id) == Awaiting(s, id))
    ensures SubOk(r, id)
  {
  }

  lemma VisitKeepsSub(s: State, g: string, c: Sub, o: Outcome, i: nat)
    requires Inv(s) && s.phase.FanningOut? && g in s.phase.todo && i < |s.subs|
    requires SubInv(c) && Open(c) && c.info.group == g && c.seen == s.log.published
    ensures SubOk(Visit(s, g, c, o), i)
  {
    var r := Visit(s, g, c, o);
    assert SubOk(s, i);
    if i == s.members[g] {
      assert IsMember(r, i) && !Awaiting(r, i);
    } else {
      assert Open(s.subs[i]) ==> s.subs[i].info.group != g;
      var h := s.subs[i].info.group;
      assert h != g ==> (h in s.phase.todo <==> h in s.phase.todo - {g});
      Untouched(s, r, i);
    }
  }

  lemma VisitKeepsInv(s: State, g: string, c: Sub, o: Outcome)
    requires Inv(s) && s.phase.FanningOut? && g in s.phase.todo
    requires SubInv(c) && Open(c) && c.info.group == g && c.seen == s.log.published
    requires !Fault(o)
    ensures Inv(Visit(s, g, c, o))
  {
    var r := Visit(s, g, c, o);
    forall i | 0 <= i < |r.subs| ensures SubOk(r, i) {
      VisitKeepsSub(s, g, c, o, i);
    }
  }

  lemma WaitKeepsInv(s: State, g: string)
    requires Inv(s) && CanVisit(s, g)
    ensures Inv(s.(phase := FanningOut(s.phase.todo, Some(g))))
  {
    var r := s.(phase := FanningOut(s.phase.todo, Some(g)));
    forall i | 0 <= i < |r.subs| ensures SubOk(r, i) {
      assert SubOk(s, i);
      Untouched(s, r, i);
    }
  }

  lemma DeliverKeepsInv(s: State, g: string, env: Env)
    requires Inv(s)
    ensures Inv(DeliverStep(s, g, env))
  {
    if CanVisit(s, g) {
      var id := s.members[g];
      assert SubOk(s, id);
      var sent := Send(s.subs[id], s.log.published - 1, env);
      if sent.Returned? {
        SendKeepsOrder(s.subs[id], env);
        SendKeeps(s.subs[id], env);
        VisitKeepsInv(s, g, sent.sub, sent.outcome);
      } else {
        WaitKeepsInv(s, g);
      }
    }
  }

  lemma ReplayKeepsInv(conf: Config, published: nat)
    ensures SubInv(Replay(NewSub(conf, published), published)) && Open(Replay(NewSub(conf, published), published))
  {
    var c := Replay(NewSub(conf, published), published);
    assert c.content == Replayed(c);
    assert Range(c.info.joined, c.seen) == [];
    assert c.content == Replayed(c) + Range(c.info.joined, c.seen);
    assert Ordered(c) && Lossless(c);
  }

  lemma JoinKeepsInv(s: State, conf: Config)
    requires Inv(s) && s.phase.AtHead? && conf.group !in s.members
    ensures Inv(SubscribeStep(s, conf))
  {
    var r := SubscribeStep(s, conf);
    ReplayKeepsInv(conf, s.log.last);
    assert conf.group in r.members;
    forall i | 0 <= i < |r.subs| ensures SubOk(r, i) {
      if i < |s.subs| {
        assert SubOk(s, i);
        Untouched(s, r, i);
      }
    }
  }

  lemma SubscribeKeepsInv(s: State, conf: Config)
    requires Inv(s)
    ensures Inv(SubscribeStep(s, conf))
  {
    if s.phase.AtHead? && conf.group !in s.members {
      JoinKeepsInv(s, conf);
    } else {
      var r := SubscribeStep(s, conf);
      forall i | 0 <= i < |r.subs| ensures SubOk(r, i) {
        assert SubOk(s, i);
      }
    }
  }

  lemma CloseSubKeeps(c: Sub)
    requires SubInv(c) && Open(c)
    ensures var r := CloseSub(c); !r.failed && SubInv(r.sub) && !Open(r.sub) && r.sub.flags.closes == 1
  {
    assert CloseSub(c).sub.content == c.content;
  }

  lemma UnsubscribeKeepsInv(s: State, group: string, ch: nat)
    requires Inv(s)
    ensures Inv(UnsubscribeStep(s, group, ch))
  {
    var r := UnsubscribeStep(s, group, ch);
    if s.phase.AtHead? && group in s.members && s.members[group] == ch {
      assert SubOk(s, ch);
      CloseSubKeeps(s.subs[ch]);
      assert r.log.published == s.log.published && r.subs == s.subs[ch := CloseSub(s.subs[ch]).sub];
      assert r.members == s.members - {group};
      forall i | 0 <= i < |r.subs| ensures SubOk(r, i) {
        assert SubOk(s, i);
        if i != ch { Untouched(s, r, i); }
      }
    } else {
      forall i | 0 <= i < |r.subs| ensures SubOk(r, i) {
        assert SubOk(s, i);
        Untouched(s, r, i);
      }
    }
  }

  lemma CloseKeepsInv(s: State)
    requires Inv(s)
    ensures Inv(CloseStep(s))
  {
    var r := CloseStep(s);
    forall i | 0 <= i < |r.subs| ensures SubOk(r, i) {
      assert SubOk(s, i);
      if Open(s.subs[i]) { CloseSubKeeps(s.subs[i]); }
    }
    forall i | 0 <= i < |s.subs| && IsMember(s, i) ensures !s.subs[i].flags.closed {
      assert SubOk(s, i);
    }
  }

  lemma ConsumeKeepsInv(s: State, id: nat)
    requires Inv(s) && id < |s.subs|
    ensures Inv(ConsumeStep(s, id))
  {
    var r := ConsumeStep(s, id);
    assert SubOk(s, id);
    TakeKeeps(s.subs[id], 1);
    forall i | 0 <= i < |r.subs| ensures SubOk(r, i) {
      assert SubOk(s, i);
    }
  }

  lemma StepKeepsInv(s: State, l: Label)
    requires Inv(s)
    ensures Inv(Step(s, l))
  {
    match l
    case Consume(id) => if id < |s.subs| { ConsumeKeepsInv(s, id); }
    case Publish => PublishKeepsInv(s);
    case Deliver(g, env) => DeliverKeepsInv(s, g, env);
    case Subscribe(conf) => SubscribeKeepsInv(s, conf);
    case Unsubscribe(group, ch) => UnsubscribeKeepsInv(s, group, ch);
    case Close => CloseKeepsInv(s);
    case UnknownRequest =>
    case Disconnect =>
      var r := Step(s, l);
      forall i | 0 <= i < |r.subs| ensures SubOk(r, i) {
        assert SubOk(s, i);
      }
  }

  lemma {:induction false} Reachable(aware: bool, run: seq<Label>)
    ensures Inv(Exec(aware, run))
  {
    if run != [] {
      Reachable(aware, run[..|run| - 1]);
      StepKeepsInv(Exec(aware, run[..|run| - 1]), Last(run));
    }
  }
}

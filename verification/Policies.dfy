// The subscriber and its buffer policies (intracom/subscriber.go, intracom/buffer_policy.go).
//
// A message is represented by its publish number: the position it has in the topic's history.
// A subscriber value holds the numbers its consumer has received followed by those still waiting
// in the channel buffer, and the flags that the Go code keeps.
module Policies {
  import opened Orders

  // Unset is a nil BufferPolicy, for which newSubscriber picks DropNone.
  datatype Policy = Unset | DropNone | DropOldest | DropNewest | DropNewestAfterTimeout

  datatype Config = Config(group: string, errIfExists: bool, cap: nat, policy: Policy)

  // `joined` is the length of the history when the subscriber was created; like `seen` below it is
  // bookkeeping that the Go code does not store.
  datatype Info = Info(group: string, policy: Policy, cap: nat, joined: nat)

  // `closes` counts the executions of close(ch).
  datatype Flags = Flags(closed: bool, stopped: bool, closes: nat)

  // `seen` is the length of the history that the subscriber has been offered.
  datatype RawSub = RawSub(info: Info, content: seq<nat>, taken: nat, flags: Flags, seen: nat)
  {
    function Received(): seq<nat>
      requires taken <= |content|
    {
      content[..taken]
    }

    function Pending(): seq<nat>
      requires taken <= |content|
    {
      content[taken..]
    }
  }

  type Sub = c: RawSub | c.taken <= |c.content|
    witness RawSub(Info("", DropNone, 0, 0), [], 0, Flags(false, false, 0), 0)

  // What the scheduler decides during one Handle call.
  // parked/parkedAgain: a consumer is blocked receiving at the first/second send attempt (this is
  // what makes a send on an unbuffered channel ready); between: how many messages the consumer
  // takes between the two selects; elapsed: the timer wins the second select; stopFirst: the
  // stop case wins whenever it is ready.
  datatype Env = Env(parked: bool, between: nat, parkedAgain: bool, elapsed: bool, stopFirst: bool)

  datatype Outcome = Sent | Dropped | BufferFull | SubscriberStopped | AlreadyClosed | SendOnClosed

  // Waiting: the blocking select has no ready case under this schedule, so Handle has not returned.
  datatype Sending = Waiting | Returned(sub: Sub, outcome: Outcome)

  // d is c later on: the same channel, with nothing unreceived and nothing reopened.
  ghost predicate SameChannel(c: Sub, d: Sub) {
    && d.info == c.info
    && c.taken <= d.taken && (forall i :: 0 <= i < c.taken ==> d.content[i] == c.content[i])
    && (d.flags.closes == 0 ==> c.flags.closes == 0)
  }

  function NewSub(conf: Config, published: nat): Sub {
    RawSub(Info(conf.group, if conf.policy == Unset then DropNone else conf.policy, conf.cap, published),
        [], 0, Flags(false, false, 0), published)
  }

  // The consumer receives k messages, or all that are waiting if there are fewer.
  function Take(c: Sub, k: nat): Sub {
    c.(taken := if c.taken + k <= |c.content| then c.taken + k else |c.content|)
  }

  predicate Room(c: Sub, parked: bool) {
    |c.content| - c.taken < c.info.cap || (c.info.cap == 0 && parked)
  }

  // A completed channel send: into the buffer, or straight to the parked consumer.
  function Push(c: Sub, m: nat): Sub {
    c.(content := c.content + [m], taken := if c.info.cap == 0 then |c.content| + 1 else c.taken)
  }

  function Pop(c: Sub): Sub {
    if c.taken == |c.content| then c else c.(content := c.content[..c.taken] + c.content[c.taken + 1..])
  }

  // One attempt to send on an open channel.
  function Offer(c: Sub, m: nat, parked: bool): Sending {
    if Room(c, parked) then Returned(Push(c, m), Sent) else Waiting
  }

  // Handle on a subscriber whose stop channel is closed. Its channel is closed too, so the send
  // case is ready as well and panics if the select picks it; DropOldest may pop first.
  function HandleStopped(c: Sub, env: Env): Sending {
    if env.stopFirst then Returned(c, SubscriberStopped)
    else
      var c2 := if c.info.policy == DropOldest then Take(Pop(c), env.between) else c;
      Returned(c2, if c.info.policy == DropOldest && env.elapsed then SubscriberStopped else SendOnClosed)
  }

  function Handle(c: Sub, m: nat, env: Env): Sending {
    if c.flags.stopped then HandleStopped(c, env)
    else
      match c.info.policy
      case Unset => Offer(c, m, env.parked)
      case DropNone => Offer(c, m, env.parked)
      case DropNewest =>
        if Room(c, env.parked) then Returned(Push(c, m), Sent) else Returned(c, Dropped)
      case DropOldest =>
        var c2 := Take(Pop(c), env.between);
        if Room(c2, env.parkedAgain) then Returned(Push(c2, m), Sent) else Returned(c2, BufferFull)
      case DropNewestAfterTimeout =>
        if Room(c, env.parked) then Returned(Push(c, m), Sent)
        else
          var c2 := Take(c, env.between);
          if env.elapsed then Returned(c2, Dropped) else Offer(c2, m, env.parkedAgain)
  }

  // subscriber.Send of the m-th message; `seen` advances when the call returns.
  function Send(c: Sub, m: nat, env: Env): Sending {
    if c.flags.closed then Returned(c.(seen := m + 1), AlreadyClosed)
    else
      match Handle(c, m, env)
      case Waiting => Waiting
      case Returned(c', o) => Returned(c'.(seen := m + 1), o)
  }

  datatype Closing = Closing(sub: Sub, failed: bool)

  function CloseSub(c: Sub): Closing {
    if c.flags.closed then Closing(c, true)
    else Closing(c.(flags := Flags(true, true, c.flags.closes + 1)), false)
  }

  // ---------------------------------------------------------------- what every subscriber keeps

  predicate Open(c: Sub) {
    !c.flags.closed && !c.flags.stopped && c.flags.closes == 0
  }

  // The message replayed to a new subscriber: the last one published, if the buffer can hold it.
  function Replayed(c: Sub): seq<nat> {
    if c.info.cap > 0 && c.info.joined > 0 then [c.info.joined - 1] else []
  }

  ghost predicate Ordered(c: Sub) {
    && c.info.joined <= c.seen
    && |c.content| - c.taken <= c.info.cap
    && Within(c.content, c.info.joined, c.seen)
  }

  ghost predicate Lossless(c: Sub) {
    c.info.joined <= c.seen && c.content == Replayed(c) + Range(c.info.joined, c.seen)
  }

  ghost predicate Fresh(c: Sub) {
    && |c.content| - c.taken <= 1
    && (c.seen > 0 ==> c.content != [] && Last(c.content) == c.seen - 1)
  }

  ghost predicate SubInv(c: Sub) {
    && c.info.policy != Unset
    && Ordered(c)
    && (c.info.policy == DropNone ==> Lossless(c))
    && (c.info.policy == DropOldest && c.info.cap > 0 ==> Fresh(c))
    && (Open(c) || (c.flags.closed && c.flags.stopped && c.flags.closes == 1))
  }

  lemma TakeKeeps(c: Sub, k: nat)
    ensures Take(c, k).content == c.content
    ensures SubInv(c) ==> SubInv(Take(c, k))
  {
  }

  // What is sent is newer than everything in the channel, so the order survives.
  lemma PushKeepsOrder(c: Sub, parked: bool)
    requires Ordered(c) && Room(c, parked)
    ensures Push(c, c.seen).content == c.content + [c.seen]
    ensures Ordered(Push(c, c.seen).(seen := c.seen + 1))
  {
  }

  // Popping removes exactly the oldest message that has not been received.
  lemma PopKeepsOrder(c: Sub)
    requires Ordered(c)
    ensures Ordered(Pop(c))
    ensures c.taken < |c.content| ==> Pop(c).content == c.content[..c.taken] + c.content[c.taken + 1..]
  {
    if c.taken < |c.content| {
      WithinDelete(c.content, c.taken, c.info.joined, c.seen);
    }
  }

  // What one Send does to the channel's content, policy by policy. Nothing but DropOldest ever
  // removes a message; the others lose at most the message being sent, and only with no room.
  // On a buffered channel DropOldest loses at most the head of the buffer and never the message.
  ghost predicate SendEffect(c: Sub, m: nat, r: Sub, o: Outcome) {
    && (c.info.policy == DropNone ==> o == Sent && r.content == c.content + [m])
    && (c.info.policy == DropNewest || c.info.policy == DropNewestAfterTimeout ==>
          || (o == Sent && r.content == c.content + [m])
          || (o == Dropped && r.content == c.content && |c.content| - c.taken == c.info.cap))
    && (c.info.policy == DropOldest && c.info.cap > 0 ==>
          && o == Sent && r.content == Pop(c).content + [m]
          && |r.content| - r.taken <= |Pop(c).content| - Pop(c).taken + 1)
    && (c.info.policy == DropOldest && c.info.cap == 0 ==>
          || (o == Sent && r.content == c.content + [m])
          || (o == BufferFull && r.content == c.content))
  }

  ghost predicate Sends(c: Sub, r: Sub, o: Outcome) {
    && SendEffect(c, c.seen, r, o)
    && Ordered(r) && r.seen == c.seen + 1
    && r.info == c.info && r.flags == c.flags && c.taken <= r.taken
  }

  ghost predicate SendOutcome(c: Sub, r: Sending) {
    r.Returned? ==> Sends(c, r.sub, r.outcome)
  }

  // Between the two selects of DropOldest: d is c after the pop and what the consumer then took.
  ghost predicate Popped(c: Sub, d: Sub) {
    && d.info == c.info && d.flags == c.flags && d.seen == c.seen
    && d.content == Pop(c).content && c.taken <= d.taken && Ordered(d)
    && (c.info.cap > 0 ==> |d.content| - d.taken < c.info.cap)
  }

  lemma PopThenTake(c: Sub, k: nat)
    requires Ordered(c)
    ensures Popped(c, Take(Pop(c), k))
  {
    PopKeepsOrder(c);
  }

  lemma SecondSelect(c: Sub, d: Sub, parked: bool)
    requires Ordered(c) && c.info.policy == DropOldest && Popped(c, d)
    ensures if Room(d, parked) then Sends(c, Push(d, c.seen).(seen := c.seen + 1), Sent)
            else c.info.cap == 0 && Sends(c, d.(seen := c.seen + 1), BufferFull)
  {
    if Room(d, parked) { PushKeepsOrder(d, parked); }
  }

  lemma SendDropOldest(c: Sub, env: Env)
    requires Ordered(c) && Open(c) && c.info.policy == DropOldest
    ensures Send(c, c.seen, env).Returned?
    ensures SendOutcome(c, Send(c, c.seen, env))
  {
    var d := Take(Pop(c), env.between);
    PopThenTake(c, env.between);
    SecondSelect(c, d, env.parkedAgain);
  }

  // A first attempt that fails leaves the channel as it is.
  lemma FirstAttempt(c: Sub, parked: bool)
    requires Ordered(c) && c.info.policy != DropOldest
    ensures Room(c, parked) ==> Sends(c, Push(c, c.seen).(seen := c.seen + 1), Sent)
    ensures !Room(c, parked) ==> |c.content| - c.taken == c.info.cap
  {
    if Room(c, parked) { PushKeepsOrder(c, parked); }
  }

  // After the first attempt of DropNewestAfterTimeout has failed and the consumer has taken k
  // messages, the second one sends or the message is dropped.
  lemma SecondAttempt(c: Sub, k: nat, parked: bool)
    requires Ordered(c) && c.info.policy == DropNewestAfterTimeout && |c.content| - c.taken == c.info.cap
    ensures var d := Take(c, k);
      && Sends(c, d.(seen := c.seen + 1), Dropped)
      && (Room(d, parked) ==> Sends(c, Push(d, c.seen).(seen := c.seen + 1), Sent))
  {
    if Room(Take(c, k), parked) { PushKeepsOrder(Take(c, k), parked); }
  }

  lemma SendDropNewestAfterTimeout(c: Sub, env: Env)
    requires Ordered(c) && Open(c) && c.info.policy == DropNewestAfterTimeout
    ensures SendOutcome(c, Send(c, c.seen, env))
  {
    FirstAttempt(c, env.parked);
    if !Room(c, env.parked) { SecondAttempt(c, env.between, env.parkedAgain); }
  }

  lemma SendDropNone(c: Sub, env: Env)
    requires Ordered(c) && Open(c) && c.info.policy == DropNone
    ensures SendOutcome(c, Send(c, c.seen, env))
  {
    if Room(c, env.parked) { PushKeepsOrder(c, env.parked); }
  }

  lemma SendDropNewest(c: Sub, env: Env)
    requires Ordered(c) && Open(c) && c.info.policy == DropNewest
    ensures SendOutcome(c, Send(c, c.seen, env))
  {
    if Room(c, env.parked) { PushKeepsOrder(c, env.parked); }
  }

  // Sending the next message of the history to an open subscriber, whatever the consumer does
  // meanwhile: only the effects above, and never an error about a closed channel.
  lemma SendKeepsOrder(c: Sub, env: Env)
    requires Ordered(c) && Open(c) && c.info.policy != Unset
    ensures SendOutcome(c, Send(c, c.seen, env))
  {
    match c.info.policy
    case DropNone => SendDropNone(c, env);
    case DropNewest => SendDropNewest(c, env);
    case DropOldest => SendDropOldest(c, env);
    case DropNewestAfterTimeout => SendDropNewestAfterTimeout(c, env);
  }

  // Who waits and who drops, in terms of what is pending when Send is called and what happens
  // during the call. The first attempt fails if the buffer is full or, without a buffer, if no
  // consumer is receiving. DropNone then waits. DropNewest drops. DropNewestAfterTimeout drops if
  // the timer wins and otherwise waits until the consumer takes or receives something. DropOldest
  // never waits and, on a buffered channel, never fails to send.
  lemma WhoWaitsAndWhoDrops(c: Sub, env: Env)
    requires Ordered(c) && Open(c) && c.info.policy != Unset
    ensures var full := if c.info.cap > 0 then |c.Pending()| == c.info.cap else !env.parked;
            var later := if c.info.cap > 0 then env.between > 0 else env.parkedAgain;
            var r := Send(c, c.seen, env);
      && (c.info.policy == DropNone ==> (r.Waiting? <==> full))
      && (c.info.policy == DropNewest ==> r.Returned? && (r.outcome == Dropped <==> full))
      && (c.info.policy == DropNewestAfterTimeout ==>
            && (r.Returned? && r.outcome == Dropped <==> full && env.elapsed)
            && (r.Waiting? <==> full && !env.elapsed && !later))
      && (c.info.policy == DropOldest ==>
            r.Returned? && (r.outcome == Sent <==> c.info.cap > 0 || env.parkedAgain))
  {
    if c.info.policy == DropOldest {
      PopThenTake(c, env.between);
      SecondSelect(c, Take(Pop(c), env.between), env.parkedAgain);
    }
  }

  // DropOldest on a buffered channel loses a message, the oldest one pending, exactly if anything
  // is pending; a drop "when the channel is full" would differ exactly if something is pending and
  // there is still room.
  lemma DropOldestLosesExactlyIfPending(c: Sub, env: Env)
    requires Ordered(c) && Open(c) && c.info.policy == DropOldest && c.info.cap > 0
    ensures var r := Send(c, c.seen, env);
            var pending, cap := |c.Pending()|, c.info.cap;
      && r.Returned?
      && (|r.sub.content| < |c.content| + 1 <==> pending > 0)
      && (pending > 0 ==> r.sub.content == c.content[..c.taken] + c.content[c.taken + 1..] + [c.seen])
      && ((pending > 0 <==> pending == cap) <==> !(0 < pending < cap))
  {
    SendDropOldest(c, env);
    PopKeepsOrder(c);
  }

  // It does differ: a channel with room for two loses its only pending message.
  lemma DropsWithRoomLeft(env: Env)
    ensures var c := RawSub(Info("g", DropOldest, 2, 0), [0], 0, Flags(false, false, 0), 1);
            var r := Send(c, 1, env);
      Ordered(c) && Open(c) && |c.Pending()| < c.info.cap && r.Returned? && r.sub.content == [1]
  {
    var c := RawSub(Info("g", DropOldest, 2, 0), [0], 0, Flags(false, false, 0), 1);
    DropOldestLosesExactlyIfPending(c, env);
    assert c.content[..0] + c.content[1..] + [1] == [1];
  }

  lemma LosslessAppend(c: Sub, r: Sub)
    requires Lossless(c) && r.info == c.info && r.seen == c.seen + 1 && r.content == c.content + [c.seen]
    ensures Lossless(r)
  {
    var old', new' := Range(c.info.joined, c.seen), Range(c.info.joined, c.seen + 1);
    assert new' == old' + [c.seen];
    assert r.content == Replayed(c) + (old' + [c.seen]);
  }

  lemma FreshAppend(c: Sub, r: Sub)
    requires Fresh(c) && r.content == Pop(c).content + [c.seen] && r.seen == c.seen + 1
    requires |r.content| - r.taken <= |Pop(c).content| - Pop(c).taken + 1
    ensures Fresh(r)
  {
    assert Last(r.content) == c.seen;
  }

  lemma SendsKeepsInv(c: Sub, r: Sub, o: Outcome)
    requires SubInv(c) && Open(c) && Sends(c, r, o)
    ensures SubInv(r)
  {
    if c.info.policy == DropNone {
      LosslessAppend(c, r);
    } else if c.info.policy == DropOldest && c.info.cap > 0 {
      FreshAppend(c, r);
    }
  }

  lemma SendsSame(c: Sub, r: Sub, o: Outcome)
    requires c.info.policy != Unset && Sends(c, r, o)
    ensures SameChannel(c, r)
  {
  }

  // Every policy keeps its promise across a Send.
  lemma SendKeeps(c: Sub, env: Env)
    requires SubInv(c) && Open(c) && Send(c, c.seen, env).Returned?
    ensures SubInv(Send(c, c.seen, env).sub)
  {
    SendKeepsOrder(c, env);
    var r := Send(c, c.seen, env);
    SendsKeepsInv(c, r.sub, r.outcome);
  }

  // The "buffer full" error of DropOldest: the broadcaster is the only sender, so after the pop
  // there is room even if the consumer receives between the two selects. On an unbuffered
  // channel the error is the outcome exactly when no consumer is parked.
  lemma BufferFullOnlyUnbuffered(c: Sub, env: Env)
    requires Ordered(c) && Open(c) && c.info.policy == DropOldest
    ensures Send(c, c.seen, env).Returned?
    ensures Send(c, c.seen, env).outcome == BufferFull <==> c.info.cap == 0 && !env.parkedAgain
  {
    SendDropOldest(c, env);
    if c.info.cap == 0 {
      assert c.taken == |c.content|;
    }
  }

  // The consumer keeps receiving during the call: whatever the outcome, it has what it took between
  // the two selects, if the policy gets as far as the second one, and on an unbuffered channel also
  // the message sent.
  lemma ReceivedDuringSend(c: Sub, env: Env)
    requires Ordered(c) && Open(c) && c.info.policy != Unset && Send(c, c.seen, env).Returned?
    ensures var r := Send(c, c.seen, env);
            var twice := c.info.policy == DropOldest
                         || (c.info.policy == DropNewestAfterTimeout && !Room(c, env.parked));
            var left := if c.info.policy == DropOldest then Pop(c).content else c.content;
            var most := if twice then c.taken + env.between else c.taken;
      r.sub.taken == if c.info.cap == 0 && r.outcome == Sent then |r.sub.content|
                     else if most <= |left| then most else |left|
  {
    assert c.taken <= |Pop(c).content|;
    if c.info.policy == DropOldest {
      PopThenTake(c, env.between);
    }
  }

  // ---------------------------------------------------------------------------- after the close

  // Send on a closed subscriber reports it and leaves the channel alone.
  lemma ClosedSend(c: Sub, m: nat, env: Env)
    requires c.flags.closed
    ensures Send(c, m, env) == Returned(c.(seen := m + 1), AlreadyClosed)
  {
  }

  // The first close closes both channels, fails never, and takes nothing from what is pending; any
  // later one fails and changes nothing.
  lemma CloseOnce(c: Sub)
    requires Open(c)
    ensures var first := CloseSub(c);
      && !first.failed && first.sub == c.(flags := Flags(true, true, 1))
      && CloseSub(first.sub) == Closing(first.sub, true)
  {
  }

  // A policy that finds the subscriber stopped returns at once, sends nothing and takes at most the
  // oldest pending message. It reports the stop if that case wins its select; since the closed
  // channel is ready as well, it panics otherwise, except that DropOldest has a second chance.
  lemma HandleAfterStop(c: Sub, m: nat, env: Env)
    requires c.flags.stopped
    ensures var r := Handle(c, m, env);
      && r.Returned? && r.sub.flags == c.flags
      && r.outcome == (if env.stopFirst || (c.info.policy == DropOldest && env.elapsed) then SubscriberStopped
                       else SendOnClosed)
      && r.sub.content == (if !env.stopFirst && c.info.policy == DropOldest then Pop(c).content else c.content)
  {
  }
}

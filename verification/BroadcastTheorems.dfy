// What the broadcaster guarantees its consumers, for every run of the protocol.
module BroadcastTheorems {
  import opened Orders
  import opened Wrappers
  import opened Policies
  import opened Broadcast

  // The messages behind publish numbers; history is the sequence of all messages published so far.
  function Values<T>(history: seq<T>, numbers: seq<nat>): (r: seq<T>)
    requires forall i :: 0 <= i < |numbers| ==> numbers[i] < |history|
    ensures |r| == |numbers|
    ensures forall i :: 0 <= i < |r| ==> r[i] == history[numbers[i]]
  {
    seq(|numbers|, i requires 0 <= i < |numbers| => history[numbers[i]])
  }

  // xs arises from ys by deleting elements.
  ghost predicate Subsequence<T>(xs: seq<T>, ys: seq<T>) {
    xs == [] || (ys != [] && ((xs[0] == ys[0] && Subsequence(xs[1..], ys[1..])) || Subsequence(xs, ys[1..])))
  }

  lemma {:induction false} IncreasingSelects<T>(history: seq<T>, numbers: seq<nat>, from: nat)
    requires Increasing(numbers) && from <= |history|
    requires forall i :: 0 <= i < |numbers| ==> from <= numbers[i] < |history|
    ensures Subsequence(Values(history, numbers), history[from..])
    decreases |history| - from
  {
    IncreasingEverywhere(numbers);
    if numbers != [] {
      assert numbers[0] < |history|;
      assert history[from..][1..] == history[from + 1..];
      if numbers[0] == from {
        assert forall i :: 0 < i < |numbers| ==> from + 1 <= numbers[i];
        IncreasingFrom(numbers[1..]);
        IncreasingSelects(history, numbers[1..], from + 1);
        assert Values(history, numbers)[1..] == Values(history, numbers[1..]);
      } else {
        assert forall i :: 0 <= i < |numbers| ==> from + 1 <= numbers[i];
        IncreasingSelects(history, numbers, from + 1);
      }
    }
  }

  // ------------------------------------------------------------------------------------ ordering

  // Where the messages of a channel can start: at most one before it was created.
  function Start(c: Sub): nat {
    if c.info.joined == 0 then 0 else c.info.joined - 1
  }

  lemma OrderedContent<T>(c: Sub, history: seq<T>)
    requires Ordered(c) && c.seen <= |history|
    ensures Start(c) <= |history|
    ensures forall i :: 0 <= i < |c.content| ==> c.content[i] < |history|
    ensures Subsequence(Values(history, c.content), history[Start(c)..])
  {
    WithinEverywhere(c.content, c.info.joined, c.seen);
    IncreasingSelects(history, c.content, Start(c));
  }

  // In every reachable state, also inside a fan-out, whatever mix of policies is subscribed: what
  // a channel has handed out and still holds is a subsequence of the publish history starting at
  // most one message before it was created.
  lemma OrderedBroadcast<T>(aware: bool, run: seq<Label>, history: seq<T>, id: nat)
    requires |history| == Exec(aware, run).log.published && id < |Exec(aware, run).subs|
    ensures var c := Exec(aware, run).subs[id];
            && Increasing(c.content) && |c.content| - c.taken <= c.info.cap && Start(c) <= |history|
            && (forall i :: 0 <= i < |c.content| ==> c.content[i] < |history|)
            && Subsequence(Values(history, c.content), history[Start(c)..])
  {
    Reachable(aware, run);
    assert SubOk(Exec(aware, run), id);
    OrderedContent(Exec(aware, run).subs[id], history);
  }

  // Two consumer groups see the messages they share in the same order.
  lemma GroupsAgreeOnOrder(aware: bool, run: seq<Label>, a: nat, b: nat, i: nat, j: nat, k: nat, l: nat)
    requires var s := Exec(aware, run);
      && a < |s.subs| && b < |s.subs|
      && i < |s.subs[a].content| && j < |s.subs[a].content|
      && k < |s.subs[b].content| && l < |s.subs[b].content|
      && s.subs[a].content[i] == s.subs[b].content[k]
      && s.subs[a].content[j] == s.subs[b].content[l]
    ensures i < j <==> k < l
  {
    Reachable(aware, run);
    var s := Exec(aware, run);
    assert SubOk(s, a) && SubOk(s, b);
    IncreasingEverywhere(s.subs[a].content);
    IncreasingEverywhere(s.subs[b].content);
  }

  lemma VisitsCommute(s: State, g: string, h: string, c: Sub, d: Sub, o: Outcome, p: Outcome)
    requires WellFormed(s) && Named(s) && g != h && s.phase.FanningOut? && g in s.phase.todo && h in s.phase.todo
    ensures g in s.phase.todo - {h} && h in s.phase.todo - {g}
    ensures Visit(Visit(s, g, c, o), h, d, p) == Visit(Visit(s, h, d, p), g, c, o)
  {
    var i, j := s.members[g], s.members[h];
    assert s.subs[i].info.group == g && s.subs[j].info.group == h;
    assert s.subs[i := c][j := d] == s.subs[j := d][i := c];
    assert g in s.phase.todo - {h} && h in s.phase.todo - {g};
    assert s.phase.todo - {g} - {h} == s.phase.todo - {h} - {g};
  }

  // Visiting one subscriber leaves another's turn as it was.
  lemma DeliverAfterVisit(s: State, g: string, h: string, e: Env, d: Sub, p: Outcome)
    requires WellFormed(s) && Named(s) && g != h && s.phase.FanningOut? && g in s.phase.todo && h in s.phase.todo
    ensures g in s.phase.todo - {h}
    ensures var v := Visit(s, h, d, p);
      DeliverStep(v, g, e) ==
            match Send(s.subs[s.members[g]], s.log.published - 1, e)
            case Waiting => v.(phase := FanningOut(s.phase.todo - {h}, Some(g)))
            case Returned(c, o) => Visit(v, g, c, o)
  {
    var i, j := s.members[g], s.members[h];
    assert s.subs[i].info.group == g && s.subs[j].info.group == h;
    var v := Visit(s, h, d, p);
    assert g in s.phase.todo - {h};
    assert v.members == s.members && v.subs[i] == s.subs[i] && v.log.published == s.log.published;
    assert v.phase == FanningOut(s.phase.todo - {h}, None);
  }

  // Once a Send waits, no other subscriber is visited.
  lemma HeldAt(s: State, g: string, h: string, f: Env)
    requires WellFormed(s) && g != h && s.phase.FanningOut? && g in s.phase.todo
    ensures var w := s.(phase := FanningOut(s.phase.todo, Some(g))); DeliverStep(w, h, f) == w
  {
  }

  // The order in which the fan-out ranges over two subscribers makes no difference exactly if both
  // Sends return: behind a Send that waits the other subscriber gets nothing.
  lemma DeliveriesCommute(s: State, g: string, h: string, e: Env, f: Env)
    requires Inv(s) && g != h && s.phase.FanningOut? && s.phase.at == None
    requires g in s.phase.todo && h in s.phase.todo
    ensures DeliverStep(DeliverStep(s, g, e), h, f) == DeliverStep(DeliverStep(s, h, f), g, e) <==>
            && Send(s.subs[s.members[g]], s.log.published - 1, e).Returned?
            && Send(s.subs[s.members[h]], s.log.published - 1, f).Returned?
  {
    var x := Send(s.subs[s.members[g]], s.log.published - 1, e);
    var y := Send(s.subs[s.members[h]], s.log.published - 1, f);
    if x.Returned? { DeliverAfterVisit(s, h, g, f, x.sub, x.outcome); }
    if y.Returned? { DeliverAfterVisit(s, g, h, e, y.sub, y.outcome); }
    if x.Returned? && y.Returned? { VisitsCommute(s, g, h, x.sub, y.sub, x.outcome, y.outcome); }
    if x.Waiting? { HeldAt(s, g, h, f); }
    if y.Waiting? { HeldAt(s, h, g, e); }
    assert h !in s.phase.todo - {h} && g !in s.phase.todo - {g};
  }

  // ------------------------------------------------------------------------- what never changes

  // Messages are only added, channels keep their identity, and what a consumer has received
  // stays received.
  ghost predicate Extends(s: State, r: State) {
    && s.log.published <= r.log.published
    && |s.subs| <= |r.subs|
    && s.gate.aware == r.gate.aware
    && forall id :: 0 <= id < |s.subs| ==> SameChannel(s.subs[id], r.subs[id])
  }

  lemma VisitExtends(s: State, g: string, c: Sub, o: Outcome)
    requires WellFormed(s) && s.phase.FanningOut? && g in s.phase.todo && SameChannel(s.subs[s.members[g]], c)
    ensures Extends(s, Visit(s, g, c, o))
  {
  }

  lemma DeliverExtends(s: State, g: string, env: Env)
    requires Inv(s)
    ensures Extends(s, DeliverStep(s, g, env))
  {
    if CanVisit(s, g) {
      var c := s.subs[s.members[g]];
      assert SubOk(s, s.members[g]);
      SendKeepsOrder(c, env);
      var r := Send(c, s.log.published - 1, env);
      if r.Returned? {
        SendsSame(c, r.sub, r.outcome);
        VisitExtends(s, g, r.sub, r.outcome);
      }
    }
  }

  lemma UnsubscribeExtends(s: State, group: string, ch: nat)
    requires WellFormed(s)
    ensures Extends(s, UnsubscribeStep(s, group, ch))
  {
  }

  lemma SubscribeExtends(s: State, conf: Config)
    requires WellFormed(s)
    ensures Extends(s, SubscribeStep(s, conf))
  {
  }

  lemma StepExtends(s: State, l: Label)
    requires Inv(s)
    ensures Extends(s, Step(s, l))
  {
    match l
    case Deliver(g, env) => DeliverExtends(s, g, env);
    case Consume(id) =>
    case Publish =>
    case Subscribe(conf) => SubscribeExtends(s, conf);
    case Unsubscribe(group, ch) => UnsubscribeExtends(s, group, ch);
    case Close =>
    case UnknownRequest =>
    case Disconnect =>
  }

  lemma ExtendsTransitive(a: State, b: State, c: State)
    requires Extends(a, b) && Extends(b, c)
    ensures Extends(a, c)
  {
    forall id | 0 <= id < |a.subs| ensures SameChannel(a.subs[id], c.subs[id]) {
      assert SameChannel(a.subs[id], b.subs[id]) && SameChannel(b.subs[id], c.subs[id]);
    }
  }

  lemma ExecAfter(aware: bool, run: seq<Label>, l: Label)
    ensures Exec(aware, run + [l]) == Step(Exec(aware, run), l)
  {
    assert (run + [l])[..|run + [l]| - 1] == run;
  }

  lemma {:induction false} RunExtends(aware: bool, run: seq<Label>, more: seq<Label>)
    ensures Extends(Exec(aware, run), Exec(aware, run + more))
    decreases |more|
  {
    if more == [] {
      assert run + more == run;
    } else {
      var init := more[..|more| - 1];
      RunExtends(aware, run, init);
      assert run + more == (run + init) + [Last(more)];
      ExecAfter(aware, run + init, Last(more));
      Reachable(aware, run + init);
      StepExtends(Exec(aware, run + init), Last(more));
      ExtendsTransitive(Exec(aware, run), Exec(aware, run + init), Exec(aware, run + more));
    }
  }

  // What a subscription creates.
  function CreatedInfo(conf: Config, published: nat): Info {
    Info(conf.group, if conf.policy == Unset then DropNone else conf.policy, conf.cap, published)
  }

  lemma JoinInfo(s: State, conf: Config)
    requires WellFormed(s) && s.phase.AtHead? && conf.group !in s.members
    ensures var r := SubscribeStep(s, conf);
      |r.subs| == |s.subs| + 1 && r.log.published == s.log.published
      && r.subs[|s.subs|].info == CreatedInfo(conf, s.log.published)
  {
  }

  lemma ExtendsInfo(s: State, r: State, id: nat)
    requires Extends(s, r) && id < |s.subs|
    ensures id < |r.subs| && r.subs[id].info == s.subs[id].info && s.log.published <= r.log.published
  {
    assert SameChannel(s.subs[id], r.subs[id]);
  }

  // The channel created by a subscription, followed through any continuation of the run.
  lemma Follow(aware: bool, before: seq<Label>, conf: Config, after: seq<Label>)
    requires Exec(aware, before).phase.AtHead? && conf.group !in Exec(aware, before).members
    ensures var s0 := Exec(aware, before);
            var s := Exec(aware, before + [Subscribe(conf)] + after);
            && |s0.subs| < |s.subs| && s0.log.published <= s.log.published
            && s.subs[|s0.subs|].info == CreatedInfo(conf, s0.log.published)
  {
    var s0 := Exec(aware, before);
    ExecAfter(aware, before, Subscribe(conf));
    JoinInfo(s0, conf);
    RunExtends(aware, before + [Subscribe(conf)], after);
    ExtendsInfo(Exec(aware, before + [Subscribe(conf)]), Exec(aware, before + [Subscribe(conf)] + after), |s0.subs|);
  }

  // ------------------------------------------------------------------------------- the policies

  lemma LosslessValues<T>(c: Sub, history: seq<T>)
    requires Lossless(c) && c.seen == |history|
    ensures forall i :: 0 <= i < |c.content| ==> c.content[i] < |history|
    ensures Values(history, c.content)
         == (if c.info.cap > 0 && c.info.joined > 0 then [history[c.info.joined - 1]] else [])
            + history[c.info.joined..]
  {
  }

  // DropNone (and no policy at all) loses nothing: at every loop head a group that is still
  // subscribed has received or can still receive exactly the replayed last message, if its
  // buffer could hold it, followed by everything published since it subscribed.
  lemma DropNoneLosesNothing<T>(
    aware: bool, before: seq<Label>, conf: Config, after: seq<Label>, history: seq<T>)
    requires Exec(aware, before).phase.AtHead? && conf.group !in Exec(aware, before).members
    requires conf.policy in {DropNone, Unset}
    requires |history| == Exec(aware, before + [Subscribe(conf)] + after).log.published
    ensures var n := Exec(aware, before).log.published;
            var s := Exec(aware, before + [Subscribe(conf)] + after);
            var id := |Exec(aware, before).subs|;
            && id < |s.subs| && n <= |history|
            && (s.phase.AtHead? && IsMember(s, id) ==>
                  && (forall i :: 0 <= i < |s.subs[id].content| ==> s.subs[id].content[i] < |history|)
                  && Values(history, s.subs[id].content)
                     == (if conf.cap > 0 && n > 0 then [history[n - 1]] else []) + history[n..])
  {
    Follow(aware, before, conf, after);
    Reachable(aware, before + [Subscribe(conf)] + after);
    var s := Exec(aware, before + [Subscribe(conf)] + after);
    var id := |Exec(aware, before).subs|;
    assert SubOk(s, id);
    if s.phase.AtHead? && IsMember(s, id) {
      LosslessValues(s.subs[id], history);
    }
  }

  // DropOldest on a buffered channel never lets the newest message get lost: at every loop head
  // at most one message is pending, and the last message received or pending is the last one
  // published, unless nothing has been published at all.
  lemma DropOldestIsFresh(aware: bool, run: seq<Label>, id: nat)
    requires var s := Exec(aware, run);
      && id < |s.subs| && IsMember(s, id) && s.phase.AtHead?
      && s.subs[id].info.policy == DropOldest && s.subs[id].info.cap > 0
    ensures var s := Exec(aware, run);
            var c := s.subs[id];
            && |c.Pending()| <= 1
            && s.log.last == s.log.published
            && (s.log.published > 0 ==> c.content != [] && Last(c.content) == s.log.published - 1)
  {
    Reachable(aware, run);
    assert SubOk(Exec(aware, run), id);
  }

  // -------------------------------------------------------------------------- lifetime and gate

  // A channel is open exactly while it is in the map, it is closed at most once, the map is keyed
  // by the groups' own names and gives distinct groups distinct channels, and no Send or Close in
  // any run meets a closed subscriber.
  lemma ChannelLifetime(aware: bool, run: seq<Label>)
    ensures var s := Exec(aware, run);
      && (forall id :: 0 <= id < |s.subs| ==>
            && s.subs[id].flags.closes <= 1 && (s.subs[id].flags.closes == 0 <==> IsMember(s, id))
            && s.subs[id].flags.closed == s.subs[id].flags.stopped == (s.subs[id].flags.closes == 1))
      && (forall g :: g in s.members ==> s.members[g] < |s.subs| && s.subs[s.members[g]].info.group == g)
      && (forall g, h :: g in s.members && h in s.members && s.members[g] == s.members[h] ==> g == h)
      && !s.log.faulted
  {
    Reachable(aware, run);
    var s := Exec(aware, run);
    forall id | 0 <= id < |s.subs|
      ensures s.subs[id].flags.closes <= 1 && (s.subs[id].flags.closes == 0 <==> IsMember(s, id))
      ensures s.subs[id].flags.closed == s.subs[id].flags.stopped == (s.subs[id].flags.closes == 1)
    {
      assert SubOk(s, id);
    }
  }

  // In every state of every run: a Send of the fan-out waits, sends, drops or finds a full buffer,
  // but never meets a closed subscriber or panics, and a Close of a subscribed channel succeeds.
  lemma NoClosedErrors(aware: bool, run: seq<Label>, g: string, env: Env)
    requires g in Exec(aware, run).members
    ensures var s := Exec(aware, run);
            var c := s.subs[s.members[g]];
      && !CloseSub(c).failed
      && (CanVisit(s, g) ==>
            var r := Send(c, s.log.published - 1, env);
            r.Waiting? || r.outcome == Sent || r.outcome == Dropped || r.outcome == BufferFull)
  {
    Reachable(aware, run);
    var s := Exec(aware, run);
    assert SubOk(s, s.members[g]);
    if CanVisit(s, g) { SendKeepsOrder(s.subs[s.members[g]], env); }
  }

  // A Send that did meet a closed subscriber would be recorded, and so would a failed Close, which
  // also skips the gate.
  lemma FaultsAreRecorded(s: State, g: string, c: Sub, o: Outcome)
    requires WellFormed(s) && s.phase.FanningOut? && g in s.phase.todo
    ensures Visit(s, g, c, o).log.faulted <==>
            s.log.faulted || o == SubscriberStopped || o == AlreadyClosed || o == SendOnClosed
  {
  }

  lemma FailedCloseIsReported(s: State, group: string, ch: nat)
    requires WellFormed(s) && s.phase.AtHead? && group in s.members && s.members[group] == ch
    requires s.subs[ch].flags.closed
    ensures var r := UnsubscribeStep(s, group, ch);
      && r.log.answer == UnsubscribeFailed && r.log.faulted && r.gate == s.gate
      && r.subs == s.subs && r.members == s.members - {group}
  {
  }

  lemma FailedClosesAreRecorded(s: State)
    requires WellFormed(s) && s.phase.AtHead?
    ensures CloseStep(s).log.faulted <==>
            s.log.faulted || exists id :: 0 <= id < |s.subs| && IsMember(s, id) && s.subs[id].flags.closed
  {
    forall id | 0 <= id < |s.subs| ensures CloseSub(s.subs[id]).failed == s.subs[id].flags.closed {
    }
  }

  // A consumer receives one message, the oldest one pending, if there is one.
  lemma ConsumersTakeOne(aware: bool, run: seq<Label>, id: nat)
    requires id < |Exec(aware, run).subs|
    ensures var s, r := Exec(aware, run), Exec(aware, run + [Consume(id)]);
      && r == s.(subs := r.subs) && |r.subs| == |s.subs|
      && r.subs[id].Received() == s.subs[id].Received()
                                  + (if s.subs[id].Pending() == [] then [] else [s.subs[id].Pending()[0]])
      && r.subs[id].content == s.subs[id].content
      && forall k :: 0 <= k < |s.subs| && k != id ==> r.subs[k] == s.subs[k]
  {
    ExecAfter(aware, run, Consume(id));
  }

  // An unknown request is ignored.
  lemma UnknownRequestsIgnored(aware: bool, run: seq<Label>)
    ensures Exec(aware, run + [UnknownRequest]) == Exec(aware, run)
  {
    ExecAfter(aware, run, UnknownRequest);
  }

  // With SubscriberAware a message is taken from the publish channel only while somebody is
  // subscribed; without it, exactly until a close request has been handled.
  lemma GateFollowsSubscribers(aware: bool, run: seq<Label>)
    ensures var s := Exec(aware, run);
      && s.gate.recv == s.gate.broadcasting
      && (s.gate.recv <==> if aware then s.members != map[] else !s.gate.closeHandled)
      && (Exec(aware, run + [Publish]).log.published > s.log.published <==> s.phase.AtHead? && s.gate.recv)
  {
    Reachable(aware, run);
    RunExtends(aware, [], run);
    assert [] + run == run;
    ExecAfter(aware, run, Publish);
  }

  // ---------------------------------------------------------------------------------- requests

  function RequestsHandled(aware: bool, run: seq<Label>): nat {
    if run == [] then 0
    else
      var init := run[..|run| - 1];
      RequestsHandled(aware, init) + if IsRequest(Last(run)) && Exec(aware, init).phase.AtHead? then 1 else 0
  }

  lemma StepAnswers(s: State, l: Label)
    requires WellFormed(s)
    ensures Step(s, l).log.answered == s.log.answered + if IsRequest(l) && s.phase.AtHead? then 1 else 0
  {
  }

  // Every recognised request that the loop handles gets exactly one response.
  lemma {:induction false} OneResponseEach(aware: bool, run: seq<Label>)
    ensures Exec(aware, run).log.answered == RequestsHandled(aware, run)
  {
    if run != [] {
      OneResponseEach(aware, run[..|run| - 1]);
      StepAnswers(Exec(aware, run[..|run| - 1]), Last(run));
    }
  }

  // What the response to l says is true when it is sent, and nothing else has happened: a
  // subscription reuses the group's channel or adds one, and only if errors were not asked for; an
  // unsubscription is confirmed exactly if no channel of the group but the named one was open, and
  // then no other channel is touched.
  ghost predicate Truthful(s: State, l: Label, r: State) {
    match r.log.answer
    case Subscribed(id) =>
      l.Subscribe? && id < |r.subs| && Open(r.subs[id]) && r.subs[id].info.group == l.conf.group
      && (if l.conf.group in s.members then !l.conf.errIfExists && r.subs == s.subs
          else id == |s.subs| && |r.subs| == id + 1 && r.subs[..id] == s.subs)
    case AlreadyExists(id) =>
      l.Subscribe? && l.conf.errIfExists && r == s.(log := r.log)
      && id < |s.subs| && Open(s.subs[id]) && s.subs[id].info.group == l.conf.group
    case Unsubscribed =>
      l.Unsubscribe? && |r.subs| == |s.subs|
      && (forall id :: 0 <= id < |r.subs| && r.subs[id].info.group == l.group ==> !Open(r.subs[id]))
      && (forall id :: 0 <= id < |s.subs| && s.subs[id].info.group == l.group && Open(s.subs[id]) ==> id == l.ch)
      && (forall id :: 0 <= id < |s.subs| && id != l.ch ==> r.subs[id] == s.subs[id])
    case WrongChannel =>
      l.Unsubscribe? && r == s.(log := r.log)
      && exists id :: 0 <= id < |s.subs| && id != l.ch && s.subs[id].info.group == l.group && Open(s.subs[id])
    case TopicClosed =>
      l.Close? && r.members == map[] && !r.gate.recv
      && forall id :: 0 <= id < |r.subs| ==> r.subs[id].flags.closes == 1
    case _ => false
  }

  lemma InvSub(s: State, id: nat)
    requires Inv(s) && id < |s.subs|
    ensures Open(s.subs[id]) <==> IsMember(s, id)
    ensures !Open(s.subs[id]) ==> s.subs[id].flags.closes == 1
  {
    assert SubOk(s, id);
  }

  lemma OpenIffMember(s: State)
    requires Inv(s)
    ensures forall id :: 0 <= id < |s.subs| ==> (Open(s.subs[id]) <==> IsMember(s, id))
    ensures forall id :: 0 <= id < |s.subs| ==> Open(s.subs[id]) || s.subs[id].flags.closes == 1
  {
    forall id | 0 <= id < |s.subs|
      ensures (Open(s.subs[id]) <==> IsMember(s, id)) && (Open(s.subs[id]) || s.subs[id].flags.closes == 1)
    {
      InvSub(s, id);
    }
  }

  lemma TruthfulSubscribe(s: State, conf: Config, r: State)
    requires Inv(s) && Inv(r) && s.phase.AtHead? && r == SubscribeStep(s, conf)
    ensures Truthful(s, Subscribe(conf), r)
  {
    if conf.group in s.members {
      InvSub(s, s.members[conf.group]);
      assert IsMember(s, s.members[conf.group]);
    } else {
      assert IsMember(r, |s.subs|);
      InvSub(r, |s.subs|);
    }
  }

  lemma TruthfulUnsubscribe(s: State, group: string, ch: nat, r: State)
    requires Inv(s) && Inv(r) && s.phase.AtHead? && r == UnsubscribeStep(s, group, ch)
    ensures Truthful(s, Unsubscribe(group, ch), r)
  {
    OpenIffMember(s);
    OpenIffMember(r);
    if group in s.members { InvSub(s, s.members[group]); }
  }

  lemma TruthfulStep(s: State, l: Label, r: State)
    requires Inv(s) && Inv(r) && IsRequest(l) && s.phase.AtHead? && r == Step(s, l)
    ensures Truthful(s, l, r)
  {
    match l
    case Subscribe(conf) => TruthfulSubscribe(s, conf, r);
    case Unsubscribe(group, ch) => TruthfulUnsubscribe(s, group, ch, r);
    case Close => OpenIffMember(r);
    case _ =>
  }

  lemma ResponsesAreTruthful(aware: bool, run: seq<Label>, l: Label)
    requires IsRequest(l) && Exec(aware, run).phase.AtHead?
    ensures Truthful(Exec(aware, run), l, Exec(aware, run + [l]))
  {
    var s := Exec(aware, run);
    Reachable(aware, run);
    ExecAfter(aware, run, l);
    StepKeepsInv(s, l);
    TruthfulStep(s, l, Step(s, l));
  }

  // What a new channel holds, whatever its policy: the last message published, if there is one and
  // the channel is buffered, and nothing else; nothing has been received from it.
  lemma NewChannel(aware: bool, run: seq<Label>, conf: Config)
    requires Exec(aware, run).phase.AtHead? && conf.group !in Exec(aware, run).members
    ensures var s, r := Exec(aware, run), Exec(aware, run + [Subscribe(conf)]);
            var n := s.log.published;
      && |r.subs| == |s.subs| + 1
      && r.subs[|s.subs|].content == (if n > 0 && conf.cap > 0 then [n - 1] else [])
      && r.subs[|s.subs|].taken == 0 && Open(r.subs[|s.subs|])
  {
    Reachable(aware, run);
    ExecAfter(aware, run, Subscribe(conf));
  }

  // The same messages, received and pending.
  ghost predicate SameMessages(c: Sub, d: Sub) {
    d.info == c.info && d.content == c.content && d.taken == c.taken
  }

  // No request takes a message from a channel or adds one to it, not even one that closes it: what
  // is pending can still be received.
  lemma RequestsKeepMessages(aware: bool, run: seq<Label>, l: Label, id: nat)
    requires IsRequest(l) && id < |Exec(aware, run).subs|
    ensures var s, r := Exec(aware, run), Exec(aware, run + [l]);
      id < |r.subs| && SameMessages(s.subs[id], r.subs[id])
  {
    ExecAfter(aware, run, l);
  }

  lemma EndedStep(s: State, l: Label)
    requires WellFormed(s) && s.phase.Finished?
    ensures Step(s, l) == if l.Consume? then ConsumeStep(s, l.id) else s
  {
  }

  // A disconnected channel ends the loop at its select, and then only consumers still do something.
  lemma {:induction false} EndedForGood(aware: bool, run: seq<Label>, more: seq<Label>)
    requires Exec(aware, run).phase.AtHead?
    ensures var s, r := Exec(aware, run), Exec(aware, run + [Disconnect] + more);
      && r.phase == Finished && r.members == s.members && r.gate == s.gate && r.log == s.log
      && |r.subs| == |s.subs|
      && forall id :: 0 <= id < |s.subs| ==>
           r.subs[id].content == s.subs[id].content && r.subs[id].flags == s.subs[id].flags
    decreases |more|
  {
    if more == [] {
      assert run + [Disconnect] + more == run + [Disconnect];
      ExecAfter(aware, run, Disconnect);
    } else {
      var init := more[..|more| - 1];
      EndedForGood(aware, run, init);
      assert run + [Disconnect] + more == (run + [Disconnect] + init) + [Last(more)];
      ExecAfter(aware, run + [Disconnect] + init, Last(more));
      EndedStep(Exec(aware, run + [Disconnect] + init), Last(more));
    }
  }

  ghost predicate AllClosed(s: State) {
    && s.members == map[] && !s.gate.recv
    && forall id :: 0 <= id < |s.subs| ==> s.subs[id].flags.closes == 1
  }

  lemma AllClosedKept(s: State, l: Label)
    requires Inv(s) && AllClosed(s) && !s.phase.FanningOut? && !l.Subscribe?
    ensures var r := Step(s, l);
      AllClosed(r) && !r.phase.FanningOut? && r.log.published == s.log.published && |r.subs| == |s.subs|
  {
    assert s.members == map[];
    assert Gated(s);
  }

  // The topic is shut, with these many messages and channels.
  ghost predicate Shut(s: State, published: nat, channels: nat) {
    AllClosed(s) && !s.phase.FanningOut? && s.log.published == published && |s.subs| == channels
  }

  lemma ShutNow(aware: bool, before: seq<Label>)
    requires Exec(aware, before).phase.AtHead?
    ensures Shut(Exec(aware, before + [Close]), Exec(aware, before).log.published, |Exec(aware, before).subs|)
  {
    ResponsesAreTruthful(aware, before, Close);
    ExecAfter(aware, before, Close);
  }

  lemma ShutStill(aware: bool, run: seq<Label>, l: Label, published: nat, channels: nat)
    requires Shut(Exec(aware, run), published, channels) && !l.Subscribe?
    ensures Shut(Exec(aware, run + [l]), published, channels)
  {
    Reachable(aware, run);
    ExecAfter(aware, run, l);
    AllClosedKept(Exec(aware, run), l);
  }

  lemma {:induction false} ShutAfter(
    aware: bool, run: seq<Label>, after: seq<Label>, published: nat, channels: nat)
    requires Shut(Exec(aware, run), published, channels) && forall l :: l in after ==> !l.Subscribe?
    ensures Shut(Exec(aware, run + after), published, channels)
    decreases |after|
  {
    if after == [] {
      assert run + after == run;
    } else {
      var init := after[..|after| - 1];
      ShutAfter(aware, run, init, published, channels);
      assert run + after == (run + init) + [Last(after)];
      ShutStill(aware, run + init, Last(after), published, channels);
    }
  }

  // After a handled close request nothing is published or opened any more, as long as no
  // subscribe request that was already under way is handled.
  lemma ClosedForGood(aware: bool, before: seq<Label>, after: seq<Label>)
    requires Exec(aware, before).phase.AtHead?
    requires forall l :: l in after ==> !l.Subscribe?
    ensures var s := Exec(aware, before + [Close] + after);
      && AllClosed(s) && !s.phase.FanningOut?
      && s.log.published == Exec(aware, before).log.published
      && |s.subs| == |Exec(aware, before).subs|
  {
    ShutNow(aware, before);
    ShutAfter(aware, before + [Close], after, Exec(aware, before).log.published, |Exec(aware, before).subs|);
  }
}

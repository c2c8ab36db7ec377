// The methods of the topic on the objects of the program (intracom/topic.go): flag, channels and
// response channels, with the broadcaster's own subscriber map behind them. Here one call runs at
// a time and the broadcaster is at its select; module Topic has the calls that race.
module TopicCalls {
  import opened Wrappers
  import opened Policies
  import opened Broadcast
  import opened BroadcastTheorems
  import opened BroadcastLoop

  // make(chan response, 1)
  class ResponseChannel {
    var buffer: seq<Response>

    constructor ()
      ensures buffer == []
    {
      buffer := [];
    }

    // The precondition is that the send does not wait.
    method Send(r: Response)
      requires |buffer| < 1
      modifies this
      ensures buffer == old(buffer) + [r]
    {
      buffer := buffer + [r];
    }

    method Receive() returns (r: Response)
      requires buffer != []
      modifies this
      ensures r == old(buffer)[0] && buffer == old(buffer)[1..]
    {
      r := buffer[0];
      buffer := buffer[1..];
    }
  }

  datatype Request = Request(body: Label, responses: ResponseChannel)

  datatype Result = TopicAlreadyClosed | Answered(response: Response)

  class TopicObject {
    const registry: Registry
    var gate: Gate
    var lastMessage: Option<nat>
    ghost var log: Log
    var closed: bool
    var requests: seq<Request>
    var requestsClosed: bool
    var publishClosed: bool

    ghost function View(): State
      reads this, registry, registry.channels
    {
      registry.View(gate, log, AtHead)
    }

    // The broadcaster is at its select and no request is under way.
    ghost predicate Ready()
      reads this, registry, registry.channels
    {
      registry.Linked() && Inv(View()) && lastMessage == Remembered(log.last) && requests == []
    }

    // No call is under way.
    ghost predicate Valid()
      reads this, registry, registry.channels
    {
      Ready() && closed == requestsClosed == publishClosed
    }

    constructor (aware: bool)
      ensures Valid() && !closed && View() == Init(aware)
      ensures fresh(registry) && registry.channels == []
    {
      registry := new Registry();
      gate, lastMessage, log := Gate(aware, !aware, !aware, false), None, Log(0, 0, 0, NoneYet, false);
      closed, requests, requestsClosed, publishClosed := false, [], false, false;
      new;
      assert registry.Members() == map[];
    }

    // The broadcaster handles a request.
    method Dispatch(l: Label) returns (answer: Response)
      requires registry.Linked() && Inv(View()) && lastMessage == Remembered(log.last) && IsRequest(l)
      modifies this`gate, this`log, registry, registry.channels
      ensures registry.Linked() && lastMessage == Remembered(log.last)
      ensures View() == Step(old(View()), l) && answer == log.answer
      ensures old(registry.channels) <= registry.channels
      ensures fresh(registry.channels[|old(registry.channels)|..])
    {
      gate, answer, log := registry.Handle(l, lastMessage, gate, log);
    }

    // The broadcaster receives the request and responds.
    method Serve()
      requires registry.Linked() && Inv(View()) && lastMessage == Remembered(log.last)
      requires |requests| == 1 && IsRequest(requests[0].body) && requests[0].responses.buffer == []
      modifies this`gate, this`log, this`requests, registry, registry.channels, requests[0].responses
      ensures requests == [] && registry.Linked() && lastMessage == Remembered(log.last)
      ensures View() == Step(old(View()), old(requests[0].body))
      ensures old(requests[0].responses).buffer == [log.answer]
      ensures old(registry.channels) <= registry.channels
      ensures fresh(registry.channels[|old(registry.channels)|..])
    {
      var request := requests[0];
      requests := [];
      var answer := Dispatch(request.body);
      ghost var after := View();
      request.responses.Send(answer);
      assert View() == after;
    }

    // Send a request with a response channel of its own.
    method Ask(l: Label) returns (responses: ResponseChannel)
      requires requests == []
      modifies this`requests
      ensures requests == [Request(l, responses)] && fresh(responses) && responses.buffer == []
    {
      responses := new ResponseChannel();
      requests := [Request(l, responses)];
    }

    // Send the request, wait for the response.
    method Exchange(l: Label) returns (r: Response)
      requires registry.Linked() && Inv(View()) && lastMessage == Remembered(log.last)
      requires requests == [] && IsRequest(l)
      modifies this`gate, this`log, this`requests, registry, registry.channels
      ensures requests == [] && registry.Linked() && lastMessage == Remembered(log.last)
      ensures View() == Step(old(View()), l) && r == log.answer
      ensures old(registry.channels) <= registry.channels
      ensures fresh(registry.channels[|old(registry.channels)|..])
    {
      var responses := Ask(l);
      Serve();
      ghost var after := View();
      assert responses.buffer[0] == log.answer;
      r := responses.Receive();
      assert View() == after;
    }

    method RoundTrip(l: Label) returns (r: Response)
      requires Ready() && IsRequest(l)
      modifies this`gate, this`log, this`requests, registry, registry.channels
      ensures Ready() && View() == Step(old(View()), l) && r == log.answer
      ensures Truthful(old(View()), l, View())
      ensures old(registry.channels) <= registry.channels
      ensures fresh(registry.channels[|old(registry.channels)|..])
    {
      ghost var s := View();
      TrueAnswer(s, l);
      r := Exchange(l);
      assert View() == Step(s, l);
    }

    lemma TrueAnswer(s: State, l: Label)
      requires Inv(s) && IsRequest(l) && s.phase.AtHead?
      ensures Inv(Step(s, l)) && Truthful(s, l, Step(s, l))
    {
      StepKeepsInv(s, l);
      TruthfulStep(s, l, Step(s, l));
    }

    // A subscriber gets an error if the topic is closed and otherwise the broadcaster's answer,
    // which is true: an open channel of the group, or the error that the group exists.
    method Subscribe(conf: Config) returns (result: Result)
      requires Valid()
      modifies this`gate, this`log, this`requests, registry, registry.channels
      ensures Valid()
      ensures if old(closed) then result == TopicAlreadyClosed && View() == old(View())
              else
                && result == Answered(log.answer) && View() == SubscribeStep(old(View()), conf)
                && Truthful(old(View()), Label.Subscribe(conf), View())
    {
      if closed { return TopicAlreadyClosed; }
      var r := RoundTrip(Label.Subscribe(conf));
      result := Answered(r);
    }

    method Unsubscribe(group: string, ch: nat) returns (result: Result)
      requires Valid()
      modifies this`gate, this`log, this`requests, registry, registry.channels
      ensures Valid()
      ensures if old(closed) then result == TopicAlreadyClosed && View() == old(View())
              else
                && result == Answered(log.answer) && View() == UnsubscribeStep(old(View()), group, ch)
                && Truthful(old(View()), Label.Unsubscribe(group, ch), View())
    {
      if closed { return TopicAlreadyClosed; }
      var r := RoundTrip(Label.Unsubscribe(group, ch));
      result := Answered(r);
    }

    // closed.Swap(true)
    method SwapClosed() returns (was: bool)
      modifies this`closed
      ensures was == old(closed) && closed
    {
      was := closed;
      closed := true;
    }

    // The request, and then the topic's own channels.
    method ShutDown()
      requires Ready()
      modifies this`gate, this`log, this`requests, this`requestsClosed, this`publishClosed,
               registry, registry.channels
      ensures Ready() && requestsClosed && publishClosed && View() == CloseStep(old(View()))
    {
      ghost var s := View();
      var r := RoundTrip(Label.Close);
      requestsClosed := true;
      publishClosed := true;
      assert View() == CloseStep(s);
    }

    lemma ClosingShutsAll(s: State)
      requires Inv(s) && s.phase.AtHead?
      ensures AllClosed(CloseStep(s)) && |CloseStep(s).subs| == |s.subs|
    {
      TrueAnswer(s, Label.Close);
    }

    // The first Close closes every subscriber's channel and both channels of the topic; any later
    // one fails and changes nothing.
    method Close() returns (failed: bool)
      requires Valid()
      modifies this`gate, this`log, this`requests, this`closed, this`requestsClosed, this`publishClosed,
               registry, registry.channels
      ensures Valid() && closed && requestsClosed && publishClosed
      ensures failed == old(closed)
      ensures if old(closed) then View() == old(View())
              else AllClosed(View()) && |View().subs| == old(|View().subs|)
    {
      ghost var s := View();
      failed := SwapClosed();
      assert View() == s;
      if failed { return; }
      ClosingShutsAll(s);
      ShutDown();
    }
  }
}

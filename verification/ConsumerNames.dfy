// The consumer group names of the watchers (service_states.go, service_action.go, constants.go).
module ConsumerNames {

  // The numbers of the constants, as the source's uint8 enumerations count them.
  newtype Byte = x: int | 0 <= x < 256

  const STATE_UNKNOWN: Byte := 0
  const STATE_EXIT: Byte := 1
  const STATE_INIT: Byte := 2
  const STATE_IDLE: Byte := 3
  const STATE_RUN: Byte := 4
  const STATE_STOP: Byte := 5

  const ENTERING: Byte := 0
  const EXITED: Byte := 1
  const CHANGING: Byte := 2
  const NOT_IN: Byte := 3

  const INTERNAL_SERVICE_STATES := "_rxd" + ".states"

  function StateName(s: Byte): string {
    if s == STATE_UNKNOWN then "unknown"
    else if s == STATE_INIT then "init"
    else if s == STATE_IDLE then "idle"
    else if s == STATE_RUN then "run"
    else if s == STATE_STOP then "stop"
    else if s == STATE_EXIT then "exit"
    else "unknown"
  }

  function ActionName(a: Byte): string {
    if a == CHANGING then "changing"
    else if a == ENTERING then "entering"
    else if a == EXITED then "exited"
    else if a == NOT_IN then "not_in"
    else "unknown"
  }

  // strings.Join
  function Join(parts: seq<string>, sep: string): string {
    if parts == [] then ""
    else if |parts| == 1 then parts[0]
    else parts[0] + sep + Join(parts[1..], sep)
  }

  function AllStatesConsumer(consumer: string): string {
    Join([INTERNAL_SERVICE_STATES, "all", consumer], ".")
  }

  function StatesConsumer(action: Byte, target: Byte, consumer: string): string {
    Join([INTERNAL_SERVICE_STATES, ActionName(action), StateName(target), consumer], ".")
  }

  // ------------------------------------------------------------------------- reading a name back

  predicate NoDot(s: string) {
    '.' !in s
  }

  // What comes before the first dot, if there is one.
  function Head(s: string): string {
    if s == "" || s[0] == '.' then "" else [s[0]] + Head(s[1..])
  }

  lemma {:induction false} HeadOf(a: string, b: string)
    requires NoDot(a)
    ensures Head(a + "." + b) == a
  {
    if a == "" {
      assert (a + "." + b)[0] == '.';
    } else {
      assert (a + "." + b)[1..] == a[1..] + "." + b;
      assert a == [a[0]] + a[1..];
      HeadOf(a[1..], b);
    }
  }

  // A dot-free part can be split off again, whatever follows it.
  lemma SplitOff(a: string, b: string, c: string, d: string)
    requires NoDot(a) && NoDot(c) && a + "." + b == c + "." + d
    ensures a == c && b == d
  {
    HeadOf(a, b);
    HeadOf(c, d);
    assert (a + "." + b)[|a| + 1..] == b && (c + "." + d)[|c| + 1..] == d;
  }

  lemma Rest(prefix: string, b: string, d: string)
    requires prefix + "." + b == prefix + "." + d
    ensures b == d
  {
    assert (prefix + "." + b)[|prefix| + 1..] == b && (prefix + "." + d)[|prefix| + 1..] == d;
  }

  lemma JoinMore(part: string, parts: seq<string>)
    requires parts != []
    ensures Join([part] + parts, ".") == part + "." + Join(parts, ".")
  {
  }

  lemma Joined(action: Byte, target: Byte, consumer: string)
    ensures StatesConsumer(action, target, consumer)
         == INTERNAL_SERVICE_STATES + "." + (ActionName(action) + "." + (StateName(target) + "." + consumer))
    ensures AllStatesConsumer(consumer) == INTERNAL_SERVICE_STATES + "." + ("all" + "." + consumer)
  {
    var a, s := ActionName(action), StateName(target);
    JoinMore(s, [consumer]);
    JoinMore(a, [s, consumer]);
    JoinMore(INTERNAL_SERVICE_STATES, [a, s, consumer]);
    JoinMore("all", [consumer]);
    JoinMore(INTERNAL_SERVICE_STATES, ["all", consumer]);
    assert [a] + [s, consumer] == [a, s, consumer] && ["all"] + [consumer] == ["all", consumer];
    assert [INTERNAL_SERVICE_STATES] + [a, s, consumer] == [INTERNAL_SERVICE_STATES, a, s, consumer];
    assert [INTERNAL_SERVICE_STATES] + ["all", consumer] == [INTERNAL_SERVICE_STATES, "all", consumer];
    assert [s] + [consumer] == [s, consumer];
  }

  lemma DotFree(action: Byte, target: Byte)
    ensures NoDot(ActionName(action)) && NoDot(StateName(target)) && NoDot("all") && ActionName(action) != "all"
  {
  }

  // For all numbers and consumers, dots included: two names are equal exactly if they are built
  // from the same action name, the same state name and the same consumer.
  lemma NamesDetermineParts(a: Byte, s: Byte, c: string, b: Byte, t: Byte, d: string)
    ensures StatesConsumer(a, s, c) == StatesConsumer(b, t, d) <==>
            ActionName(a) == ActionName(b) && StateName(s) == StateName(t) && c == d
  {
    Joined(a, s, c);
    Joined(b, t, d);
    DotFree(a, s);
    DotFree(b, t);
    if StatesConsumer(a, s, c) == StatesConsumer(b, t, d) {
      var p, q := ActionName(a) + "." + (StateName(s) + "." + c), ActionName(b) + "." + (StateName(t) + "." + d);
      Rest(INTERNAL_SERVICE_STATES, p, q);
      SplitOff(ActionName(a), StateName(s) + "." + c, ActionName(b), StateName(t) + "." + d);
      SplitOff(StateName(s), c, StateName(t), d);
    }
  }

  // Different defined actions, and different defined states, have different names; the undefined
  // numbers all share one name, which is also that of the defined state unknown.
  lemma ActionNamesAgree(a: Byte, b: Byte)
    ensures ActionName(a) == ActionName(b) <==> a == b || (a > NOT_IN && b > NOT_IN)
  {
    assert "changing"[0] == 'c' && "not_in"[0] == 'n' && "unknown"[0] == 'u';
    assert "entering"[0] == 'e' && "exited"[0] == 'e' && "entering"[1] == 'n' && "exited"[1] == 'x';
  }

  lemma StateNamesAgree(s: Byte, t: Byte)
    ensures StateName(s) == StateName(t) <==> s == t || (StateName(s) == "unknown" && StateName(t) == "unknown")
    ensures StateName(s) == "unknown" <==> s == STATE_UNKNOWN || s > STATE_STOP
  {
    assert "unknown"[0] == 'u' && "run"[0] == 'r' && "stop"[0] == 's' && "exit"[0] == 'e';
    assert "init"[0] == 'i' && "idle"[0] == 'i' && "init"[1] == 'n' && "idle"[1] == 'd';
  }

  // The consumer names are one-to-one on defined actions and states, and more precisely: two
  // names agree exactly if the consumers are equal, the actions are equal or both undefined, and
  // the states are equal or both named unknown.
  lemma NamesAgree(a: Byte, s: Byte, c: string, b: Byte, t: Byte, d: string)
    ensures StatesConsumer(a, s, c) == StatesConsumer(b, t, d) <==>
            && c == d
            && (a == b || (a > NOT_IN && b > NOT_IN))
            && (s == t || ((s == STATE_UNKNOWN || s > STATE_STOP) && (t == STATE_UNKNOWN || t > STATE_STOP)))
  {
    NamesDetermineParts(a, s, c, b, t, d);
    ActionNamesAgree(a, b);
    StateNamesAgree(s, t);
  }

  // No watcher of one state shares a group with a watcher of all states.
  lemma NamesNeverOverlap(a: Byte, s: Byte, c: string, d: string)
    ensures StatesConsumer(a, s, c) != AllStatesConsumer(d)
  {
    Joined(a, s, c);
    Joined(a, s, d);
    DotFree(a, s);
    if StatesConsumer(a, s, c) == AllStatesConsumer(d) {
      var p, q := ActionName(a) + "." + (StateName(s) + "." + c), "all" + "." + d;
      Rest(INTERNAL_SERVICE_STATES, p, q);
      SplitOff(ActionName(a), StateName(s) + "." + c, "all", d);
    }
  }

  lemma AllStatesNamesAgree(c: string, d: string)
    ensures AllStatesConsumer(c) == AllStatesConsumer(d) <==> c == d
  {
    Joined(0, 0, c);
    Joined(0, 0, d);
    if AllStatesConsumer(c) == AllStatesConsumer(d) {
      Rest(INTERNAL_SERVICE_STATES, "all" + "." + c, "all" + "." + d);
      SplitOff("all", c, "all", d);
    }
  }

  // The names themselves.
  lemma TheNames(a: Byte, s: Byte, c: string)
    ensures StateName(0) == "unknown" && StateName(1) == "exit" && StateName(2) == "init"
    ensures StateName(3) == "idle" && StateName(4) == "run" && StateName(5) == "stop"
    ensures ActionName(0) == "entering" && ActionName(1) == "exited"
    ensures ActionName(2) == "changing" && ActionName(3) == "not_in"
    ensures s > 5 ==> StateName(s) == "unknown"
    ensures a > 3 ==> ActionName(a) == "unknown"
    ensures AllStatesConsumer(c) == "_rxd.states.all." + c
    ensures StatesConsumer(0, 4, c) == "_rxd.states.entering.run." + c
  {
    Joined(0, 4, c);
    assert "_rxd.states" + "." + ("all" + "." + c) == "_rxd.states.all." + c;
    assert "_rxd.states" + "." + ("entering" + "." + ("run" + "." + c)) == "_rxd.states.entering.run." + c;
  }
}

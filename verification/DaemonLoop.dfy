// The parts of daemon.go that work step by step on objects: registering services, and the
// goroutine that folds state updates into one live map and publishes copies of it.
module DaemonLoop {
  import opened Orders
  import opened Wrappers
  import opened Lifecycle
  import opened StatesWatcher

  // A ServiceStates map of the Go code, which is a reference.
  class StatesMap {
    var m: States

    constructor ()
      ensures m == map[]
    {
      m := map[];
    }

    // ServiceStates.copy: a new map, filled entry by entry.
    method Copy() returns (c: StatesMap)
      ensures fresh(c) && c.m == m
    {
      c := new StatesMap();
      var todo := m.Keys;
      while todo != {}
        invariant fresh(c) && todo <= m.Keys
        invariant c.m == map k | k in m && k !in todo :: m[k]
        decreases |todo|
      {
        var k :| k in todo;
        c.m := c.m[k := m[k]];
        todo := todo - {k};
      }
    }
  }

  // The live map at the start of the watcher.
  method InitialStates(names: set<string>) returns (live: StatesMap)
    ensures fresh(live) && live.m == Initial(names)
  {
    live := new StatesMap();
    var todo := names;
    while todo != {}
      invariant todo <= names
      invariant live.m == Initial(names - todo)
      invariant fresh(live)
      decreases |todo|
    {
      var n :| n in todo;
      live.m := live.m[n := StateUpdate(Unknown, Entering)];
      todo := todo - {n};
      assert names - todo == (names - (todo + {n})) + {n};
    }
    assert names - {} == names;
  }

  // daemon.statesWatcher: every published snapshot is a map of its own, shows exactly the updates
  // up to its own, and is not changed by anything the watcher does later.
  method WatchStates(names: set<string>, updates: seq<NamedUpdate>)
    returns (published: seq<StatesMap>, live: StatesMap)
    ensures |published| == |updates| && fresh(published) && fresh(live)
    ensures forall k :: 0 <= k < |published| ==> published[k].m == Snapshots(Initial(names), updates)[k]
    ensures forall j, k :: 0 <= j < k < |published| ==> published[j] != published[k]
    ensures live !in published
  {
    live := InitialStates(names);
    published := [];
    for i := 0 to |updates|
      invariant |published| == i && fresh(published) && fresh(live) && live !in published
      invariant live.m == Fold(Initial(names), updates[..i])
      invariant forall k :: 0 <= k < i ==> published[k].m == Fold(Initial(names), updates[..k + 1])
      invariant forall j, k :: 0 <= j < k < i ==> published[j] != published[k]
    {
      assert updates[..i + 1][..i] == updates[..i] && Last(updates[..i + 1]) == updates[i];
      live.m := live.m[updates[i].name := updates[i].update];
      var c := live.Copy();
      published := published + [c];
    }
    assert updates[..|updates|] == updates;
  }

  // ------------------------------------------------------------------------------- registration

  // What a registration can bring as its manager: nothing, a nil pointer to a struct whose Manage
  // method has a value or else a pointer receiver, or a usable manager.
  datatype Supplied = Unset | NilPointer(valueReceiver: bool) | Usable(id: nat)

  datatype Registration = Registration(name: string, runner: nat, manager: Supplied)

  datatype Error =
    | ErrAddingServiceOnceStarted | ErrNoServiceName | ErrUninitialized | ErrDaemonStarted | ErrNoServices
    | CheckPanics   // not an error value: the check of a nil pointer with a pointer receiver panics

  const DEFAULT_MANAGER: nat := 0

  // checkNilStructPointer looks the method up on the struct type, where a method with a pointer
  // receiver is not found.
  method CheckNilPointer(manager: Supplied) returns (err: Option<Error>)
    ensures err.None? <==> !manager.NilPointer?
    ensures manager.NilPointer? ==> err == Some(if manager.valueReceiver then ErrUninitialized else CheckPanics)
  {
    if manager.NilPointer? {
      if manager.valueReceiver { return Some(ErrUninitialized); }
      return Some(CheckPanics);
    }
    err := None;
  }

  // Runners and managers are represented by numbers; DEFAULT_MANAGER is NewDefaultManager().
  class Daemon {
    var started: bool
    var services: map<string, nat>
    var managers: map<string, nat>

    // Every registered service has a name and a manager, so Start finds a manager for each.
    ghost predicate Valid()
      reads this
    {
      services.Keys == managers.Keys && "" !in services
    }

    constructor ()
      ensures Valid() && !started && services == map[]
    {
      started, services, managers := false, map[], map[];
    }

    // A service with a name that is already registered replaces the earlier one.
    method AddService(s: Registration) returns (err: Option<Error>)
      requires Valid()
      modifies this`services, this`managers
      ensures Valid()
      ensures err == Some(ErrAddingServiceOnceStarted) <==> started
      ensures err == Some(ErrNoServiceName) <==> !started && s.name == ""
      ensures err == Some(ErrUninitialized) <==> !started && s.name != "" && s.manager == NilPointer(true)
      ensures err == Some(CheckPanics) <==> !started && s.name != "" && s.manager == NilPointer(false)
      ensures err.None? <==> !started && s.name != "" && !s.manager.NilPointer?
      ensures err.Some? ==> services == old(services) && managers == old(managers)
      ensures err.None? ==>
        && services == old(services)[s.name := s.runner]
        && managers == old(managers)[s.name := if s.manager.Unset? then DEFAULT_MANAGER else s.manager.id]
    {
      if started { return Some(ErrAddingServiceOnceStarted); }
      if s.name == "" { return Some(ErrNoServiceName); }
      var manager := if s.manager.Unset? then Usable(DEFAULT_MANAGER) else s.manager;
      err := CheckNilPointer(manager);
      if err.Some? { return; }
      services := services[s.name := s.runner];
      managers := managers[s.name := manager.id];
    }

    // The checks before anything is started. A failed Start also leaves the daemon started.
    method BeginStart() returns (err: Option<Error>)
      modifies this`started
      ensures started
      ensures err == if old(started) then Some(ErrDaemonStarted)
                     else if services == map[] then Some(ErrNoServices) else None
    {
      if started { return Some(ErrDaemonStarted); }
      started := true;
      if |services| == 0 { return Some(ErrNoServices); }
      err := None;
    }
  }
}

/** Stops that overtake a start: the guard of the protocol is exact, and a run that breaks the stores
    apart without it. */
module EarlyStops {
  import opened Options
  import opened Json
  import opened State
  import opened Schema
  import opened Transitions
  import opened Processes
  import opened Protocol

  /** The next step of a call when everything outside answers well. */
  function Well(i: nat): Event
  {
    Move(i, "", "", Starts, Obeys, true)
  }

  /** The record of a start call would be accepted now, or is there. */
  predicate Ready(x: System, c: Call)
  {
    match c
    case StartPropose(app, id, made) => Accepts(StartOf(app, id, made), x.node)
    case _ => true
  }

  /** The steps after the stop's driver call that leave the id running without a record. */
  function Overtaking(c: Call, i: nat, j: nat): seq<Event>
  {
    if c.StartPropose? then [Well(i), Well(i), Well(j)] else [Well(i), Well(j)]
  }

  /** After the stop's driver call: its driver has no such process, so the stop goes on to the record. */
  lemma StopFindsNothing(kinds: map<string, Kind>, x: System, i: nat, j: nat, app: Installation, id: string)
    requires SystemOk(kinds, x) && i < |x.calls| && j < |x.calls| && x.calls[j] == StopDriver(id)
    requires x.calls[i] == StartDriver(app, id) || (x.calls[i].StartPropose? && x.calls[i].id == id && x.calls[i].app == app)
    requires NamesTracked(kinds, id) && Ready(x, x.calls[i])
    ensures Next(kinds, x, Well(j)) == Some(Moved(x, j, StopPropose(id)))
    ensures NotRunning(x.running, id) && DriverFromID(id) == Some(app.driver)
  {
    hide DriverFromID;
    hide NodeOk;
    hide Plain;
    hide OwnIds;
    hide StopsClear;
    assert CallOk(kinds, x, x.calls[i]);
    assert NotRunning(x.running, id);
    assert x.(running := x.running) == x;
  }

  /** The driver is called after the stop looked for the process, and the stop then removes the record. */
  lemma StartedThenRemoved(kinds: map<string, Kind>, a: System, i: nat, j: nat, app: Installation, id: string)
    requires i < |a.calls| && j < |a.calls| && i != j
    requires a.calls[i] == StartDriver(app, id) && a.calls[j] == StopPropose(id)
    requires NamesTracked(kinds, id) && DriverFromID(id) == Some(app.driver) && NotRunning(a.running, id) && Accepts(StopProcess(id), a.node)
    ensures Run(kinds, a, [Well(i), Well(j)]).Some? && GuardedRun(kinds, a, [Well(i), Well(j)])
    ensures !RunningIsRecorded(Run(kinds, a, [Well(i), Well(j)]).value)
  {
    var b := Moved(a, i, StartRules(id)).(running := a.running[app.driver := At(a.running, app.driver) + {id}]);
    var c := Moved(b, j, Done).(node := Update(StopProcess(id), a.node));
    assert Next(kinds, a, Well(i)) == Some(b);
    assert Next(kinds, b, Well(j)) == Some(c);
    StopOnly(id, a.node);
    assert id in At(c.running, app.driver);
    hide Next;
    TwoSteps(kinds, a, Well(i), Well(j), b, c);
  }

  lemma TwoSteps(kinds: map<string, Kind>, x: System, e: Event, f: Event, a: System, b: System)
    requires Next(kinds, x, e) == Some(a) && Next(kinds, a, f) == Some(b)
    ensures Run(kinds, x, [e, f]) == Some(b)
    ensures Guarded(kinds, x, e) && Guarded(kinds, a, f) ==> GuardedRun(kinds, x, [e, f])
  {
    hide Next;
    hide Guarded;
    assert [e, f][1..] == [f] && [f][1..] == [];
    assert Run(kinds, b, []) == Some(b);
    assert Run(kinds, a, [f]) == Some(b);
    assert GuardedRun(kinds, b, []);
  }

  lemma OneMore(kinds: map<string, Kind>, x: System, e: Event, a: System, rest: seq<Event>)
    requires Next(kinds, x, e) == Some(a)
    ensures Run(kinds, x, [e] + rest) == Run(kinds, a, rest)
    ensures Guarded(kinds, x, e) && GuardedRun(kinds, a, rest) ==> GuardedRun(kinds, x, [e] + rest)
  {
    hide Next;
    hide Guarded;
    assert ([e] + rest)[1..] == rest;
  }

  /** The stop's driver call, then a guarded run, lead to a process running without a record. */
  ghost predicate BreaksWith(kinds: map<string, Kind>, x: System, j: nat, rest: seq<Event>)
  {
    var y := Next(kinds, x, Well(j));
    && y.Some? && GuardedRun(kinds, y.value, rest)
    && Run(kinds, y.value, rest).Some? && !RunningIsRecorded(Run(kinds, y.value, rest).value)
  }

  lemma OvertakenDriver(kinds: map<string, Kind>, x: System, i: nat, j: nat, app: Installation, id: string)
    requires SystemOk(kinds, x) && i < |x.calls| && j < |x.calls| && x.calls[j] == StopDriver(id)
    requires x.calls[i] == StartDriver(app, id) && NamesTracked(kinds, id)
    ensures BreaksWith(kinds, x, j, [Well(i), Well(j)])
  {
    assert CallOk(kinds, x, x.calls[i]);
    StopFindsNothing(kinds, x, i, j, app, id);
    assert Accepts(StopProcess(id), x.node);
    hide SystemOk;
    hide Next;
    hide Run;
    hide GuardedRun;
    hide RunningIsRecorded;
    hide Accepts;
    StartedThenRemoved(kinds, Moved(x, j, StopPropose(id)), i, j, app, id);
  }

  lemma RecordsNext(kinds: map<string, Kind>, a: System, i: nat, app: Installation, id: string, created: string)
    requires i < |a.calls| && a.calls[i] == StartPropose(app, id, created) && Accepts(StartOf(app, id, created), a.node)
    ensures var b := Moved(a, i, StartDriver(app, id)).(node := Update(StartOf(app, id, created), a.node));
      Next(kinds, a, Well(i)) == Some(b) && Accepts(StopProcess(id), b.node) && Guarded(kinds, a, Well(i))
  {
    hide Valid;
    StartOnly(Process(id, app.id, app.userID, created), a.node);
  }

  lemma OvertakenRecord(kinds: map<string, Kind>, x: System, i: nat, j: nat, app: Installation, id: string, created: string)
    requires SystemOk(kinds, x) && i < |x.calls| && j < |x.calls| && x.calls[j] == StopDriver(id)
    requires x.calls[i] == StartPropose(app, id, created) && Ready(x, x.calls[i]) && NamesTracked(kinds, id)
    ensures BreaksWith(kinds, x, j, [Well(i), Well(i), Well(j)])
  {
    hide SystemOk;
    hide Next;
    hide Run;
    hide GuardedRun;
    hide Guarded;
    hide RunningIsRecorded;
    hide Accepts;
    hide Update;
    StopFindsNothing(kinds, x, i, j, app, id);
    var t := StartOf(app, id, created);
    var a := Moved(x, j, StopPropose(id));
    var b := Moved(a, i, StartDriver(app, id)).(node := Update(t, x.node));
    RecordsNext(kinds, a, i, app, id, created);
    StartedThenRemoved(kinds, b, i, j, app, id);
    OneMore(kinds, a, Well(i), b, [Well(i), Well(j)]);
    assert [Well(i)] + [Well(i), Well(j)] == [Well(i), Well(i), Well(j)];
  }

  /** A stop that overtakes the driver call of a start leaves that id running and unrecorded, when the
      record of the start is there or would be accepted and the driver tracks what it runs. */
  lemma OvertakingBreaks(kinds: map<string, Kind>, x: System, i: nat, j: nat, id: string)
    requires SystemOk(kinds, x) && i < |x.calls| && j < |x.calls| && x.calls[j] == StopDriver(id)
    requires Undriven(x.calls[i]) == Some(id) && Ready(x, x.calls[i]) && NamesTracked(kinds, id)
    ensures BreaksWith(kinds, x, j, Overtaking(x.calls[i], i, j))
  {
    hide SystemOk;
    hide BreaksWith;
    if x.calls[i].StartDriver? {
      OvertakenDriver(kinds, x, i, j, x.calls[i].app, id);
    } else {
      OvertakenRecord(kinds, x, i, j, x.calls[i].app, id, x.calls[i].created);
    }
  }

  /** The guard is exact. In any reachable system with a stop about to call its driver, where a pending
      start of that id has its record or would get it now: the stores can come apart from here exactly
      when the id names a tracking driver that such a start has still to call. */
  lemma StopSafeExactly(kinds: map<string, Kind>, start: System, events: seq<Event>, j: nat, id: string)
    requires Initial(kinds, start) && GuardedRun(kinds, start, events) && Run(kinds, start, events).Some?
    requires var x := Run(kinds, start, events).value;
      && j < |x.calls| && x.calls[j] == StopDriver(id)
      && forall i :: 0 <= i < |x.calls| && Undriven(x.calls[i]) == Some(id) ==> Ready(x, x.calls[i])
    ensures var x := Run(kinds, start, events).value;
      (exists rest :: BreaksWith(kinds, x, j, rest)) <==> NamesTracked(kinds, id) && Starting(x.calls, id)
  {
    hide SystemOk;
    hide Initial;
    hide Next;
    hide Ready;
    hide NamesTracked;
    var x := Run(kinds, start, events).value;
    InitialOk(kinds, start);
    RunOk(kinds, start, events);
    if NamesTracked(kinds, id) && Starting(x.calls, id) {
      var i :| 0 <= i < |x.calls| && Undriven(x.calls[i]) == Some(id);
      OvertakingBreaks(kinds, x, i, j, id);
    } else {
      forall rest | BreaksWith(kinds, x, j, rest)
        ensures false
      {
        NextOk(kinds, x, Well(j));
        RunOk(kinds, Next(kinds, x, Well(j)).value, rest);
        RecordedInOk(kinds, Run(kinds, Next(kinds, x, Well(j)).value, rest).value);
      }
    }
  }

  /** For a stop that meets a start between its record and its driver call, tracking alone decides. */
  lemma StopAfterRecordExactly(kinds: map<string, Kind>, start: System, events: seq<Event>, i: nat, j: nat, app: Installation, id: string)
    requires Initial(kinds, start) && GuardedRun(kinds, start, events) && Run(kinds, start, events).Some?
    requires var x := Run(kinds, start, events).value;
      i < |x.calls| && j < |x.calls| && x.calls[i] == StartDriver(app, id) && x.calls[j] == StopDriver(id)
    ensures var x := Run(kinds, start, events).value;
      (exists rest :: BreaksWith(kinds, x, j, rest)) <==> app.driver in kinds && kinds[app.driver].Tracking?
  {
    hide Next;
    hide NodeOk;
    hide RunningOk;
    hide DriverFromID;
    hide Plain;
    hide StopsClear;
    hide BreaksWith;
    var x := Run(kinds, start, events).value;
    InitialOk(kinds, start);
    RunOk(kinds, start, events);
    assert CallOk(kinds, x, x.calls[i]);
    forall k | 0 <= k < |x.calls| && Undriven(x.calls[k]) == Some(id)
      ensures Ready(x, x.calls[k])
    {
      assert k < i ==> StartId(x.calls[k]) != StartId(x.calls[i]);
      assert k > i ==> StartId(x.calls[i]) != StartId(x.calls[k]);
    }
    StopSafeExactly(kinds, start, events, j, id);
    assert Undriven(x.calls[i]) == Some(id);
  }

  lemma RecordedInOk(kinds: map<string, Kind>, x: System)
    requires SystemOk(kinds, x)
    ensures RunningIsRecorded(x)
  {
  }

  // ---------------------------------------------------------------- a run that breaks the stores apart

  const EXAMPLE_APP := Installation("a", "u", "App", "1", "installed", "docker", Some(map[]), "registry", "package", "tag")

  const EXAMPLE_NODE := NodeState("node", "Node", "", "v0.0.8", "",
                                  Some(map["u" := User("u", "ann", "")]), Some(map[]), Some(map["a" := EXAMPLE_APP]), Some(map[]))

  const EXAMPLE := System(EXAMPLE_NODE, map[], [], {}, {"a"})

  const TRACKING: map<string, Kind> := map["docker" := Tracking]

  lemma ExampleInitial()
    ensures Initial(TRACKING, EXAMPLE)
  {
  }

  /** A start reads and makes its transition; a stop of that very id begins. */
  const START_CALL := StartRead("a")
  const STOP_CALL := StopDriver("docker:1")
  const READ := Move(0, "1", "", Starts, Obeys, true)
  const EARLY_STOP: seq<Event> := [Spawn(START_CALL), READ, Spawn(STOP_CALL)]

  const STARTING := StartPropose(EXAMPLE_APP, "docker:1", "")
  const AFTER_EARLY_STOP := System(EXAMPLE_NODE, map[], [STARTING, STOP_CALL], {"docker:1"}, {"a"})

  lemma PlainExample()
    ensures NewID("docker", "1") == "docker:1" && Plain("docker:1")
  {
    assert "docker:1" == ['d', 'o', 'c', 'k', 'e', 'r', ':', '1'];
  }

  lemma ExampleReads(x: System)
    requires x == EXAMPLE.(calls := [START_CALL])
    ensures Next(TRACKING, x, READ) == Some(EXAMPLE.(calls := [STARTING], usedIds := {"docker:1"}))
  {
    PlainExample();
    assert "a" in Entries(x.node.apps) && Entries(x.node.apps)["a"] == EXAMPLE_APP;
    assert x.calls[0 := STARTING] == [STARTING];
    assert x.usedIds + {"docker:1"} == {"docker:1"};
  }

  lemma EarlyStopReached()
    ensures GuardedRun(TRACKING, EXAMPLE, EARLY_STOP)
    ensures Run(TRACKING, EXAMPLE, EARLY_STOP) == Some(AFTER_EARLY_STOP)
  {
    var a := EXAMPLE.(calls := [START_CALL]);
    var b := EXAMPLE.(calls := [STARTING], usedIds := {"docker:1"});
    PlainExample();
    assert EXAMPLE.calls + [START_CALL] == [START_CALL];
    assert Next(TRACKING, EXAMPLE, Spawn(START_CALL)) == Some(a);
    ExampleReads(a);
    assert b.calls + [STOP_CALL] == [STARTING, STOP_CALL] && b.usedIds + {"docker:1"} == {"docker:1"};
    assert Next(TRACKING, b, Spawn(STOP_CALL)) == Some(AFTER_EARLY_STOP);
    assert Guarded(TRACKING, EXAMPLE, Spawn(START_CALL)) && Guarded(TRACKING, a, READ) && Guarded(TRACKING, b, Spawn(STOP_CALL));
    hide Next;
    hide Guarded;
    TwoSteps(TRACKING, a, READ, Spawn(STOP_CALL), b, AFTER_EARLY_STOP);
    OneMore(TRACKING, EXAMPLE, Spawn(START_CALL), a, [READ, Spawn(STOP_CALL)]);
    assert EARLY_STOP == [Spawn(START_CALL)] + [READ, Spawn(STOP_CALL)];
  }

  lemma ExampleStarts()
    ensures Ready(AFTER_EARLY_STOP, STARTING) && NamesTracked(TRACKING, "docker:1")
  {
    var s := EXAMPLE_NODE;
    assert Entries(s.users) == map["u" := User("u", "ann", "")] && Entries(s.apps) == map["a" := EXAMPLE_APP];
    assert Entries(s.processes) == map[] && Version(s) == 8;
    assert Check(StartOf(EXAMPLE_APP, "docker:1", ""), s);
    PlainExample();
    DriverKnown(s, "a", "1");
  }

  /** One run from a fresh node in which an early stop leaves a process running without a record. */
  lemma EarlyStopUnrecords()
    ensures Initial(TRACKING, EXAMPLE) && Run(TRACKING, EXAMPLE, EARLY_STOP) == Some(AFTER_EARLY_STOP)
    ensures BreaksWith(TRACKING, AFTER_EARLY_STOP, 1, [Well(0), Well(0), Well(1)])
  {
    ExampleInitial();
    ExampleStarts();
    EarlyStopReached();
    hide Initial;
    hide SystemOk;
    hide Ready;
    hide NamesTracked;
    hide Run;
    hide GuardedRun;
    hide BreaksWith;
    InitialOk(TRACKING, EXAMPLE);
    RunOk(TRACKING, EXAMPLE, EARLY_STOP);
    OvertakingBreaks(TRACKING, AFTER_EARLY_STOP, 0, 1, "docker:1");
  }
}

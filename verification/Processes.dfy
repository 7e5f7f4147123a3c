/** Process ids, the drivers behind the process manager, and restoring recorded processes. */
module Processes {
  import opened Options
  import opened Text
  import opened State

  const KNOWN_DRIVERS := {"unknown", "noop", "docker", "web"}

  function NewID(driver: string, uuid: string): string
  {
    driver + ":" + uuid
  }

  function DriverTypeFromString(s: string): string
  {
    if s in KNOWN_DRIVERS then s else "unknown"
  }

  function DriverFromID(id: string): Option<string>
  {
    var sep := Split(id, ':');
    if |sep| < 2 then None else Some(DriverTypeFromString(sep[0]))
  }

  lemma KnownHaveNoColon(d: string)
    requires d in KNOWN_DRIVERS
    ensures ':' !in d
  {
  }

  /** The driver read back from a new id is the one it was made for exactly when that is one of the
      four driver types. */
  lemma IdRoundTrip(driver: string, uuid: string)
    ensures DriverFromID(NewID(driver, uuid)) == Some(driver) <==> driver in KNOWN_DRIVERS
  {
    var id := NewID(driver, uuid);
    assert id == driver + [':'] + uuid;
    SplitParts(id, ':');
    if driver in KNOWN_DRIVERS {
      KnownHaveNoColon(driver);
      SplitFirst(driver, ':', uuid);
    }
  }

  /** What is read back from any id: nothing without a colon, else the driver named before the first colon,
      unknown when it is none of the four. */
  lemma DriverFromIDExactly(id: string)
    ensures DriverFromID(id).None? <==> ':' !in id
    ensures forall d, rest :: ':' !in d && id == d + ":" + rest ==>
      DriverFromID(id) == Some(if d in KNOWN_DRIVERS then d else "unknown")
  {
    SplitCount(id, ':');
    CountNone(id, ':');
    forall d, rest | ':' !in d && id == d + ":" + rest
      ensures DriverFromID(id) == Some(if d in KNOWN_DRIVERS then d else "unknown")
    {
      assert id == d + [':'] + rest;
      SplitFirst(d, ':', rest);
    }
  }

  /** New ids of known drivers differ when their drivers or their uuids do. */
  lemma NewIDsDiffer(d: string, u: string, e: string, v: string)
    requires d in KNOWN_DRIVERS && e in KNOWN_DRIVERS
    ensures NewID(d, u) == NewID(e, v) <==> d == e && u == v
  {
    if NewID(d, u) == NewID(e, v) {
      IdRoundTrip(d, u);
      IdRoundTrip(e, v);
      assert u == NewID(d, u)[|d| + 1..] && v == NewID(e, v)[|e| + 1..];
    }
  }

  // ---------------------------------------------------------------- drivers

  /** A driver that tracks the ids it runs, or the no-op driver, which runs nothing. */
  datatype Kind = Tracking | Noop

  datatype Driver = Driver(builtFor: string, kind: Kind) {
    /** The no-op driver answers "noop" whatever type it was built for. */
    function Type(): string
    {
      if kind.Noop? then "noop" else builtFor
    }
  }

  /** How a driver answers a start: whether it can tell if the id runs, and whether it starts it. A
      driver that refuses leaves nothing running. */
  datatype StartAnswer = CannotTell | Refuses | Starts

  /** How a driver answers a stop it cannot or can carry out. */
  datatype StopAnswer = Breaks | Obeys

  datatype StopResult = Stopped | NoProcFound | StopFailed

  type Running = map<string, set<string>>

  function At(running: Running, driver: string): set<string>
  {
    if driver in running then running[driver] else {}
  }

  /** baseProcessManager.StartProcess */
  function Start(kinds: map<string, Kind>, running: Running, driver: string, id: string, answer: StartAnswer): Option<Running>
  {
    if driver !in kinds || answer.CannotTell? || id in At(running, driver) || answer.Refuses? then None
    else if kinds[driver].Tracking? then Some(running[driver := At(running, driver) + {id}])
    else Some(running)
  }

  /** baseProcessManager.StopProcess: the driver is found by the id alone. */
  function Stop(kinds: map<string, Kind>, running: Running, id: string, answer: StopAnswer): (Running, StopResult)
  {
    var driver := DriverFromID(id);
    if driver.None? || driver.value !in kinds || answer.Breaks? then (running, StopFailed)
    else if id in At(running, driver.value) then (running[driver.value := At(running, driver.value) - {id}], Stopped)
    else if kinds[driver.value].Tracking? then (running, NoProcFound)
    else (running, Stopped)
  }

  /** What a start does to the drivers: it goes through exactly when the app's driver is known, can tell, does
      not run the id yet and does not refuse; then the id runs there as well, if the driver tracks. */
  lemma StartExactly(kinds: map<string, Kind>, running: Running, driver: string, id: string, answer: StartAnswer)
    ensures var r := Start(kinds, running, driver, id, answer);
      && (r.Some? <==> driver in kinds && answer.Starts? && id !in At(running, driver))
      && (r.Some? ==> forall d, k :: k in At(r.value, d) <==>
            k in At(running, d) || (d == driver && k == id && kinds[driver].Tracking?))
  {
  }

  /** What a stop does to the drivers: an id stops running exactly when it is the stopped one, at the driver
      its text names, and every other id runs as before. */
  lemma StopExactly(kinds: map<string, Kind>, running: Running, id: string, answer: StopAnswer)
    requires OnlyTracked(kinds, running)
    ensures var (after, r) := Stop(kinds, running, id, answer); var driver := DriverFromID(id);
      && (forall d, k :: k in At(after, d) <==> k in At(running, d) && !(r.Stopped? && k == id && driver == Some(d)))
      && (r.StopFailed? <==> driver.None? || driver.value !in kinds || answer.Breaks?)
      && (r.NoProcFound? <==> !r.StopFailed? && kinds[driver.value].Tracking? && id !in At(running, driver.value))
  {
    hide DriverFromID;
  }

  /** The driver registered under a type: the last one of that type. */
  function Registered(drivers: seq<Driver>): map<string, Kind>
  {
    if drivers == [] then map[]
    else Registered(drivers[..|drivers| - 1])[drivers[|drivers| - 1].Type() := drivers[|drivers| - 1].kind]
  }

  lemma {:induction false} NoopOnlyAsNoop(drivers: seq<Driver>)
    ensures forall d :: d in Registered(drivers) && Registered(drivers)[d].Noop? ==> d == "noop"
  {
    if drivers != [] {
      NoopOnlyAsNoop(drivers[..|drivers| - 1]);
    }
  }

  /** A type has a driver exactly when some driver answers it. */
  lemma {:induction false} RegisteredExactly(drivers: seq<Driver>, d: string)
    ensures d in Registered(drivers) <==> exists i :: 0 <= i < |drivers| && drivers[i].Type() == d
  {
    if drivers != [] {
      var n := |drivers| - 1;
      RegisteredExactly(drivers[..n], d);
      if i :| 0 <= i < |drivers| && drivers[i].Type() == d {
        assert i < n ==> drivers[..n][i].Type() == d;
      }
      if i :| 0 <= i < n && drivers[..n][i].Type() == d {
        assert drivers[i].Type() == d;
      }
    }
  }

  /** Of several drivers of a type the last is the one registered. */
  lemma {:induction false} LastRegistered(drivers: seq<Driver>, i: nat)
    requires i < |drivers| && forall j :: i < j < |drivers| ==> drivers[j].Type() != drivers[i].Type()
    ensures drivers[i].Type() in Registered(drivers) && Registered(drivers)[drivers[i].Type()] == drivers[i].kind
    decreases |drivers|
  {
    var n := |drivers| - 1;
    if i < n {
      assert drivers[..n][i] == drivers[i];
      LastRegistered(drivers[..n], i);
    }
  }

  /** The drivers the node is started with. */
  const NODE_DRIVERS := [Driver("docker", Tracking), Driver("web", Noop)]

  /** With them a start goes through only for docker and noop apps; a web app finds no driver, because the
      driver built for it answers another type. */
  lemma NodeStartsExactly(running: Running, driver: string, id: string, answer: StartAnswer)
    ensures Start(Registered(NODE_DRIVERS), running, driver, id, answer).Some? <==>
            driver in {"docker", "noop"} && answer.Starts? && id !in At(running, driver)
  {
    assert NODE_DRIVERS[0].Type() == "docker" && NODE_DRIVERS[1].Type() == "noop";
    RegisteredExactly(NODE_DRIVERS, driver);
  }

  /** What the drivers run: only tracking drivers run anything. */
  ghost predicate OnlyTracked(kinds: map<string, Kind>, running: Running)
  {
    forall d :: d in running && running[d] != {} ==> d in kinds && kinds[d].Tracking?
  }

  datatype Wanted = Wanted(id: string, app: Installation)

  /** The app's driver is known, answers a start of the id, and does not run it yet. */
  predicate CanStart(kinds: map<string, Kind>, running: Running, w: Wanted, answers: string -> StartAnswer)
  {
    w.app.driver in kinds && answers(w.id).Starts? && w.id !in At(running, w.app.driver)
  }

  /** The id is to be started at the driver. */
  ghost predicate Asked(order: seq<Wanted>, id: string, driver: string)
  {
    exists w :: w in order && w.id == id && w.app.driver == driver
  }

  lemma OneMoreAsked(order: seq<Wanted>, w: Wanted)
    ensures forall id, d :: Asked(order + [w], id, d) <==> Asked(order, id, d) || (id == w.id && d == w.app.driver)
  {
    forall id, d
      ensures Asked(order + [w], id, d) <==> Asked(order, id, d) || (id == w.id && d == w.app.driver)
    {
      assert w in order + [w] && forall x :: x in order ==> x in order + [w];
      if x :| x in order && x.id == id && x.app.driver == d {
        assert x in order + [w];
      }
    }
  }

  class ProcessManager {
    const kinds: map<string, Kind>
    var running: Running

    ghost predicate Valid()
      reads this
    {
      OnlyTracked(kinds, running)
    }

    constructor (drivers: seq<Driver>)
      ensures kinds == Registered(drivers) && running == map[] && Valid()
    {
      var m: map<string, Kind> := map[];
      for i := 0 to |drivers|
        invariant m == Registered(drivers[..i])
      {
        assert drivers[..i + 1][..i] == drivers[..i];
        m := m[drivers[i].Type() := drivers[i].kind];
      }
      assert drivers[..|drivers|] == drivers;
      kinds := m;
      running := map[];
    }

    method StartProcess(id: string, app: Installation, answer: StartAnswer) returns (ok: bool)
      requires Valid()
      modifies this
      ensures Valid()
      ensures ok <==> Start(kinds, old(running), app.driver, id, answer).Some?
      ensures running == if ok then Start(kinds, old(running), app.driver, id, answer).value else old(running)
      ensures ok <==> app.driver in kinds && answer.Starts? && id !in At(old(running), app.driver)
      ensures forall d, k :: k in At(running, d) <==>
        k in At(old(running), d) || (ok && d == app.driver && k == id && kinds[d].Tracking?)
    {
      StartExactly(kinds, running, app.driver, id, answer);
      if app.driver !in kinds || answer.CannotTell? {
        return false;
      }
      if id in At(running, app.driver) || answer.Refuses? {
        return false;
      }
      if kinds[app.driver].Tracking? {
        running := running[app.driver := At(running, app.driver) + {id}];
      }
      return true;
    }

    method StopProcess(id: string, answer: StopAnswer) returns (r: StopResult)
      requires Valid()
      modifies this
      ensures Valid()
      ensures (running, r) == Stop(kinds, old(running), id, answer)
      ensures forall d, k :: k in At(running, d) <==>
        k in At(old(running), d) && !(r.Stopped? && k == id && DriverFromID(id) == Some(d))
      ensures r.StopFailed? <==> DriverFromID(id).None? || DriverFromID(id).value !in kinds || answer.Breaks?
      ensures r.NoProcFound? <==>
        !r.StopFailed? && kinds[DriverFromID(id).value].Tracking? && id !in At(old(running), DriverFromID(id).value)
    {
      StopExactly(kinds, running, id, answer);
      var driver := DriverFromID(id);
      if driver.None? || driver.value !in kinds || answer.Breaks? {
        return StopFailed;
      }
      if id in At(running, driver.value) {
        running := running[driver.value := running[driver.value] - {id}];
        return Stopped;
      }
      return if kinds[driver.value].Tracking? then NoProcFound else Stopped;
    }

    /** RestoreFromState, for one iteration order of the map and one answer of the driver for each
        id: starts stop at the first refusal, and `n` is how many went through. */
    method RestoreFromState(order: seq<Wanted>, answers: string -> StartAnswer) returns (ok: bool, ghost n: nat)
      requires Valid()
      requires forall i, j :: 0 <= i < j < |order| ==> order[i].id != order[j].id
      modifies this
      ensures Valid()
      ensures n <= |order| && (forall i :: 0 <= i < n ==> CanStart(kinds, old(running), order[i], answers))
      ensures n < |order| ==> !CanStart(kinds, old(running), order[n], answers)
      ensures ok <==> n == |order|
      ensures ok <==> forall w :: w in order ==> CanStart(kinds, old(running), w, answers)
      ensures forall d, id ::
        id in At(running, d) <==> id in At(old(running), d) || (d in kinds && kinds[d].Tracking? && Asked(order[..n], id, d))
    {
      for i := 0 to |order|
        invariant Valid()
        invariant forall j :: 0 <= j < i ==> CanStart(kinds, old(running), order[j], answers)
        invariant forall d, id ::
          id in At(running, d) <==> id in At(old(running), d) || (d in kinds && kinds[d].Tracking? && Asked(order[..i], id, d))
      {
        var w := order[i];
        assert w in order && forall x :: x in order[..i] ==> x.id != w.id;
        assert order[..i + 1] == order[..i] + [w];
        OneMoreAsked(order[..i], w);
        var started := StartProcess(w.id, w.app, answers(w.id));
        if !started {
          return false, i;
        }
      }
      assert order[..|order|] == order;
      return true, |order|;
    }
  }
}

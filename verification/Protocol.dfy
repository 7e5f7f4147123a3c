/** The two stores, the node state and the drivers, under concurrent controller calls. Each database
    proposal and each driver call is one step; the steps of any number of calls interleave freely. */
module Protocol {
  import opened Options
  import opened Json
  import opened State
  import opened Schema
  import opened MigrationRoundTrip
  import opened Transitions
  import opened StepTheorems
  import opened Processes

  /** Where a controller call is. */
  datatype Call =
    | StartRead(appID: string)                                  // startProcess: about to read the state
    | StartPropose(app: Installation, id: string, created: string) // ... transition made, not yet proposed
    | StartDriver(app: Installation, id: string)                // ... recorded, driver not yet called
    | StartRollback(id: string)                                 // ... driver refused, record to be removed
    | StartRules(id: string)                                    // ... driver started, proxy rules left to add
    | StopDriver(id: string)                                    // stopProcess: driver not yet called
    | StopPropose(id: string)                                   // ... driver done, record to be removed
    | InstallBegin(app: Installation, newRules: seq<Rule>, start: bool)
    | InstallPackage(appID: string, start: bool)
    | InstallFinish(appID: string, start: bool)
    | OneProposal(t: Transition)                                // uninstallApp, addUser, migrateDB
    | Done

  datatype System = System(
    node: NodeState,
    running: Running,
    calls: seq<Call>,
    usedIds: set<string>,      // process ids made or named so far
    usedApps: set<string>)     // installation ids made so far

  /** A new call begins, or call `i` takes its next step with the given answers from outside. */
  datatype Event =
    | Spawn(call: Call)
    | Move(i: nat, uuid: string, created: string, starts: StartAnswer, stops: StopAnswer, packageOk: bool)

  predicate OnlyDatabase(t: Transition)
  {
    PlainIds(t) && (t.AddUser? || t.Uninstall? || t.AddRule? || t.Migrate?)
  }

  /** Calls start at their beginning; a stop may name any id. */
  predicate MayBegin(c: Call)
  {
    match c
    case StartRead(_) => true
    case StopDriver(id) => Plain(id)
    case InstallBegin(a, rules, _) => forall i :: 0 <= i < |rules| ==> Plain(rules[i].id)
    case OneProposal(t) => OnlyDatabase(t)
    case _ => false
  }

  /** A proposal whose write succeeds: the update when accepted, nothing otherwise. */
  function Proposed(s: NodeState, t: Transition): NodeState
  {
    if Accepts(t, s) then Update(t, s) else s
  }

  function Moved(x: System, i: nat, c: Call): System
    requires i < |x.calls|
  {
    x.(calls := x.calls[i := c])
  }

  function Spawned(x: System, c: Call): System
  {
    x.(calls := x.calls + [c], usedIds := if c.StopDriver? then x.usedIds + {c.id} else x.usedIds)
  }

  function StartOf(app: Installation, id: string, created: string): Transition
  {
    StartProcess(Some(Process(id, app.id, app.userID, created)))
  }

  /** One event. None: the event cannot happen (a new id is one never made or named before). */
  function Next(kinds: map<string, Kind>, x: System, e: Event): Option<System>
  {
    match e
    case Spawn(c) => if MayBegin(c) then Some(Spawned(x, c)) else None
    case Move(i, uuid, created, starts, stops, packageOk) =>
      if i >= |x.calls| then None
      else
        match x.calls[i]
        case StartRead(appID) =>
          if appID !in Entries(x.node.apps) then Some(Moved(x, i, Done))
          else
            var app := Entries(x.node.apps)[appID];
            var id := NewID(app.driver, uuid);
            if id in x.usedIds || !Plain(id) then None
            else Some(Moved(x, i, StartPropose(app, id, created)).(usedIds := x.usedIds + {id}))
        case StartPropose(app, id, made) =>
          var t := StartOf(app, id, made);
          if Accepts(t, x.node) then Some(Moved(x, i, StartDriver(app, id)).(node := Update(t, x.node)))
          else Some(Moved(x, i, Done))
        case StartDriver(app, id) =>
          var r := Start(kinds, x.running, app.driver, id, starts);
          if r.Some? then Some(Moved(x, i, StartRules(id)).(running := r.value))
          else Some(Moved(x, i, StartRollback(id)))
        case StartRollback(id) =>
          Some(Moved(x, i, Done).(node := Proposed(x.node, StopProcess(id))))
        case StartRules(id) => Some(Moved(x, i, Done))
        case StopDriver(id) =>
          var (running, r) := Stop(kinds, x.running, id, stops);
          Some(Moved(x, i, if r.StopFailed? then Done else StopPropose(id)).(running := running))
        case StopPropose(id) => Some(Moved(x, i, Done).(node := Proposed(x.node, StopProcess(id))))
        case InstallBegin(app, rules, start) =>
          var a := app.(id := uuid, lifecycle := "installing");
          if uuid in x.usedApps || !Plain(uuid) then None
          else
            var t := StartInstallation(a, rules);
            Some(Moved(x, i, if Accepts(t, x.node) then InstallPackage(uuid, start) else Done)
                 .(node := Proposed(x.node, t), usedApps := x.usedApps + {uuid}))
        case InstallPackage(appID, start) =>
          Some(Moved(x, i, if packageOk then InstallFinish(appID, start) else Done))
        case InstallFinish(appID, start) =>
          var t := FinishInstallation(appID);
          Some(Moved(x, i, if Accepts(t, x.node) && start then StartRead(appID) else Done).(node := Proposed(x.node, t)))
        case OneProposal(t) => Some(Moved(x, i, Done).(node := Proposed(x.node, t)))
        case Done => None
  }

  function Run(kinds: map<string, Kind>, x: System, events: seq<Event>): Option<System>
    decreases |events|
  {
    if events == [] then Some(x)
    else
      var y :- Next(kinds, x, events[0]);
      Run(kinds, y, events[1..])
  }

  // ---------------------------------------------------------------- the invariant

  ghost predicate NotRunning(running: Running, id: string)
  {
    forall d :: id !in At(running, d)
  }

  /** Every id a driver runs is recorded in the node state. */
  ghost predicate RunningIsRecorded(x: System)
  {
    forall d, id :: id in At(x.running, d) ==> id in Entries(x.node.processes)
  }

  /** Every running id runs at the driver its text names. */
  ghost predicate RunningWhereNamed(running: Running)
  {
    forall d, id :: id in At(running, d) ==> DriverFromID(id) == Some(d)
  }

  /** A recorded process whose app is present names its app's driver. */
  ghost predicate RecordedNamesDriver(procs: map<string, Process>, apps: map<string, Installation>)
  {
    forall id :: id in procs && procs[id].appID in apps ==> DriverFromID(id) == Some(apps[procs[id].appID].driver)
  }

  ghost predicate NodeOk(node: NodeState, usedIds: set<string>, usedApps: set<string>)
  {
    && Valid(node)
    && (forall k :: k in Entries(node.apps) ==> Entries(node.apps)[k].id == k && k in usedApps)
    && (forall id :: id in Entries(node.processes) ==>
          id in usedIds && Entries(node.processes)[id].appID in usedApps)
    && RecordedNamesDriver(Entries(node.processes), Entries(node.apps))
  }

  ghost predicate RunningOk(kinds: map<string, Kind>, running: Running, processes: map<string, Process>)
  {
    && OnlyTracked(kinds, running)
    && (forall d, id :: id in At(running, d) ==> id in processes)
    && RunningWhereNamed(running)
  }

  ghost predicate SameDriver(apps: map<string, Installation>, app: Installation)
  {
    app.id in apps ==> apps[app.id].driver == app.driver
  }

  /** What holds of a call between its steps. */
  ghost predicate CallOk(kinds: map<string, Kind>, x: System, c: Call)
  {
    match c
    case StartPropose(app, id, _) =>
      && id in x.usedIds && Plain(id)
      && DriverFromID(id) == Some(app.driver)
      && app.id in x.usedApps && SameDriver(Entries(x.node.apps), app)
    case StartDriver(app, id) =>
      && id in x.usedIds && Plain(id)
      && (NamesTracked(kinds, id) ==> id in Entries(x.node.processes))
      && DriverFromID(id) == Some(app.driver) && NotRunning(x.running, id)
    case StartRollback(id) => id in x.usedIds && NotRunning(x.running, id) && Plain(id)
    case StartRules(id) => id in x.usedIds
    case StopDriver(id) => id in x.usedIds && Plain(id)
    case StopPropose(id) => id in x.usedIds && NotRunning(x.running, id) && Plain(id)
    case InstallBegin(a, rules, _) => forall i :: 0 <= i < |rules| ==> Plain(rules[i].id)
    case InstallPackage(appID, _) => Plain(appID)
    case InstallFinish(appID, _) => Plain(appID)
    case OneProposal(t) => OnlyDatabase(t)
    case _ => true
  }

  /** The process id a start call works on. */
  function StartId(c: Call): Option<string>
  {
    match c
    case StartPropose(_, id, _) => Some(id)
    case StartDriver(_, id) => Some(id)
    case StartRollback(id) => Some(id)
    case StartRules(id) => Some(id)
    case _ => None
  }

  /** The process id of a start call that has not called its driver yet. */
  function Undriven(c: Call): Option<string>
  {
    match c
    case StartPropose(_, id, _) => Some(id)
    case StartDriver(_, id) => Some(id)
    case _ => None
  }

  /** A start call of the id has its driver still to call. */
  predicate Starting(calls: seq<Call>, id: string)
  {
    exists i :: 0 <= i < |calls| && Undriven(calls[i]) == Some(id)
  }

  ghost predicate OwnIds(calls: seq<Call>)
  {
    forall i, j :: 0 <= i < j < |calls| && StartId(calls[i]).Some? ==> StartId(calls[i]) != StartId(calls[j])
  }

  /** The driver an id names tracks what it runs; the others run nothing. */
  predicate NamesTracked(kinds: map<string, Kind>, id: string)
  {
    var d := DriverFromID(id);
    d.Some? && d.value in kinds && kinds[d.value].Tracking?
  }

  /** No stop is about to remove the record of an id that a tracking driver is still to start. */
  ghost predicate StopsClear(kinds: map<string, Kind>, calls: seq<Call>)
  {
    forall i :: 0 <= i < |calls| && calls[i].StopPropose? && NamesTracked(kinds, calls[i].id) ==> !Starting(calls, calls[i].id)
  }

  ghost predicate SystemOk(kinds: map<string, Kind>, x: System)
  {
    && NodeOk(x.node, x.usedIds, x.usedApps)
    && RunningOk(kinds, x.running, Entries(x.node.processes))
    && (forall i :: 0 <= i < |x.calls| ==> CallOk(kinds, x, x.calls[i]))
    && OwnIds(x.calls)
    && StopsClear(kinds, x.calls)
  }

  // ---------------------------------------------------------------- what a proposal does

  /** An installed driver is one of the known ones, so ids made for it name it. */
  lemma DriverKnown(s: NodeState, k: string, uuid: string)
    requires Valid(s) && k in Entries(s.apps)
    ensures var d := Entries(s.apps)[k].driver; DriverFromID(NewID(d, uuid)) == Some(d)
  {
    var d := Entries(s.apps)[k].driver;
    assert AppFits(Version(s), s.apps.value[k]);
    IdRoundTrip(d, uuid);
  }

  /** Installations keep their id and driver; a new one appears only by installing it. */
  ghost predicate AppsKept(s: NodeState, r: NodeState, added: set<string>)
  {
    forall k :: k in Entries(r.apps) && k !in added ==>
      k in Entries(s.apps) && Entries(r.apps)[k].driver == Entries(s.apps)[k].driver && Entries(r.apps)[k].id == Entries(s.apps)[k].id
  }

  lemma CarriedAppsKept(a: nat, b: nat, s: NodeState, r: NodeState)
    requires Carries(a, b, s, r)
    ensures AppsKept(s, r, {}) && Entries(r.processes) == Entries(s.processes)
  {
    assert forall k :: k in Entries(r.apps) ==> Entries(r.apps)[k] == CarriedApp(a, b, Entries(s.apps)[k]);
  }

  lemma DatabaseOnly(t: Transition, s: NodeState)
    requires Valid(s) && Accepts(t, s) && (OnlyDatabase(t) || t.FinishInstallation?)
    ensures Entries(Update(t, s).processes) == Entries(s.processes)
    ensures AppsKept(s, Update(t, s), {})
  {
    if t.Migrate? {
      AcceptedCarries(s, t.target);
      CarriedAppsKept(Version(s), SchemaIndex(t.target), s, Update(t, s));
    }
  }

  lemma InstallOnly(a: Installation, rules: seq<Rule>, s: NodeState)
    requires Accepts(StartInstallation(a, rules), s)
    ensures var r := Update(StartInstallation(a, rules), s);
      && Entries(r.processes) == Entries(s.processes)
      && AppsKept(s, r, {a.id})
      && a.id in Entries(r.apps) && Entries(r.apps)[a.id] == a
  {
  }

  lemma StopOnly(id: string, s: NodeState)
    requires Accepts(StopProcess(id), s)
    ensures var r := Update(StopProcess(id), s);
      Entries(r.processes) == Entries(s.processes) - {id} && Entries(r.apps) == Entries(s.apps)
  {
  }

  lemma StartOnly(p: Process, s: NodeState)
    requires Accepts(StartProcess(Some(p)), s)
    ensures var r := Update(StartProcess(Some(p)), s);
      && p.id !in Entries(s.processes)
      && Entries(r.processes) == Entries(s.processes)[p.id := p] && Entries(r.apps) == Entries(s.apps)
      && p.appID in Entries(s.apps)
  {
  }

  lemma ProposedValid(t: Transition, s: NodeState)
    requires Valid(s) && PlainIds(t)
    ensures Valid(Proposed(s, t))
  {
    WrittenStep(t, s);
  }

  // ---------------------------------------------------------------- keeping the invariant

  /** What other calls rely on, apart from the record of one id and whether another begins to run. */
  ghost predicate Undisturbed(x: System, y: System, recorded: Option<string>, ran: Option<string>)
  {
    && x.usedIds <= y.usedIds && x.usedApps <= y.usedApps
    && (forall id :: id in x.usedIds && recorded != Some(id) ==>
          (id in Entries(x.node.processes) <==> id in Entries(y.node.processes)))
    && (forall id :: ran != Some(id) && NotRunning(x.running, id) ==> NotRunning(y.running, id))
    && (forall k :: k in x.usedApps && k in Entries(y.node.apps) ==>
          k in Entries(x.node.apps) && Entries(y.node.apps)[k].driver == Entries(x.node.apps)[k].driver)
  }

  /** A call that relies on neither of the two. */
  ghost predicate Apart(kinds: map<string, Kind>, c: Call, recorded: Option<string>, ran: Option<string>)
  {
    && (c.StartDriver? && NamesTracked(kinds, c.id) ==> recorded != Some(c.id))
    && (c.StartDriver? || c.StartRollback? || c.StopPropose? ==> ran != Some(c.id))
  }

  lemma OthersStayOk(kinds: map<string, Kind>, x: System, y: System, c: Call, recorded: Option<string>, ran: Option<string>)
    requires CallOk(kinds, x, c) && Undisturbed(x, y, recorded, ran) && Apart(kinds, c, recorded, ran)
    ensures CallOk(kinds, y, c)
  {
    hide NotRunning;
    hide Plain;
  }

  /** Replacing one call by its next stage. */
  lemma CallsStayOk(kinds: map<string, Kind>, x: System, y: System, i: nat, c: Call, recorded: Option<string>, ran: Option<string>)
    requires i < |x.calls| && y.calls == x.calls[i := c]
    requires forall j :: 0 <= j < |x.calls| ==> CallOk(kinds, x, x.calls[j])
    requires forall j :: 0 <= j < |x.calls| && j != i ==> Apart(kinds, x.calls[j], recorded, ran)
    requires Undisturbed(x, y, recorded, ran) && CallOk(kinds, y, c)
    ensures forall j :: 0 <= j < |y.calls| ==> CallOk(kinds, y, y.calls[j])
  {
    hide CallOk;
    hide Undisturbed;
    hide Apart;
    forall j | 0 <= j < |x.calls| && j != i
      ensures CallOk(kinds, y, x.calls[j])
    {
      OthersStayOk(kinds, x, y, x.calls[j], recorded, ran);
    }
  }

  lemma AllApartFromNothing(kinds: map<string, Kind>, calls: seq<Call>)
    ensures forall j :: 0 <= j < |calls| ==> Apart(kinds, calls[j], None, None)
  {
  }

  /** The calls besides a start call have nothing to do with its id's record; and unless that start has
      called its driver, none relies on the id not running. */
  lemma OthersApart(kinds: map<string, Kind>, calls: seq<Call>, i: nat, id: string)
    requires i < |calls| && OwnIds(calls) && StopsClear(kinds, calls) && StartId(calls[i]) == Some(id)
    ensures forall j :: 0 <= j < |calls| && j != i ==> Apart(kinds, calls[j], Some(id), None)
    ensures Undriven(calls[i]).Some? && NamesTracked(kinds, id) ==>
      forall j :: 0 <= j < |calls| && j != i ==> Apart(kinds, calls[j], Some(id), Some(id))
  {
    forall j | 0 <= j < |calls| && j != i
      ensures StartId(calls[j]) != Some(id)
    {
      if j < i {
        assert StartId(calls[j]).Some? ==> StartId(calls[j]) != StartId(calls[i]);
      } else {
        assert StartId(calls[i]).Some? ==> StartId(calls[i]) != StartId(calls[j]);
      }
    }
  }

  lemma StopApart(kinds: map<string, Kind>, calls: seq<Call>, i: nat, id: string)
    requires i < |calls| && (NamesTracked(kinds, id) ==> !Starting(calls, id))
    ensures forall j :: 0 <= j < |calls| && j != i ==> Apart(kinds, calls[j], Some(id), None)
  {
    forall j | 0 <= j < |calls| && calls[j].StartDriver? && NamesTracked(kinds, id)
      ensures calls[j].id != id
    {
      assert Undriven(calls[j]) != Some(id);
    }
  }

  /** A call that keeps its id, or has none, leaves ids and stops apart. */
  lemma ShapeStays(kinds: map<string, Kind>, calls: seq<Call>, i: nat, c: Call)
    requires i < |calls| && OwnIds(calls) && StopsClear(kinds, calls)
    requires StartId(c).Some? ==> StartId(c) == StartId(calls[i])
    requires Undriven(c).Some? ==> Undriven(c) == Undriven(calls[i])
    requires c.StopPropose? && NamesTracked(kinds, c.id) ==> !Starting(calls, c.id) && Undriven(calls[i]).None?
    ensures OwnIds(calls[i := c]) && StopsClear(kinds, calls[i := c])
  {
    var after := calls[i := c];
    forall j | 0 <= j < |after| && after[j].StopPropose? && NamesTracked(kinds, after[j].id)
      ensures !Starting(after, after[j].id)
    {
      var id := after[j].id;
      assert j != i ==> after[j] == calls[j];
      assert !Starting(calls, id);
      forall k | 0 <= k < |after|
        ensures Undriven(after[k]) != Some(id)
      {
        assert Undriven(calls[k]) != Some(id);
      }
    }
    forall j, k | 0 <= j < k < |after| && StartId(after[j]).Some?
      ensures StartId(after[j]) != StartId(after[k])
    {
      assert StartId(calls[j]).Some? ==> StartId(calls[j]) != StartId(calls[k]);
    }
  }

  /** A start call that gets an id no other call names. */
  lemma ShapeWithNew(kinds: map<string, Kind>, calls: seq<Call>, i: nat, c: Call, id: string)
    requires i < |calls| && OwnIds(calls) && StopsClear(kinds, calls) && StartId(c) == Some(id) && !c.StopPropose?
    requires forall j :: 0 <= j < |calls| ==> StartId(calls[j]) != Some(id) && (calls[j].StopPropose? ==> calls[j].id != id)
    ensures OwnIds(calls[i := c]) && StopsClear(kinds, calls[i := c])
  {
    var after := calls[i := c];
    forall j | 0 <= j < |after| && after[j].StopPropose? && NamesTracked(kinds, after[j].id)
      ensures !Starting(after, after[j].id)
    {
      assert after[j] == calls[j];
      assert !Starting(calls, after[j].id);
      forall k | 0 <= k < |after|
        ensures Undriven(after[k]) != Some(after[j].id)
      {
        assert Undriven(calls[k]) != Some(after[j].id);
      }
    }
  }

  /** A database step that leaves the processes alone. */
  lemma DatabaseStepOk(kinds: map<string, Kind>, x: System, y: System, i: nat, c: Call, added: set<string>)
    requires SystemOk(kinds, x) && i < |x.calls| && StartId(c).None? && !c.StopPropose?
    requires y == Moved(x, i, c).(node := y.node, usedApps := x.usedApps + added)
    requires added !! x.usedApps && Valid(y.node) && CallOk(kinds, y, c)
    requires Entries(y.node.processes) == Entries(x.node.processes) && AppsKept(x.node, y.node, added)
    requires forall k :: k in added && k in Entries(y.node.apps) ==> Entries(y.node.apps)[k].id == k
    ensures SystemOk(kinds, y)
  {
    hide Valid;
    hide CallOk;
    hide OwnIds;
    hide StopsClear;
    AllApartFromNothing(kinds, x.calls);
    CallsStayOk(kinds, x, y, i, c, None, None);
    ShapeStays(kinds, x.calls, i, c);
  }

  /** A database step that removes at most the record of an id that runs nowhere. */
  lemma RemovalStepOk(kinds: map<string, Kind>, x: System, i: nat, id: string, r: NodeState)
    requires SystemOk(kinds, x) && i < |x.calls| && NotRunning(x.running, id)
    requires forall j :: 0 <= j < |x.calls| && j != i ==> Apart(kinds, x.calls[j], Some(id), None)
    requires Valid(r) && Entries(r.apps) == Entries(x.node.apps)
    requires Entries(r.processes) == Entries(x.node.processes) || Entries(r.processes) == Entries(x.node.processes) - {id}
    ensures SystemOk(kinds, Moved(x, i, Done).(node := r))
  {
    hide Valid;
    hide CallOk;
    hide OwnIds;
    hide StopsClear;
    var y := Moved(x, i, Done).(node := r);
    assert CallOk(kinds, y, Done) by {
      DoneOk(kinds, y);
    }
    CallsStayOk(kinds, x, y, i, Done, Some(id), None);
    ShapeStays(kinds, x.calls, i, Done);
  }

  lemma DoneOk(kinds: map<string, Kind>, y: System)
    ensures CallOk(kinds, y, Done)
  {
  }

  lemma RemovalProposed(s: NodeState, id: string)
    requires Valid(s) && Plain(id)
    ensures var r := Proposed(s, StopProcess(id));
      && Valid(r) && Entries(r.apps) == Entries(s.apps)
      && (Entries(r.processes) == Entries(s.processes) || Entries(r.processes) == Entries(s.processes) - {id})
  {
    ProposedValid(StopProcess(id), s);
    if Accepts(StopProcess(id), s) {
      StopOnly(id, s);
    }
  }

  lemma ReadStepOk(kinds: map<string, Kind>, x: System, i: nat, appID: string, uuid: string, created: string)
    requires SystemOk(kinds, x) && i < |x.calls| && x.calls[i] == StartRead(appID)
    requires appID in Entries(x.node.apps)
    requires var id := NewID(Entries(x.node.apps)[appID].driver, uuid); id !in x.usedIds && Plain(id)
    ensures var app := Entries(x.node.apps)[appID]; var id := NewID(app.driver, uuid);
      SystemOk(kinds, Moved(x, i, StartPropose(app, id, created)).(usedIds := x.usedIds + {id}))
  {
    hide Plain;
    hide NewID;
    hide DriverFromID;
    var app := Entries(x.node.apps)[appID];
    var id := NewID(app.driver, uuid);
    DriverKnown(x.node, appID, uuid);
    hide Valid;
    var c := StartPropose(app, id, created);
    AllApartFromNothing(kinds, x.calls);
    CallsStayOk(kinds, x, Moved(x, i, c).(usedIds := x.usedIds + {id}), i, c, None, None);
    forall j | 0 <= j < |x.calls|
      ensures StartId(x.calls[j]) != Some(id) && (x.calls[j].StopPropose? ==> x.calls[j].id != id)
    {
      assert CallOk(kinds, x, x.calls[j]);
    }
    ShapeWithNew(kinds, x.calls, i, c, id);
  }

  lemma RecordStepOk(kinds: map<string, Kind>, x: System, i: nat, app: Installation, id: string, created: string)
    requires SystemOk(kinds, x) && i < |x.calls| && x.calls[i] == StartPropose(app, id, created)
    requires Accepts(StartOf(app, id, created), x.node)
    ensures SystemOk(kinds, Moved(x, i, StartDriver(app, id)).(node := Update(StartOf(app, id, created), x.node)))
  {
    hide Valid;
    hide OwnIds;
    hide StopsClear;
    hide RunningOk;
    var p := Process(id, app.id, app.userID, created);
    var t := StartOf(app, id, created);
    assert CallOk(kinds, x, x.calls[i]);
    StartOnly(p, x.node);
    ProposedValid(t, x.node);
    hide Accepts;
    hide Update;
    RecordedOk(kinds, x, i, app, id, p, Update(t, x.node));
  }

  lemma RecordedOk(kinds: map<string, Kind>, x: System, i: nat, app: Installation, id: string, p: Process, r: NodeState)
    requires SystemOk(kinds, x) && i < |x.calls| && x.calls[i].StartPropose? && x.calls[i].id == id
    requires x.calls[i].app == app && p.id == id && p.appID == app.id && id !in Entries(x.node.processes)
    requires Valid(r) && Entries(r.apps) == Entries(x.node.apps) && Entries(r.processes) == Entries(x.node.processes)[id := p]
    ensures SystemOk(kinds, Moved(x, i, StartDriver(app, id)).(node := r))
  {
    hide Valid;
    hide Plain;
    hide DriverFromID;
    hide OwnIds;
    hide StopsClear;
    var c := StartDriver(app, id);
    var y := Moved(x, i, c).(node := r);
    assert CallOk(kinds, x, x.calls[i]);
    assert NotRunning(x.running, id);
    OthersApart(kinds, x.calls, i, id);
    CallsStayOk(kinds, x, y, i, c, Some(id), None);
    ShapeStays(kinds, x.calls, i, c);
  }

  /** A driver start adds at most the given id, at the given driver. */
  lemma StartAdds(kinds: map<string, Kind>, running: Running, driver: string, id: string, starts: StartAnswer, processes: map<string, Process>)
    requires RunningOk(kinds, running, processes) && Start(kinds, running, driver, id, starts).Some?
    requires (NamesTracked(kinds, id) ==> id in processes) && DriverFromID(id) == Some(driver)
    ensures var r := Start(kinds, running, driver, id, starts).value;
      && RunningOk(kinds, r, processes)
      && forall k :: (k != id || !NamesTracked(kinds, id)) && NotRunning(running, k) ==> NotRunning(r, k)
  {
    hide DriverFromID;
    var r := Start(kinds, running, driver, id, starts).value;
    assert forall d, k :: k in At(r, d) ==> k in At(running, d) || (k == id && d == driver && NamesTracked(kinds, id));
  }

  lemma DriverStartStepOk(kinds: map<string, Kind>, x: System, i: nat, app: Installation, id: string, starts: StartAnswer)
    requires SystemOk(kinds, x) && i < |x.calls| && x.calls[i] == StartDriver(app, id)
    ensures var r := Start(kinds, x.running, app.driver, id, starts);
      SystemOk(kinds, if r.Some? then Moved(x, i, StartRules(id)).(running := r.value) else Moved(x, i, StartRollback(id)))
  {
    hide NodeOk;
    hide RunningOk;
    hide NotRunning;
    hide Start;
    hide Plain;
    hide DriverFromID;
    hide OwnIds;
    hide StopsClear;
    hide Apart;
    assert CallOk(kinds, x, x.calls[i]);
    OthersApart(kinds, x.calls, i, id);
    var r := Start(kinds, x.running, app.driver, id, starts);
    if r.Some? {
      StartAdds(kinds, x.running, app.driver, id, starts, Entries(x.node.processes));
      var ran := if NamesTracked(kinds, id) then Some(id) else None;
      CallsStayOk(kinds, x, Moved(x, i, StartRules(id)).(running := r.value), i, StartRules(id), Some(id), ran);
      ShapeStays(kinds, x.calls, i, StartRules(id));
    } else {
      CallsStayOk(kinds, x, Moved(x, i, StartRollback(id)), i, StartRollback(id), Some(id), None);
      ShapeStays(kinds, x.calls, i, StartRollback(id));
    }
  }

  /** A driver stop adds nothing; unless it failed, the id runs nowhere afterwards. */
  lemma StopRemoves(kinds: map<string, Kind>, running: Running, id: string, stops: StopAnswer, processes: map<string, Process>)
    requires RunningOk(kinds, running, processes)
    ensures var (r, result) := Stop(kinds, running, id, stops);
      && RunningOk(kinds, r, processes)
      && (forall k :: NotRunning(running, k) ==> NotRunning(r, k))
      && (!result.StopFailed? ==> NotRunning(r, id))
  {
    hide DriverFromID;
    var (r, result) := Stop(kinds, running, id, stops);
    assert forall d, k :: k in At(r, d) ==> k in At(running, d);
    if !result.StopFailed? {
      forall d
        ensures id !in At(r, d)
      {
        assert id in At(running, d) ==> DriverFromID(id) == Some(d);
      }
    }
  }

  lemma DriverStopStepOk(kinds: map<string, Kind>, x: System, i: nat, id: string, stops: StopAnswer)
    requires SystemOk(kinds, x) && i < |x.calls| && x.calls[i] == StopDriver(id)
    requires NamesTracked(kinds, id) ==> !Starting(x.calls, id)
    ensures var (running, r) := Stop(kinds, x.running, id, stops);
      SystemOk(kinds, Moved(x, i, if r.StopFailed? then Done else StopPropose(id)).(running := running))
  {
    hide NodeOk;
    hide RunningOk;
    hide NotRunning;
    hide Stop;
    hide Plain;
    hide OwnIds;
    hide StopsClear;
    hide Starting;
    hide Apart;
    assert CallOk(kinds, x, x.calls[i]);
    var (running, r) := Stop(kinds, x.running, id, stops);
    StopRemoves(kinds, x.running, id, stops, Entries(x.node.processes));
    AllApartFromNothing(kinds, x.calls);
    var c := if r.StopFailed? then Done else StopPropose(id);
    CallsStayOk(kinds, x, Moved(x, i, c).(running := running), i, c, None, None);
    ShapeStays(kinds, x.calls, i, c);
  }

  lemma ShapeSpawned(kinds: map<string, Kind>, calls: seq<Call>, c: Call)
    requires OwnIds(calls) && StopsClear(kinds, calls) && MayBegin(c)
    ensures OwnIds(calls + [c]) && StopsClear(kinds, calls + [c])
  {
    var after := calls + [c];
    forall j | 0 <= j < |after| && after[j].StopPropose? && NamesTracked(kinds, after[j].id)
      ensures !Starting(after, after[j].id)
    {
      assert !Starting(calls, calls[j].id);
      forall k | 0 <= k < |after|
        ensures Undriven(after[k]) != Some(after[j].id)
      {
        assert k < |calls| ==> Undriven(calls[k]) != Some(after[j].id);
      }
    }
  }

  lemma SpawnOk(kinds: map<string, Kind>, x: System, c: Call)
    requires SystemOk(kinds, x) && MayBegin(c)
    ensures SystemOk(kinds, Spawned(x, c))
  {
    var y := Spawned(x, c);
    ShapeSpawned(kinds, x.calls, c);
    hide OwnIds;
    hide StopsClear;
    hide Valid;
    forall j | 0 <= j < |y.calls|
      ensures CallOk(kinds, y, y.calls[j])
    {
      if j < |x.calls| {
        OthersStayOk(kinds, x, y, x.calls[j], None, None);
      }
    }
  }

  lemma InstallStepOk(kinds: map<string, Kind>, x: System, i: nat, app: Installation, rules: seq<Rule>, start: bool, uuid: string)
    requires SystemOk(kinds, x) && i < |x.calls| && x.calls[i] == InstallBegin(app, rules, start)
    requires uuid !in x.usedApps && Plain(uuid)
    ensures var t := StartInstallation(app.(id := uuid, lifecycle := "installing"), rules);
      SystemOk(kinds, Moved(x, i, if Accepts(t, x.node) then InstallPackage(uuid, start) else Done)
               .(node := Proposed(x.node, t), usedApps := x.usedApps + {uuid}))
  {
    hide Valid;
    hide Update;
    hide Accepts;
    var a := app.(id := uuid, lifecycle := "installing");
    var t := StartInstallation(a, rules);
    assert CallOk(kinds, x, x.calls[i]);
    ProposedValid(t, x.node);
    var c := if Accepts(t, x.node) then InstallPackage(uuid, start) else Done;
    var y := Moved(x, i, c).(node := Proposed(x.node, t), usedApps := x.usedApps + {uuid});
    if Accepts(t, x.node) {
      InstallOnly(a, rules, x.node);
    }
    DatabaseStepOk(kinds, x, y, i, c, {uuid});
  }

  lemma PlainProposalOk(kinds: map<string, Kind>, x: System, i: nat, t: Transition, c: Call)
    requires SystemOk(kinds, x) && i < |x.calls|
    requires PlainIds(t) && (OnlyDatabase(t) || t.FinishInstallation?)
    requires c == Done || c.StartRead?
    ensures SystemOk(kinds, Moved(x, i, c).(node := Proposed(x.node, t)))
  {
    hide Valid;
    hide Update;
    hide Accepts;
    ProposedValid(t, x.node);
    if Accepts(t, x.node) {
      DatabaseOnly(t, x.node);
    }
    var y := Moved(x, i, c).(node := Proposed(x.node, t));
    DatabaseStepOk(kinds, x, y, i, c, {});
  }

  lemma IdleStepOk(kinds: map<string, Kind>, x: System, i: nat, c: Call)
    requires SystemOk(kinds, x) && i < |x.calls| && StartId(c).None? && !c.StopPropose? && CallOk(kinds, x, c)
    ensures SystemOk(kinds, Moved(x, i, c))
  {
    hide NodeOk;
    hide RunningOk;
    hide CallOk;
    hide OwnIds;
    hide StopsClear;
    assert CallOk(kinds, Moved(x, i, c), c) by {
      OthersStayOk(kinds, x, Moved(x, i, c), c, None, None);
    }
    AllApartFromNothing(kinds, x.calls);
    CallsStayOk(kinds, x, Moved(x, i, c), i, c, None, None);
    ShapeStays(kinds, x.calls, i, c);
  }

  lemma RollbackStepOk(kinds: map<string, Kind>, x: System, i: nat, id: string)
    requires SystemOk(kinds, x) && i < |x.calls| && x.calls[i] == StartRollback(id)
    ensures SystemOk(kinds, Moved(x, i, Done).(node := Proposed(x.node, StopProcess(id))))
  {
    assert CallOk(kinds, x, x.calls[i]);
    RemovalProposed(x.node, id);
    OthersApart(kinds, x.calls, i, id);
    hide Valid;
    hide Proposed;
    RemovalStepOk(kinds, x, i, id, Proposed(x.node, StopProcess(id)));
  }

  lemma StopProposeStepOk(kinds: map<string, Kind>, x: System, i: nat, id: string)
    requires SystemOk(kinds, x) && i < |x.calls| && x.calls[i] == StopPropose(id)
    ensures SystemOk(kinds, Moved(x, i, Done).(node := Proposed(x.node, StopProcess(id))))
  {
    assert CallOk(kinds, x, x.calls[i]);
    RemovalProposed(x.node, id);
    assert NamesTracked(kinds, id) ==> !Starting(x.calls, id);
    StopApart(kinds, x.calls, i, id);
    hide Valid;
    hide Proposed;
    hide CallOk;
    RemovalStepOk(kinds, x, i, id, Proposed(x.node, StopProcess(id)));
  }

  lemma CallIsOk(kinds: map<string, Kind>, x: System, i: nat)
    requires SystemOk(kinds, x) && i < |x.calls|
    ensures CallOk(kinds, x, x.calls[i])
  {
  }

  // ---------------------------------------------------------------- when stops are safe

  /** The guard: a stop of an id that names a tracking driver calls it only when no start call of the same
      id has its driver still to call. Any id may be named, recorded or not. */
  predicate Guarded(kinds: map<string, Kind>, x: System, e: Event)
  {
    e.Move? && e.i < |x.calls| && x.calls[e.i].StopDriver? && NamesTracked(kinds, x.calls[e.i].id) ==>
      !Starting(x.calls, x.calls[e.i].id)
  }

  predicate GuardedRun(kinds: map<string, Kind>, x: System, events: seq<Event>)
    decreases |events|
  {
    events != [] ==>
      && Guarded(kinds, x, events[0])
      && var y := Next(kinds, x, events[0]);
      && (y.Some? ==> GuardedRun(kinds, y.value, events[1..]))
  }

  /** Every guarded step of every call keeps the invariant. */
  lemma NextOk(kinds: map<string, Kind>, x: System, e: Event)
    requires SystemOk(kinds, x) && Next(kinds, x, e).Some? && Guarded(kinds, x, e)
    ensures SystemOk(kinds, Next(kinds, x, e).value)
  {
    hide SystemOk;
    match e
    case Spawn(c) => SpawnOk(kinds, x, c);
    case Move(i, uuid, created, starts, stops, packageOk) =>
      CallIsOk(kinds, x, i);
      match x.calls[i]
      case StartRead(appID) =>
        if appID in Entries(x.node.apps) {
          ReadStepOk(kinds, x, i, appID, uuid, created);
        } else {
          IdleStepOk(kinds, x, i, Done);
        }
      case StartPropose(app, id, made) =>
        if Accepts(StartOf(app, id, made), x.node) {
          RecordStepOk(kinds, x, i, app, id, made);
        } else {
          IdleStepOk(kinds, x, i, Done);
        }
      case StartDriver(app, id) => DriverStartStepOk(kinds, x, i, app, id, starts);
      case StartRollback(id) => RollbackStepOk(kinds, x, i, id);
      case StartRules(id) => IdleStepOk(kinds, x, i, Done);
      case StopDriver(id) => DriverStopStepOk(kinds, x, i, id, stops);
      case StopPropose(id) => StopProposeStepOk(kinds, x, i, id);
      case InstallBegin(app, rules, start) => InstallStepOk(kinds, x, i, app, rules, start, uuid);
      case InstallPackage(appID, start) =>
        IdleStepOk(kinds, x, i, if packageOk then InstallFinish(appID, start) else Done);
      case InstallFinish(appID, start) =>
        var t := FinishInstallation(appID);
        PlainProposalOk(kinds, x, i, t, if Accepts(t, x.node) && start then StartRead(appID) else Done);
      case OneProposal(t) => PlainProposalOk(kinds, x, i, t, Done);
  }

  // ---------------------------------------------------------------- over whole runs

  /** A system no call has touched yet: the node is valid, what runs is recorded and named right, and
      the ids in use are those of the state. */
  ghost predicate Initial(kinds: map<string, Kind>, x: System)
  {
    && x.calls == []
    && NodeOk(x.node, x.usedIds, x.usedApps)
    && RunningOk(kinds, x.running, Entries(x.node.processes))
  }

  lemma InitialOk(kinds: map<string, Kind>, x: System)
    requires Initial(kinds, x)
    ensures SystemOk(kinds, x)
  {
  }

  lemma {:induction false} RunOk(kinds: map<string, Kind>, x: System, events: seq<Event>)
    requires SystemOk(kinds, x) && GuardedRun(kinds, x, events) && Run(kinds, x, events).Some?
    ensures SystemOk(kinds, Run(kinds, x, events).value)
    decreases |events|
  {
    hide SystemOk;
    hide Next;
    hide Guarded;
    if events != [] {
      NextOk(kinds, x, events[0]);
      RunOk(kinds, Next(kinds, x, events[0]).value, events[1..]);
    }
  }

  /** Two-store ordering. Whatever calls are made and however their steps interleave, as long as stops
      are guarded, at every point every id a driver runs is recorded in the node state. */
  lemma RunningAlwaysRecorded(kinds: map<string, Kind>, x: System, events: seq<Event>)
    requires Initial(kinds, x) && GuardedRun(kinds, x, events) && Run(kinds, x, events).Some?
    ensures RunningIsRecorded(Run(kinds, x, events).value)
  {
    RunOk(kinds, x, events);
  }

  /** Driver routing. At every point of every such run, a stop or is-running call on a recorded process
      whose app is present goes to the app's driver, and an id runs at no other driver. */
  lemma CallsReachTheStarter(kinds: map<string, Kind>, x: System, events: seq<Event>, id: string)
    requires Initial(kinds, x) && GuardedRun(kinds, x, events) && Run(kinds, x, events).Some?
    ensures var y := Run(kinds, x, events).value; var procs, apps := Entries(y.node.processes), Entries(y.node.apps);
      id in procs && procs[id].appID in apps ==>
        && DriverFromID(id) == Some(apps[procs[id].appID].driver)
        && forall d :: id in At(y.running, d) ==> d == apps[procs[id].appID].driver
  {
    hide Next;
    hide Initial;
    hide Valid;
    hide CallOk;
    hide OwnIds;
    hide StopsClear;
    hide DriverFromID;
    InitialOk(kinds, x);
    RunOk(kinds, x, events);
  }
}

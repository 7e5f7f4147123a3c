/** The controller's calls, one at a time, over the database, the drivers and the proxy rules. */
module Controller {
  import opened Options
  import opened Json
  import opened State
  import opened Schema
  import opened Transitions
  import opened Refinement
  import opened Batch
  import opened Invariants
  import opened Processes
  import opened ReverseProxy
  import opened AppRules
  import Semver

  // ---------------------------------------------------------------- what the calls leave

  /** What fileDB keeps after proposing one transition, given whether its write succeeds. */
  function Kept(doc: Json, t: Transition, writeOk: bool): Json
  {
    var r := ProposeOne(t, doc);
    if r.Some? && writeOk then r.value else doc
  }

  /** The transition startProcess makes from the state it read; none when the app is missing. */
  function StartTransition(doc: Json, appID: string, uuid: string, created: string): Option<Process>
  {
    var s :- Decode(doc);
    if appID !in Entries(s.apps) then None
    else
      var app := Entries(s.apps)[appID];
      Some(Process(NewID(app.driver, uuid), app.id, app.userID, created))
  }

  /** Whether the record is proposed successfully. */
  predicate StartAccepted(doc: Json, appID: string, uuid: string, created: string)
  {
    var p := StartTransition(doc, appID, uuid, created);
    p.Some? && ProposeOne(StartProcess(p), doc).Some?
  }

  function DriverOf(doc: Json, appID: string): string
  {
    if Decode(doc).Some? && appID in Entries(Decode(doc).value.apps) then Entries(Decode(doc).value.apps)[appID].driver else ""
  }

  /** The document and the running processes after startProcess; `write1` and `write2` are whether
      the writes of the record and of the rollback succeed. */
  function AfterStart(doc: Json, kinds: map<string, Kind>, running: Running, appID: string, uuid: string, created: string,
                      answer: StartAnswer, write1: bool, write2: bool): (Json, Running)
  {
    if !StartAccepted(doc, appID, uuid, created) then (doc, running)
    else
      var p := StartTransition(doc, appID, uuid, created);
      var recorded := Kept(doc, StartProcess(p), write1);
      var r := Start(kinds, running, DriverOf(doc, appID), p.value.id, answer);
      if r.Some? then (recorded, r.value) else (Kept(recorded, StopProcess(p.value.id), write2), running)
  }

  /** The call gets as far as the driver, and the driver starts the process. */
  predicate DriverStarts(doc: Json, kinds: map<string, Kind>, running: Running, appID: string, uuid: string, created: string,
                         answer: StartAnswer)
  {
    && StartAccepted(doc, appID, uuid, created)
    && Start(kinds, running, DriverOf(doc, appID), StartTransition(doc, appID, uuid, created).value.id, answer).Some?
  }

  /** When startProcess reports an error: the record is refused, or the rollback is. A driver that
      refuses is not reported when the rollback goes through. */
  predicate StartReportsError(doc: Json, kinds: map<string, Kind>, running: Running, appID: string, uuid: string,
                              created: string, answer: StartAnswer, write1: bool)
  {
    if !StartAccepted(doc, appID, uuid, created) then true
    else
      var p := StartTransition(doc, appID, uuid, created);
      && !DriverStarts(doc, kinds, running, appID, uuid, created, answer)
      && ProposeOne(StopProcess(p.value.id), Kept(doc, StartProcess(p), write1)).None?
  }

  /** Failed start rolls back exactly: when the driver does not start the process and the writes
      succeed, the whole document and the running processes are as before. */
  lemma FailedStartRollsBack(doc: Json, kinds: map<string, Kind>, running: Running, appID: string, uuid: string,
                             created: string, answer: StartAnswer)
    requires ValidateState(doc) && Plain(NewID(DriverOf(doc, appID), uuid))
    requires Start(kinds, running, DriverOf(doc, appID), NewID(DriverOf(doc, appID), uuid), answer).None?
    ensures AfterStart(doc, kinds, running, appID, uuid, created, answer, true, true) == (doc, running)
  {
    if StartAccepted(doc, appID, uuid, created) {
      StopUndoesStart(doc, StartTransition(doc, appID, uuid, created).value);
    }
  }

  ghost predicate Runs(running: Running, id: string)
  {
    exists d :: id in At(running, d)
  }

  predicate Recorded(doc: Json, id: string)
  {
    Decode(doc).Some? && id in Entries(Decode(doc).value.processes)
  }

  lemma StartedRuns(kinds: map<string, Kind>, running: Running, driver: string, id: string, answer: StartAnswer)
    requires driver in kinds && kinds[driver].Tracking? && !Runs(running, id)
    ensures var r := Start(kinds, running, driver, id, answer);
      (r.Some? <==> answer.Starts?) && (r.Some? ==> Runs(r.value, id))
  {
    assert id !in At(running, driver);
    if answer.Starts? {
      assert id in At(Start(kinds, running, driver, id, answer).value, driver);
    }
  }

  lemma RecordedAfter(doc: Json, p: Process, writeOk: bool)
    requires ValidateState(doc) && Plain(p.id) && ProposeOne(StartProcess(Some(p)), doc).Some?
    ensures !Recorded(doc, p.id)
    ensures Recorded(Kept(doc, StartProcess(Some(p)), writeOk), p.id) <==> writeOk
  {
    StartProcessStep(doc, p);
  }

  /** A lost write, exactly: a new id of a tracking driver runs unrecorded after startProcess exactly
      when its record was accepted, the driver started it, and the write of the record failed. */
  lemma LostWriteRunsUnrecorded(doc: Json, kinds: map<string, Kind>, running: Running, appID: string, uuid: string,
                                created: string, answer: StartAnswer, write1: bool, write2: bool)
    requires ValidateState(doc)
    requires var d := DriverOf(doc, appID);
      d in kinds && kinds[d].Tracking? && !Runs(running, NewID(d, uuid)) && Plain(NewID(d, uuid))
    ensures var (next, after) := AfterStart(doc, kinds, running, appID, uuid, created, answer, write1, write2);
      var id := NewID(DriverOf(doc, appID), uuid);
      Runs(after, id) && !Recorded(next, id) <==>
      StartAccepted(doc, appID, uuid, created) && answer.Starts? && !write1
  {
    hide ValidateState;
    hide ProposeOne;
    hide Recorded;
    hide Runs;
    hide Start;
    hide Kept;
    hide Decode;
    var d := DriverOf(doc, appID);
    StartedRuns(kinds, running, d, NewID(d, uuid), answer);
    if StartAccepted(doc, appID, uuid, created) {
      RecordedAfter(doc, StartTransition(doc, appID, uuid, created).value, write1);
    }
  }

  lemma StopRefused(doc: Json, id: string)
    requires ValidateState(doc) && Plain(id) && !Recorded(doc, id)
    ensures ProposeOne(StopProcess(id), doc).None?
  {
    StopProcessStep(doc, id);
  }

  /** A driver that does not start an accepted process is reported exactly when the record was not
      written, because then the rollback is refused; after a rollback that goes through it is not. */
  lemma RefusedStartReported(doc: Json, kinds: map<string, Kind>, running: Running, appID: string, uuid: string,
                             created: string, answer: StartAnswer, write1: bool)
    requires ValidateState(doc) && StartAccepted(doc, appID, uuid, created)
    requires Plain(NewID(DriverOf(doc, appID), uuid))
    requires !DriverStarts(doc, kinds, running, appID, uuid, created, answer)
    ensures StartReportsError(doc, kinds, running, appID, uuid, created, answer, write1) <==> !write1
  {
    hide ValidateState;
    hide ProposeOne;
    hide Recorded;
    hide Start;
    hide Decode;
    var p := StartTransition(doc, appID, uuid, created).value;
    RecordedAfter(doc, p, write1);
    if write1 {
      StopUndoesStart(doc, p);
    } else {
      StopRefused(doc, p.id);
    }
  }

  /** A refused start whose rollback is not written leaves the record, and what runs is as before. */
  lemma FailedRollbackLeavesRecord(doc: Json, kinds: map<string, Kind>, running: Running, appID: string, uuid: string,
                                   created: string, answer: StartAnswer)
    requires ValidateState(doc) && StartAccepted(doc, appID, uuid, created)
    requires Plain(NewID(DriverOf(doc, appID), uuid))
    requires !DriverStarts(doc, kinds, running, appID, uuid, created, answer)
    ensures var (next, after) := AfterStart(doc, kinds, running, appID, uuid, created, answer, true, false);
      after == running && Recorded(next, NewID(DriverOf(doc, appID), uuid))
  {
    hide ValidateState;
    hide ProposeOne;
    hide Recorded;
    hide Start;
    hide Decode;
    RecordedAfter(doc, StartTransition(doc, appID, uuid, created).value, true);
  }

  /** On the node a web app never starts: its record is written and taken back, nothing runs that did not
      run before, and no error is reported. */
  lemma WebAppNeverStarts(doc: Json, running: Running, appID: string, uuid: string, created: string, answer: StartAnswer)
    requires ValidateState(doc) && StartAccepted(doc, appID, uuid, created)
    requires DriverOf(doc, appID) == "web" && Plain(NewID("web", uuid))
    ensures AfterStart(doc, Registered(NODE_DRIVERS), running, appID, uuid, created, answer, true, true) == (doc, running)
    ensures !StartReportsError(doc, Registered(NODE_DRIVERS), running, appID, uuid, created, answer, true)
  {
    hide ValidateState;
    hide ProposeOne;
    hide Start;
    hide Registered;
    hide Decode;
    NodeStartsExactly(running, "web", NewID("web", uuid), answer);
    FailedStartRollsBack(doc, Registered(NODE_DRIVERS), running, appID, uuid, created, answer);
    RefusedStartReported(doc, Registered(NODE_DRIVERS), running, appID, uuid, created, answer, true);
  }

  /** The driver starts the process exactly when the record was accepted, the app's driver is known, starts
      it and does not run the id yet. */
  lemma DriverStartsExactly(doc: Json, kinds: map<string, Kind>, running: Running, appID: string, uuid: string,
                            created: string, answer: StartAnswer)
    ensures var d := DriverOf(doc, appID);
      DriverStarts(doc, kinds, running, appID, uuid, created, answer) <==>
      StartAccepted(doc, appID, uuid, created) && d in kinds && answer.Starts? && NewID(d, uuid) !in At(running, d)
  {
    hide ProposeOne;
    hide Decode;
    StartExactly(kinds, running, DriverOf(doc, appID), NewID(DriverOf(doc, appID), uuid), answer);
  }

  /** A start that went through with its write: the record is added with the app's id and owner, everything
      else in the state is as before, and the process runs at the app's driver, if that tracks. */
  lemma StartedLeaves(doc: Json, kinds: map<string, Kind>, running: Running, appID: string, uuid: string,
                      created: string, answer: StartAnswer, write2: bool)
    requires ValidateState(doc) && Plain(NewID(DriverOf(doc, appID), uuid))
    requires DriverStarts(doc, kinds, running, appID, uuid, created, answer)
    ensures var s := Decode(doc).value; var app := Entries(s.apps)[appID]; var id := NewID(app.driver, uuid);
      var (next, after) := AfterStart(doc, kinds, running, appID, uuid, created, answer, true, write2);
      && Decode(next) == Some(s.(processes := Some(Entries(s.processes)[id := Process(id, app.id, app.userID, created)])))
      && (forall d, k :: k in At(after, d) <==> k in At(running, d) || (d == app.driver && k == id && kinds[d].Tracking?))
      && !StartReportsError(doc, kinds, running, appID, uuid, created, answer, true)
  {
    var s := Decode(doc).value;
    var p := StartTransition(doc, appID, uuid, created).value;
    StartExactly(kinds, running, DriverOf(doc, appID), p.id, answer);
    StartedRecord(doc, p);
    hide ProposeOne;
    hide Start;
    hide Decode;
    hide ValidateState;
  }

  lemma StartedRecord(doc: Json, p: Process)
    requires ValidateState(doc) && Plain(p.id) && ProposeOne(StartProcess(Some(p)), doc).Some?
    ensures var s := Decode(doc).value;
      Decode(ProposeOne(StartProcess(Some(p)), doc).value) == Some(s.(processes := Some(Entries(s.processes)[p.id := p])))
  {
    StartProcessStep(doc, p);
  }

  /** Removing a record: exactly that one goes, when it was there and the write succeeds. */
  lemma StopLeaves(doc: Json, id: string, writeOk: bool)
    requires ValidateState(doc) && Plain(id)
    ensures var s := Decode(doc).value; var next := Kept(doc, StopProcess(id), writeOk);
      && (ProposeOne(StopProcess(id), doc).Some? <==> Recorded(doc, id))
      && Decode(next) == Some(if Recorded(doc, id) && writeOk then s.(processes := Some(Entries(s.processes) - {id})) else s)
  {
    StopProcessStep(doc, id);
  }

  /** A failed driver keeps everything and is reported; otherwise a missing record is reported, and a present one
      goes if the write succeeds. */
  ghost predicate StopOutcome(doc: Json, next: Json, id: string, failed: bool, writeOk: bool, err: bool)
  {
    && (err <==> failed || !Recorded(doc, id))
    && (failed || !Recorded(doc, id) || !writeOk ==> next == doc)
    && (!err && writeOk ==>
          && Decode(doc).Some?
          && Decode(next) == Some(Decode(doc).value.(processes := Some(Entries(Decode(doc).value.processes) - {id}))))
  }

  /** Uninstalling: exactly that entry goes, when it was there and the write succeeds. */
  lemma UninstallLeaves(doc: Json, id: string, writeOk: bool)
    requires ValidateState(doc) && Plain(id)
    ensures var s := Decode(doc).value; var next := Kept(doc, Uninstall(id), writeOk); var present := id in Entries(s.apps);
      && (ProposeOne(Uninstall(id), doc).Some? <==> present)
      && Decode(next) == Some(if present && writeOk then s.(apps := Some(Entries(s.apps) - {id})) else s)
  {
    UninstallStep(doc, id);
  }

  /** The rules recorded in a document. */
  function StoredRules(doc: Json): map<string, Rule>
  {
    if Decode(doc).Some? then Entries(Decode(doc).value.rules) else map[]
  }

  /** The id under which an installed app's rules are recorded. */
  function StoredId(doc: Json, appID: string): string
  {
    if Decode(doc).Some? && appID in Entries(Decode(doc).value.apps) then Entries(Decode(doc).value.apps)[appID].id else ""
  }

  /** What a start may and must do to the proxy rules: nothing unless the driver started the process; else only
      rules stored for the app are added, and every one of them when none is refused. */
  ghost predicate RulesFollow(started: bool, before: map<string, Rule>, after: map<string, Rule>, stored: map<string, Rule>, appID: string)
  {
    if !started then after == before
    else
      && OnlyAppRulesAdded(before, after, stored, appID)
      && (AppRulesFree(before, stored, appID) ==>
            forall k :: k in stored && stored[k].appID == appID ==> stored[k].id in after && after[stored[k].id] == stored[k])
  }

  /** A way to iterate over every map. */
  ghost predicate Orders(order: set<string> -> seq<string>)
  {
    forall ks :: IsOrder(order(ks), ks)
  }

  class Controller {
    const db: FileDB
    const pm: ProcessManager
    const proxy: RuleSet

    constructor (db: FileDB, pm: ProcessManager, proxy: RuleSet)
      ensures this.db == db && this.pm == pm && this.proxy == proxy
    {
      this.db, this.pm, this.proxy := db, pm, proxy;
    }

    ghost predicate Valid()
      reads this, db, pm, proxy
    {
      db.Valid() && pm.Valid() && proxy.Valid()
    }

    method ProposeSingle(t: Transition, writeOk: bool, torn: Json) returns (ok: bool)
      requires db.Valid()
      modifies db
      ensures db.Valid()
      ensures ok <==> ProposeOne(t, old(db.state)).Some?
      ensures db.state == Kept(old(db.state), t, writeOk)
    {
      var r := db.ProposeTransitions([t], writeOk, torn);
      assert [t][1..] == [];
      assert ProposeOne(t, old(db.state)).Some? ==> Propose(ProposeOne(t, old(db.state)).value, []) == ProposeOne(t, old(db.state));
      ok := r.Some?;
    }

    /** The returned flag is whether an error is reported: after a rollback that goes through none
        is, and none when a proxy rule is refused. */
    method StartProcess(appID: string, uuid: string, created: string, answer: StartAnswer,
                        write1: bool, write2: bool, torn: Json, order: set<string> -> seq<string>)
      returns (err: bool)
      requires Valid() && Orders(order)
      modifies db, pm, proxy
      ensures Valid()
      ensures (db.state, pm.running) ==
              AfterStart(old(db.state), pm.kinds, old(pm.running), appID, uuid, created, answer, write1, write2)
      ensures err <==> StartReportsError(old(db.state), pm.kinds, old(pm.running), appID, uuid, created, answer, write1)
      ensures var started := DriverStarts(old(db.state), pm.kinds, old(pm.running), appID, uuid, created, answer);
        var stored, id := StoredRules(db.state), StoredId(old(db.state), appID);
        && (started ==>
              && Decode(db.state).Some? && stored == Entries(Decode(db.state).value.rules)
              && Decode(old(db.state)).Some? && appID in Entries(Decode(old(db.state)).value.apps)
              && id == Entries(Decode(old(db.state)).value.apps)[appID].id)
        && (started ==> !err)
        && (!started ==> proxy.rules == old(proxy.rules) && pm.running == old(pm.running))
        && (started ==> OnlyAppRulesAdded(old(proxy.rules), proxy.rules, stored, id))
        && (started && AppRulesFree(old(proxy.rules), stored, id) ==>
              forall k :: k in stored && stored[k].appID == id ==> stored[k].id in proxy.rules && proxy.rules[stored[k].id] == stored[k])
        && (started ==> proxy.rules == RulesAdded(old(proxy.rules), stored, order(stored.Keys), id))
    {
      hide ValidateState;
      hide ProposeOne;
      hide Start;
      hide Decode;
      hide RulesAdded;
      var s := db.State();
      if appID !in Entries(s.value.apps) {
        return true;
      }
      var app := Entries(s.value.apps)[appID];
      var id := NewID(app.driver, uuid);
      var p := Process(id, app.id, app.userID, created);
      assert StartTransition(db.state, appID, uuid, created) == Some(p);
      var recorded := ProposeSingle(Transition.StartProcess(Some(p)), write1, torn);
      if !recorded {
        return true;
      }
      var started := pm.StartProcess(id, app, answer);
      if !started {
        var rolledBack := ProposeSingle(Transition.StopProcess(id), write2, torn);
        return !rolledBack;
      }
      var newState := db.State();
      var stored := Entries(newState.value.rules);
      AddAppRules(proxy, stored, order(stored.Keys), app.id);
      AddedInAnyOrder(old(proxy.rules), stored, order(stored.Keys), app.id);
      return false;
    }

    /** When the driver has no such process the record is still removed; any other failure of the
        driver keeps it. */
    method StopProcess(id: string, answer: StopAnswer, writeOk: bool, torn: Json) returns (err: bool)
      requires Valid()
      modifies db, pm
      ensures Valid()
      ensures var (running, r) := Stop(pm.kinds, old(pm.running), id, answer);
        && pm.running == running
        && db.state == (if r.StopFailed? then old(db.state) else Kept(old(db.state), Transition.StopProcess(id), writeOk))
        && (err <==> r.StopFailed? || ProposeOne(Transition.StopProcess(id), old(db.state)).None?)
      ensures var failed := DriverFromID(id).None? || DriverFromID(id).value !in pm.kinds || answer.Breaks?;
        && (forall d, k :: k in At(pm.running, d) <==>
              k in At(old(pm.running), d) && (failed || k != id || DriverFromID(id) != Some(d)))
        && (Plain(id) ==> StopOutcome(old(db.state), db.state, id, failed, writeOk, err))
    {
      hide ProposeOne;
      hide ValidateState;
      hide Stop;
      if Plain(id) {
        StopLeaves(db.state, id, writeOk);
      }
      var r := pm.StopProcess(id, answer);
      if r.StopFailed? {
        return true;
      }
      var ok := ProposeSingle(Transition.StopProcess(id), writeOk, torn);
      return !ok;
    }

    method UninstallApp(appID: string, writeOk: bool, torn: Json) returns (err: bool)
      requires Valid()
      modifies db
      ensures Valid()
      ensures db.state == Kept(old(db.state), Uninstall(appID), writeOk)
      ensures err <==> ProposeOne(Uninstall(appID), old(db.state)).None?
    {
      var ok := ProposeSingle(Uninstall(appID), writeOk, torn);
      return !ok;
    }

    /** Installing: the entry is recorded as installing, the package is installed, the entry is
        finished, and the app may be started. A package that fails to install leaves its entry. */
    method InstallApp(app: Installation, newRules: seq<Rule>, id: string, installerKnown: bool, packageOk: bool,
                      start: bool, uuid: string, created: string, answer: StartAnswer,
                      begunOk: bool, finishedOk: bool, write1: bool, write2: bool, torn: Json, order: set<string> -> seq<string>)
      returns (err: bool)
      requires Valid() && Orders(order)
      modifies db, pm, proxy
      ensures Valid()
      ensures var t := StartInstallation(app.(id := id, lifecycle := "installing"), newRules);
        var begun := Kept(old(db.state), t, begunOk);
        var finished := Kept(begun, FinishInstallation(id), finishedOk);
        if !installerKnown || ProposeOne(t, old(db.state)).None? then
          err && db.state == old(db.state) && pm.running == old(pm.running) && proxy.rules == old(proxy.rules)
        else if !packageOk || ProposeOne(FinishInstallation(id), begun).None? then
          err && db.state == begun && pm.running == old(pm.running) && proxy.rules == old(proxy.rules)
        else if !start then
          !err && db.state == finished && pm.running == old(pm.running) && proxy.rules == old(proxy.rules)
        else
          && (db.state, pm.running) == AfterStart(finished, pm.kinds, old(pm.running), id, uuid, created, answer, write1, write2)
          && (err <==> StartReportsError(finished, pm.kinds, old(pm.running), id, uuid, created, answer, write1))
          && RulesFollow(DriverStarts(finished, pm.kinds, old(pm.running), id, uuid, created, answer),
                         old(proxy.rules), proxy.rules, StoredRules(db.state), StoredId(finished, id))
    {
      if !installerKnown {
        return true;
      }
      var t := StartInstallation(app.(id := id, lifecycle := "installing"), newRules);
      var ok := ProposeSingle(t, begunOk, torn);
      if !ok || !packageOk {
        return true;
      }
      ok := ProposeSingle(FinishInstallation(id), finishedOk, torn);
      if !ok {
        return true;
      }
      if start {
        err := StartProcess(id, uuid, created, answer, write1, write2, torn, order);
        return;
      }
      return false;
    }

    /** migrateDB: nothing happens when the version compares equal to the target. */
    method MigrateDB(target: string, writeOk: bool, torn: Json) returns (err: bool)
      requires Valid()
      modifies db
      ensures Valid()
      ensures var same := Semver.Compare(Decode(old(db.state)).value.schemaVersion, target) == 0;
        && db.state == (if same then old(db.state) else Kept(old(db.state), Migrate(target), writeOk))
        && (err <==> !same && ProposeOne(Migrate(target), old(db.state)).None?)
    {
      var s := db.State();
      if Semver.Compare(s.value.schemaVersion, target) == 0 {
        return false;
      }
      var ok := ProposeSingle(Migrate(target), writeOk, torn);
      return !ok;
    }

    /** restore, for package managers that succeed or fail and one answer of the drivers for each id.
        With keys equal to ids it succeeds exactly when the packages do, every process's app is present and
        every start can be carried out. It only ever adds recorded processes at their apps' tracking
        drivers, and success from nothing running leaves all of them running. */
    method Restore(s: NodeState, packagesOk: bool, answers: string -> StartAnswer) returns (ok: bool)
      requires Valid()
      modifies pm, proxy
      ensures Valid()
      ensures ok && IdsAreKeys(Entries(s.processes)) && NothingRuns(old(pm.running)) ==>
        RunsExactly(pm.kinds, pm.running, Entries(s.processes), Entries(s.apps))
      ensures var procs, apps := Entries(s.processes), Entries(s.apps);
        && (ok ==> packagesOk && AppsPresent(procs, apps))
        && (!packagesOk || !AppsPresent(procs, apps) ==> pm.running == old(pm.running))
        && (IdsAreKeys(procs) ==>
              && (ok <==> packagesOk && AppsPresent(procs, apps) && AllStart(procs, apps, pm.kinds, old(pm.running), answers))
              && OnlyRecordedAdded(pm.kinds, old(pm.running), pm.running, procs, apps))
      ensures if packagesOk then RulesTaken(old(proxy.rules), proxy.rules, Entries(s.rules)) else proxy.rules == old(proxy.rules)
    {
      hide RulesTaken;
      if !packagesOk {
        return false;
      }
      AddAllRules(Entries(s.rules));
      var procs, apps := Entries(s.processes), Entries(s.apps);
      var info := CollectProcesses(procs, apps);
      if info.None? {
        return false;
      }
      var order := Ordered(info.value);
      ghost var n;
      ok, n := pm.RestoreFromState(order, answers);
      if IdsAreKeys(procs) {
        RestoredAsRecorded(procs, apps, info.value, order);
        AllStartInOrder(procs, apps, order, pm.kinds, old(pm.running), answers);
        FirstAsRecorded(procs, apps, order, n);
        assert order[..|order|] == order;
      }
    }

    /** The rule loop of restore goes on past rules that are refused. */
    method AddAllRules(rules: map<string, Rule>)
      requires proxy.Valid()
      modifies proxy
      ensures proxy.Valid()
      ensures RulesTaken(old(proxy.rules), proxy.rules, rules)
    {
      var left := rules.Keys;
      while left != {}
        invariant proxy.Valid() && left <= rules.Keys
        invariant forall k :: k in old(proxy.rules) ==> k in proxy.rules && proxy.rules[k] == old(proxy.rules)[k]
        invariant forall k :: k in rules && k !in left && rules[k].ruleType in SUPPORTED ==> rules[k].id in proxy.rules
        invariant forall k :: k in proxy.rules && k !in old(proxy.rules) ==> Supplied(rules, k, proxy.rules[k])
        decreases |left|
      {
        var k :| k in left;
        left := left - {k};
        var _ := proxy.AddRule(rules[k]);
      }
    }
  }

  /** `rule` is one of the rules, of a supported type, under its own id. */
  ghost predicate Supplied(rules: map<string, Rule>, id: string, rule: Rule)
  {
    rule.id == id && rule.ruleType in SUPPORTED && exists k :: k in rules && rules[k] == rule
  }

  /** Restoring keeps the rules that were there, adds every id of a supported rule, and nothing else. */
  ghost predicate RulesTaken(before: map<string, Rule>, after: map<string, Rule>, rules: map<string, Rule>)
  {
    && (forall k :: k in before ==> k in after && after[k] == before[k])
    && (forall k :: k in rules && rules[k].ruleType in SUPPORTED ==> rules[k].id in after)
    && (forall k :: k in after && k !in before ==> Supplied(rules, k, after[k]))
  }

  // ---------------------------------------------------------------- restoring processes

  ghost predicate IdsAreKeys(procs: map<string, Process>)
  {
    forall k :: k in procs ==> procs[k].id == k
  }

  ghost predicate AppsPresent(procs: map<string, Process>, apps: map<string, Installation>)
  {
    forall k :: k in procs ==> procs[k].appID in apps
  }

  ghost predicate NothingRuns(running: Running)
  {
    forall d :: At(running, d) == {}
  }

  /** `id` is a recorded process whose app is present and uses driver `d`. */
  ghost predicate RecordedFor(procs: map<string, Process>, apps: map<string, Installation>, id: string, d: string)
  {
    id in procs && procs[id].appID in apps && apps[procs[id].appID].driver == d
  }

  ghost predicate RunsExactly(kinds: map<string, Kind>, running: Running, procs: map<string, Process>, apps: map<string, Installation>)
  {
    forall d, id :: id in At(running, d) <==> d in kinds && kinds[d].Tracking? && RecordedFor(procs, apps, id, d)
  }

  ghost predicate AllStart(procs: map<string, Process>, apps: map<string, Installation>, kinds: map<string, Kind>,
                           running: Running, answers: string -> StartAnswer)
  {
    forall id, d :: RecordedFor(procs, apps, id, d) ==> d in kinds && answers(id).Starts? && id !in At(running, d)
  }

  /** The installation of each recorded process, by the process's id. */
  ghost predicate Collected(info: map<string, Installation>, procs: map<string, Process>, apps: map<string, Installation>)
  {
    && info.Keys == procs.Keys
    && forall k :: k in info ==> procs[k].appID in apps && info[k] == apps[procs[k].appID]
  }

  /** After a run in which only apps without a process were uninstalled, restore finds the
      installation of every recorded process. */
  lemma RestoreFindsApps(doc: Json, ts: seq<Transition>)
    requires ValidateState(doc) && RefsGood(Decode(doc).value) && AllPlain(ts) && Careful(doc, ts) && Propose(doc, ts).Some?
    ensures Decode(Propose(doc, ts).value).Some?
    ensures var r := Decode(Propose(doc, ts).value).value; AppsPresent(Entries(r.processes), Entries(r.apps))
  {
    RunKeepsRefs(doc, ts);
  }

  lemma KeyIsId(procs: map<string, Process>, k: string)
    requires IdsAreKeys(procs) && k in procs
    ensures procs[k].id == k
  {
  }

  /** The installations found for all processes but those left. */
  ghost predicate Partly(found: map<string, Installation>, procs: map<string, Process>, apps: map<string, Installation>, left: set<string>)
  {
    && found.Keys == procs.Keys - left
    && forall k :: k in found ==> procs[k].appID in apps && found[k] == apps[procs[k].appID]
  }

  lemma OneFound(found: map<string, Installation>, procs: map<string, Process>, apps: map<string, Installation>, left: set<string>, k: string)
    requires Partly(found, procs, apps, left) && k in left && left <= procs.Keys && procs[k].appID in apps
    ensures Partly(found[k := apps[procs[k].appID]], procs, apps, left - {k})
  {
  }

  lemma AllFound(found: map<string, Installation>, procs: map<string, Process>, apps: map<string, Installation>)
    ensures Partly(map[], procs, apps, procs.Keys)
    ensures Partly(found, procs, apps, {}) ==> Collected(found, procs, apps)
  {
  }

  /** The process loop of restore. */
  method CollectProcesses(procs: map<string, Process>, apps: map<string, Installation>) returns (info: Option<map<string, Installation>>)
    ensures info.None? <==> !AppsPresent(procs, apps)
    ensures info.Some? && IdsAreKeys(procs) ==> Collected(info.value, procs, apps)
  {
    hide IdsAreKeys;
    hide Partly;
    hide Collected;
    var found: map<string, Installation> := map[];
    var remaining := procs.Keys;
    AllFound(found, procs, apps);
    while remaining != {}
      invariant remaining <= procs.Keys
      invariant forall k :: k in procs && k !in remaining ==> procs[k].appID in apps
      invariant IdsAreKeys(procs) ==> Partly(found, procs, apps, remaining)
      decreases |remaining|
    {
      var k :| k in remaining;
      if procs[k].appID !in apps {
        return None;
      }
      if IdsAreKeys(procs) {
        KeyIsId(procs, k);
        OneFound(found, procs, apps, remaining, k);
      }
      remaining := remaining - {k};
      found := found[procs[k].id := apps[procs[k].appID]];
    }
    AllFound(found, procs, apps);
    return Some(found);
  }

  /** Some iteration order of a map. */
  method Ordered(info: map<string, Installation>) returns (order: seq<Wanted>)
    ensures forall w :: w in order <==> w.id in info && w.app == info[w.id]
    ensures forall i, j :: 0 <= i < j < |order| ==> order[i].id != order[j].id
  {
    order := [];
    var left := info.Keys;
    while left != {}
      invariant left <= info.Keys
      invariant forall w :: w in order <==> w.id in info && w.id !in left && w.app == info[w.id]
      invariant forall i, j :: 0 <= i < j < |order| ==> order[i].id != order[j].id
      decreases |left|
    {
      var k :| k in left;
      assert forall w :: w in order ==> w.id != k;
      left := left - {k};
      order := order + [Wanted(k, info[k])];
    }
  }

  /** Nothing stops running, and only recorded processes begin to, at their apps' tracking drivers. */
  ghost predicate OnlyRecordedAdded(kinds: map<string, Kind>, before: Running, after: Running, procs: map<string, Process>, apps: map<string, Installation>)
  {
    && (forall d, id :: id in At(before, d) ==> id in At(after, d))
    && (forall d, id :: id in At(after, d) && id !in At(before, d) ==>
          d in kinds && kinds[d].Tracking? && RecordedFor(procs, apps, id, d))
  }

  lemma RestoredAsRecorded(procs: map<string, Process>, apps: map<string, Installation>, info: map<string, Installation>, order: seq<Wanted>)
    requires Collected(info, procs, apps)
    requires forall w :: w in order <==> w.id in info && w.app == info[w.id]
    ensures forall id, d :: RecordedFor(procs, apps, id, d) <==> Asked(order, id, d)
    ensures forall w :: w in order ==> RecordedFor(procs, apps, w.id, w.app.driver)
  {
    forall id, d | RecordedFor(procs, apps, id, d)
      ensures Asked(order, id, d)
    {
      assert Wanted(id, info[id]) in order;
    }
  }

  lemma AllStartInOrder(procs: map<string, Process>, apps: map<string, Installation>, order: seq<Wanted>, kinds: map<string, Kind>,
                        running: Running, answers: string -> StartAnswer)
    requires forall id, d :: RecordedFor(procs, apps, id, d) <==> Asked(order, id, d)
    requires forall w :: w in order ==> RecordedFor(procs, apps, w.id, w.app.driver)
    ensures (forall w :: w in order ==> CanStart(kinds, running, w, answers)) <==> AllStart(procs, apps, kinds, running, answers)
  {
    hide RecordedFor;
    if forall w :: w in order ==> CanStart(kinds, running, w, answers) {
      forall id, d | RecordedFor(procs, apps, id, d)
        ensures d in kinds && answers(id).Starts? && id !in At(running, d)
      {
        var w :| w in order && w.id == id && w.app.driver == d;
        assert CanStart(kinds, running, w, answers);
      }
    }
  }

  lemma FirstAsRecorded(procs: map<string, Process>, apps: map<string, Installation>, order: seq<Wanted>, n: nat)
    requires n <= |order| && forall w :: w in order ==> RecordedFor(procs, apps, w.id, w.app.driver)
    ensures forall id, d :: Asked(order[..n], id, d) ==> RecordedFor(procs, apps, id, d)
  {
  }
}

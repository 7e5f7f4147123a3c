/** The two descriptions of a controller call agree: run alone, its steps in the protocol leave what the
    controller's method leaves when every write succeeds. */
module LoneCalls {
  import opened Options
  import opened Json
  import opened State
  import opened Schema
  import opened Transitions
  import opened StepTheorems
  import opened Processes
  import opened Protocol
  import opened Controller

  /** The first call takes its steps, all with the same answers, until it is done. */
  function Finished(kinds: map<string, Kind>, x: System, e: Event, steps: nat): Option<System>
    decreases steps
  {
    if x.calls != [] && x.calls[0].Done? then Some(x)
    else if steps == 0 then None
    else
      var y :- Next(kinds, x, e);
      Finished(kinds, y, e, steps - 1)
  }

  function Alone(uuid: string, created: string, starts: StartAnswer, stops: StopAnswer): Event
  {
    Move(0, uuid, created, starts, stops, true)
  }

  /** A proposal on a written document whose write succeeds. */
  lemma KeptWritten(s: NodeState, t: Transition)
    requires Valid(s) && PlainIds(t)
    ensures Kept(Encode(s), t, true) == Encode(Proposed(s, t))
    ensures Valid(Proposed(s, t))
    ensures ProposeOne(t, Encode(s)).Some? <==> Accepts(t, s)
  {
    WrittenStep(t, s);
  }

  lemma WrittenStart(s: NodeState, appID: string, uuid: string, created: string)
    requires Valid(s)
    ensures appID !in Entries(s.apps) ==> !StartAccepted(Encode(s), appID, uuid, created)
    ensures appID in Entries(s.apps) ==>
      var app := Entries(s.apps)[appID]; var id := NewID(app.driver, uuid);
      && DriverOf(Encode(s), appID) == app.driver
      && StartTransition(Encode(s), appID, uuid, created) == Some(Process(id, app.id, app.userID, created))
      && (Plain(id) ==> (StartAccepted(Encode(s), appID, uuid, created) <==> Accepts(StartOf(app, id, created), s)))
  {
    hide Decode;
    hide Encode;
    hide Accepts;
    hide Plain;
    CodecRoundTrip(s);
    if appID in Entries(s.apps) {
      var app := Entries(s.apps)[appID];
      var id := NewID(app.driver, uuid);
      if Plain(id) {
        KeptWritten(s, StartOf(app, id, created));
      }
    }
  }

  /** A lone start leaves in the node state and the drivers exactly what startProcess leaves. */
  lemma LoneStart(kinds: map<string, Kind>, x: System, appID: string, uuid: string, created: string, starts: StartAnswer, stops: StopAnswer)
    requires Valid(x.node) && x.calls == [StartRead(appID)]
    requires appID in Entries(x.node.apps) ==>
      var id := NewID(Entries(x.node.apps)[appID].driver, uuid); id !in x.usedIds && Plain(id)
    ensures var y := Finished(kinds, x, Alone(uuid, created, starts, stops), 4);
      y.Some? && (Encode(y.value.node), y.value.running) ==
                 AfterStart(Encode(x.node), kinds, x.running, appID, uuid, created, starts, true, true)
  {
    hide Valid;
    hide Encode;
    hide Decode;
    hide Plain;
    hide NewID;
    hide Accepts;
    hide Update;
    var s, e := x.node, Alone(uuid, created, starts, stops);
    WrittenStart(s, appID, uuid, created);
    if appID in Entries(s.apps) {
      var app := Entries(s.apps)[appID];
      var id := NewID(app.driver, uuid);
      var t := StartOf(app, id, created);
      KeptWritten(s, t);
      KeptWritten(Proposed(s, t), StopProcess(id));
      LoneSteps(kinds, x, app, id, e);
    } else {
      var y := Moved(x, 0, Done);
      assert Next(kinds, x, e) == Some(y);
      hide Next;
      assert Finished(kinds, x, e, 4) == Some(y);
    }
  }

  /** The steps themselves: read, record, call the driver, and add rules or roll back. */
  lemma LoneSteps(kinds: map<string, Kind>, x: System, app: Installation, id: string, e: Event)
    requires e.Move? && e.i == 0 && |x.calls| == 1 && x.calls[0].StartRead?
    requires x.calls[0].appID in Entries(x.node.apps) && Entries(x.node.apps)[x.calls[0].appID] == app
    requires id == NewID(app.driver, e.uuid) && id !in x.usedIds && Plain(id)
    ensures var t := StartOf(app, id, e.created); var y := Finished(kinds, x, e, 4);
      var r := Start(kinds, x.running, app.driver, id, e.starts);
      && y.Some?
      && y.value.node == (if !Accepts(t, x.node) then x.node
                          else if r.Some? then Update(t, x.node)
                          else Proposed(Update(t, x.node), StopProcess(id)))
      && y.value.running == if Accepts(t, x.node) && r.Some? then r.value else x.running
  {
    hide Plain;
    hide NewID;
    hide Start;
    hide Proposed;
    hide Valid;
    var t := StartOf(app, id, e.created);
    var a := Moved(x, 0, StartPropose(app, id, e.created)).(usedIds := x.usedIds + {id});
    assert Next(kinds, x, e) == Some(a);
    hide Accepts;
    hide Update;
    if Accepts(t, x.node) {
      var b := Moved(a, 0, StartDriver(app, id)).(node := Update(t, x.node));
      assert Next(kinds, a, e) == Some(b);
      var r := Start(kinds, x.running, app.driver, id, e.starts);
      var c := if r.Some? then Moved(b, 0, StartRules(id)).(running := r.value) else Moved(b, 0, StartRollback(id));
      assert Next(kinds, b, e) == Some(c);
      var d := if r.Some? then Moved(c, 0, Done) else Moved(c, 0, Done).(node := Proposed(b.node, StopProcess(id)));
      assert Next(kinds, c, e) == Some(d);
      hide Next;
      assert Finished(kinds, d, e, 0) == Some(d);
      assert Finished(kinds, c, e, 1) == Some(d);
      assert Finished(kinds, b, e, 2) == Some(d);
      assert Finished(kinds, a, e, 3) == Some(d);
    } else {
      var b := Moved(a, 0, Done);
      assert Next(kinds, a, e) == Some(b);
      hide Next;
      assert Finished(kinds, b, e, 2) == Some(b);
      assert Finished(kinds, a, e, 3) == Some(b);
    }
  }

  /** A lone stop leaves what stopProcess leaves. */
  lemma LoneStop(kinds: map<string, Kind>, x: System, id: string, uuid: string, created: string, starts: StartAnswer, stops: StopAnswer)
    requires Valid(x.node) && x.calls == [StopDriver(id)] && Plain(id)
    ensures var y := Finished(kinds, x, Alone(uuid, created, starts, stops), 2); var (running, r) := Stop(kinds, x.running, id, stops);
      && y.Some? && y.value.running == running
      && Encode(y.value.node) == if r.StopFailed? then Encode(x.node) else Kept(Encode(x.node), StopProcess(id), true)
  {
    hide Valid;
    hide Encode;
    hide Plain;
    hide Stop;
    hide Accepts;
    hide Update;
    hide ProposeOne;
    hide Proposed;
    var e := Alone(uuid, created, starts, stops);
    KeptWritten(x.node, StopProcess(id));
    var (running, r) := Stop(kinds, x.running, id, stops);
    var a := Moved(x, 0, if r.StopFailed? then Done else StopPropose(id)).(running := running);
    assert Next(kinds, x, e) == Some(a);
    if !r.StopFailed? {
      var b := Moved(a, 0, Done).(node := Proposed(x.node, StopProcess(id)));
      assert Next(kinds, a, e) == Some(b);
      hide Next;
      assert Finished(kinds, b, e, 0) == Some(b);
      assert Finished(kinds, a, e, 1) == Some(b);
    } else {
      assert Finished(kinds, a, e, 1) == Some(a);
    }
  }

  /** A lone installation, up to its start: refused it leaves the state, with a failing package it leaves the
      entry that was begun, and otherwise it finishes the entry and goes on to the start if one was asked for. */
  lemma LoneInstall(kinds: map<string, Kind>, x: System, app: Installation, rules: seq<Rule>, start: bool, e: Event)
    requires Valid(x.node) && x.calls == [InstallBegin(app, rules, start)] && e.Move? && e.i == 0
    requires e.uuid !in x.usedApps && PlainIds(StartInstallation(app.(id := e.uuid, lifecycle := "installing"), rules))
    ensures var doc := Encode(x.node); var t := StartInstallation(app.(id := e.uuid, lifecycle := "installing"), rules);
      var begun := Kept(doc, t, true); var finish := FinishInstallation(e.uuid);
      if ProposeOne(t, doc).None? then LeftDone(Run(kinds, x, [e]), doc, x.running)
      else if !e.packageOk then LeftDone(Run(kinds, x, [e, e]), begun, x.running)
      else
        var y := Run(kinds, x, [e, e, e]);
        && y.Some? && Encode(y.value.node) == Kept(begun, finish, true) && y.value.running == x.running
        && y.value.calls == [if start && ProposeOne(finish, begun).Some? then StartRead(e.uuid) else Done]
  {
    hide Valid;
    hide Encode;
    hide Accepts;
    hide Update;
    hide ProposeOne;
    hide Proposed;
    hide Plain;
    hide Run;
    hide Kept;
    var t, finish := StartInstallation(app.(id := e.uuid, lifecycle := "installing"), rules), FinishInstallation(e.uuid);
    assert PlainIds(finish) && Plain(e.uuid);
    KeptWritten(x.node, t);
    KeptWritten(Proposed(x.node, t), finish);
    NothingProposed(x.node, t);
    InstallSteps(kinds, x, app, rules, start, e);
  }

  lemma InstallSteps(kinds: map<string, Kind>, x: System, app: Installation, rules: seq<Rule>, start: bool, e: Event)
    requires x.calls == [InstallBegin(app, rules, start)] && e.Move? && e.i == 0
    requires e.uuid !in x.usedApps && Plain(e.uuid)
    ensures var t := StartInstallation(app.(id := e.uuid, lifecycle := "installing"), rules);
      var finish := FinishInstallation(e.uuid);
      if !Accepts(t, x.node) then Left(Run(kinds, x, [e]), Proposed(x.node, t), x.running, Done)
      else if !e.packageOk then Left(Run(kinds, x, [e, e]), Proposed(x.node, t), x.running, Done)
      else Left(Run(kinds, x, [e, e, e]), Proposed(Proposed(x.node, t), finish), x.running,
                if Accepts(finish, Proposed(x.node, t)) && start then StartRead(e.uuid) else Done)
  {
    hide Accepts;
    hide Update;
    hide Proposed;
    hide Plain;
    var t, finish := StartInstallation(app.(id := e.uuid, lifecycle := "installing"), rules), FinishInstallation(e.uuid);
    var a := Moved(x, 0, if Accepts(t, x.node) then InstallPackage(e.uuid, start) else Done)
             .(node := Proposed(x.node, t), usedApps := x.usedApps + {e.uuid});
    assert Next(kinds, x, e) == Some(a);
    var b := Moved(a, 0, if e.packageOk then InstallFinish(e.uuid, start) else Done);
    assert Accepts(t, x.node) ==> Next(kinds, a, e) == Some(b);
    var c := Moved(b, 0, if Accepts(finish, a.node) && start then StartRead(e.uuid) else Done).(node := Proposed(a.node, finish));
    assert Accepts(t, x.node) && e.packageOk ==> Next(kinds, b, e) == Some(c);
    hide Next;
    hide Run;
    RunsOn(kinds, x, e, a, b, c);
  }

  ghost predicate Left(y: Option<System>, node: NodeState, running: Running, c: Call)
  {
    y.Some? && y.value.node == node && y.value.running == running && y.value.calls == [c]
  }

  ghost predicate LeftDone(y: Option<System>, doc: Json, running: Running)
  {
    y.Some? && Encode(y.value.node) == doc && y.value.running == running && y.value.calls == [Done]
  }

  lemma NothingProposed(s: NodeState, t: Transition)
    ensures !Accepts(t, s) ==> Proposed(s, t) == s
  {
    hide Accepts;
    hide Update;
  }

  lemma RunsOn(kinds: map<string, Kind>, x: System, e: Event, a: System, b: System, c: System)
    requires Next(kinds, x, e) == Some(a)
    ensures Run(kinds, x, [e]) == Some(a)
    ensures Next(kinds, a, e) == Some(b) ==> Run(kinds, x, [e, e]) == Some(b)
    ensures Next(kinds, a, e) == Some(b) && Next(kinds, b, e) == Some(c) ==> Run(kinds, x, [e, e, e]) == Some(c)
  {
    hide Next;
    assert [e][1..] == [] && [e, e][1..] == [e] && [e, e, e][1..] == [e, e];
    assert Run(kinds, a, []) == Some(a) && Run(kinds, b, []) == Some(b) && Run(kinds, c, []) == Some(c);
    if Next(kinds, a, e) == Some(b) {
      assert Run(kinds, a, [e]) == Some(b);
      if Next(kinds, b, e) == Some(c) {
        assert Run(kinds, b, [e]) == Some(c);
        assert Run(kinds, a, [e, e]) == Some(c);
      }
    }
  }

  /** A lone proposal of a database call leaves what the controller leaves. */
  lemma LoneProposal(kinds: map<string, Kind>, x: System, t: Transition, e: Event)
    requires Valid(x.node) && x.calls == [OneProposal(t)] && PlainIds(t) && e.Move? && e.i == 0
    ensures LeftDone(Run(kinds, x, [e]), Kept(Encode(x.node), t, true), x.running)
  {
    hide Valid;
    hide Encode;
    hide ProposeOne;
    hide Proposed;
    hide PlainIds;
    hide Kept;
    hide Run;
    KeptWritten(x.node, t);
    ProposalStep(kinds, x, t, e);
  }

  lemma ProposalStep(kinds: map<string, Kind>, x: System, t: Transition, e: Event)
    requires x.calls == [OneProposal(t)] && e.Move? && e.i == 0
    ensures Left(Run(kinds, x, [e]), Proposed(x.node, t), x.running, Done)
  {
    hide Proposed;
    var a := Moved(x, 0, Done).(node := Proposed(x.node, t));
    assert Next(kinds, x, e) == Some(a);
    hide Next;
    hide Run;
    RunsOn(kinds, x, e, a, a, a);
  }
}

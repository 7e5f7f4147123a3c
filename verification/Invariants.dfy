/** What every run of accepted transitions keeps. */
module Invariants {
  import opened Options
  import opened Json
  import opened State
  import opened Schema
  import opened MigrationRoundTrip
  import opened Documents
  import opened Transitions
  import opened Refinement
  import opened StepTheorems
  import opened DocumentMigration
  import opened Batch

  ghost predicate DistinctUsernames(m: map<string, User>)
  {
    forall j, k :: j in m && k in m && m[j].username == m[k].username ==> j == k
  }

  ghost predicate DistinctPackages(m: map<string, Installation>)
  {
    forall j, k :: j in m && k in m && m[j].registryURLBase == m[k].registryURLBase && m[j].registryPackageID == m[k].registryPackageID ==> j == k
  }

  ghost predicate OneProcessPerApp(m: map<string, Process>)
  {
    forall j, k :: j in m && k in m && m[j].appID == m[k].appID ==> j == k
  }

  ghost predicate KeysAreIds(s: NodeState)
  {
    && (forall k :: k in Entries(s.users) ==> Entries(s.users)[k].id == k)
    && (forall k :: k in Entries(s.apps) ==> Entries(s.apps)[k].id == k)
    && (forall k :: k in Entries(s.processes) ==> Entries(s.processes)[k].id == k)
    && (forall k :: k in Entries(s.rules) ==> Entries(s.rules)[k].id == k)
  }

  ghost predicate OwnersPresent(s: NodeState)
  {
    && (forall k :: k in Entries(s.apps) ==> Entries(s.apps)[k].userID in Entries(s.users))
    && (forall k :: k in Entries(s.processes) ==> Entries(s.processes)[k].userID in Entries(s.users))
  }

  ghost predicate Inv(s: NodeState)
  {
    && DistinctUsernames(Entries(s.users))
    && DistinctPackages(Entries(s.apps))
    && OneProcessPerApp(Entries(s.processes))
    && KeysAreIds(s)
    && OwnersPresent(s)
  }

  lemma EmptyHasInv(s: NodeState)
    requires IsEmpty(s)
    ensures Inv(s)
  {
  }

  lemma {:induction false} PutRulesKeys(m: map<string, Rule>, rules: seq<Rule>)
    requires forall k :: k in m ==> m[k].id == k
    ensures forall k :: k in PutRules(m, rules) ==> PutRules(m, rules)[k].id == k
    decreases |rules|
  {
    if rules != [] {
      PutRulesKeys(m[rules[0].id := rules[0]], rules[1..]);
    }
  }

  /** The fields of `r` that the invariant speaks of are those of `s`. */
  ghost predicate SameNames(s: NodeState, r: NodeState)
  {
    && Entries(r.users).Keys == Entries(s.users).Keys
    && (forall k :: k in Entries(r.users) ==>
          Entries(r.users)[k].username == Entries(s.users)[k].username && Entries(r.users)[k].id == Entries(s.users)[k].id)
    && Entries(r.apps).Keys == Entries(s.apps).Keys
    && (forall k :: k in Entries(r.apps) ==> SameApp(Entries(s.apps)[k], Entries(r.apps)[k]))
    && Entries(r.processes) == Entries(s.processes)
    && (forall k :: k in Entries(r.rules) ==> k in Entries(s.rules) && Entries(r.rules)[k] == Entries(s.rules)[k])
  }

  ghost predicate SameApp(a: Installation, b: Installation)
  {
    (a.id, a.userID, a.registryURLBase, a.registryPackageID) == (b.id, b.userID, b.registryURLBase, b.registryPackageID)
  }

  lemma CarriedNames(a: nat, b: nat, s: NodeState, r: NodeState)
    requires Carries(a, b, s, r)
    ensures SameNames(s, r)
  {
    forall k | k in Entries(r.apps)
      ensures SameApp(Entries(s.apps)[k], Entries(r.apps)[k])
    {
      assert Entries(r.apps)[k] == CarriedApp(a, b, Entries(s.apps)[k]);
    }
  }

  lemma CarriedInv(a: nat, b: nat, s: NodeState, r: NodeState)
    requires Carries(a, b, s, r) && Inv(s)
    ensures Inv(r)
  {
    hide Carries;
    CarriedNames(a, b, s, r);
  }

  lemma AddUserKeepsInv(s: NodeState, u: User)
    requires Inv(s) && s.users.Some? && u.id !in s.users.value
    requires forall k :: k in s.users.value ==> s.users.value[k].username != u.username
    ensures Inv(s.(users := Some(s.users.value[u.id := u])))
  {
  }

  lemma AddAppKeepsInv(s: NodeState, a: Installation, rules: Option<map<string, Rule>>)
    requires Inv(s) && s.apps.Some? && a.userID in Entries(s.users)
    requires forall k :: k in s.apps.value ==>
      !(s.apps.value[k].registryURLBase == a.registryURLBase && s.apps.value[k].registryPackageID == a.registryPackageID)
    requires forall k :: k in Entries(rules) ==> Entries(rules)[k].id == k
    ensures Inv(s.(apps := Some(s.apps.value[a.id := a]), rules := rules))
  {
  }

  lemma FinishKeepsInv(s: NodeState, id: string)
    requires Inv(s) && s.apps.Some? && id in s.apps.value
    ensures Inv(s.(apps := Some(s.apps.value[id := s.apps.value[id].(lifecycle := "installed")])))
  {
  }

  lemma AddProcessKeepsInv(s: NodeState, p: Process)
    requires Inv(s) && s.processes.Some? && p.userID in Entries(s.users) && p.id !in s.processes.value
    requires forall k :: k in s.processes.value ==> s.processes.value[k].appID != p.appID
    ensures Inv(s.(processes := Some(s.processes.value[p.id := p])))
  {
  }

  lemma DropsKeepInv(s: NodeState, id: string)
    requires Inv(s)
    ensures s.apps.Some? ==> Inv(s.(apps := Some(s.apps.value - {id})))
    ensures s.processes.Some? ==> Inv(s.(processes := Some(s.processes.value - {id})))
  {
  }

  lemma AddRuleKeepsInv(s: NodeState, r: Rule)
    requires Inv(s) && s.rules.Some?
    ensures Inv(s.(rules := Some(s.rules.value[r.id := r])))
  {
    assert Entries(s.rules) == s.rules.value;
    assert forall k :: k in s.rules.value ==> s.rules.value[k].id == k;
  }

  lemma FilledHasInv(s: NodeState)
    ensures Inv(Filled(s)) <==> Inv(s)
  {
    assert Entries(Filled(s).users) == Entries(s.users) && Entries(Filled(s).apps) == Entries(s.apps);
    assert Entries(Filled(s).processes) == Entries(s.processes) && Entries(Filled(s).rules) == Entries(s.rules);
  }

  /** A state a transition puts in place of the old one has the invariant itself. */
  ghost predicate BringsInv(t: Transition)
  {
    t.Initialize? && t.init.Some? ==> Inv(t.init.value)
  }

  /** An accepted transition keeps the invariant exactly when it is not an initialization by a state
      without it. */
  lemma StepKeepsInv(t: Transition, s: NodeState)
    requires Accepts(t, s) && Inv(s)
    requires t.Migrate? ==> Version(s) > 0
    ensures Inv(Update(t, s)) <==> BringsInv(t)
  {
    match t
    case Initialize(init) => FilledHasInv(init.value);
    case Migrate(target) =>
      AcceptedCarries(s, target);
      CarriedInv(Version(s), SchemaIndex(target), s, Update(t, s));
    case AddUser(u) => AddUserKeepsInv(s, u);
    case StartInstallation(a, rules) =>
      PutRulesKeys(Entries(s.rules), rules);
      AddAppKeepsInv(s, a, if rules == [] then s.rules else Some(PutRules(Entries(s.rules), rules)));
    case FinishInstallation(id) => FinishKeepsInv(s, id);
    case Uninstall(id) => DropsKeepInv(s, id);
    case StartProcess(p) => AddProcessKeepsInv(s, p.value);
    case StopProcess(id) => DropsKeepInv(s, id);
    case AddRule(r) => AddRuleKeepsInv(s, r);
  }

  /** A transition that goes through on a valid document updates its record. */
  lemma ProposedUpdates(t: Transition, doc: Json)
    requires ValidateState(doc) && PlainIds(t) && ProposeOne(t, doc).Some?
    ensures Version(Decode(doc).value) > 0 && Accepts(t, Decode(doc).value)
    ensures Decode(ProposeOne(t, doc).value) == Some(Update(t, Decode(doc).value))
  {
    if t.Migrate? {
      MigrateDocument(doc, t.target);
    } else {
      PatchRefinesUpdate(t, doc);
    }
  }

  /** Username, package and process uniqueness, keys equal to ids and present owners are kept by every
      run, migrations included, whatever valid document it starts from. */
  lemma {:induction false} RunKeepsInv(doc: Json, ts: seq<Transition>)
    requires ValidateState(doc) && Inv(Decode(doc).value) && AllPlain(ts)
    requires forall t :: t in ts ==> BringsInv(t)
    ensures Propose(doc, ts).Some? ==>
      Decode(Propose(doc, ts).value).Some? && Inv(Decode(Propose(doc, ts).value).value)
    decreases |ts|
  {
    if ts != [] && ProposeOne(ts[0], doc).Some? {
      assert ts[0] in ts;
      ProposedUpdates(ts[0], doc);
      StepKeepsInv(ts[0], Decode(doc).value);
      RunKeepsInv(ProposeOne(ts[0], doc).value, ts[1..]);
    }
  }

  lemma {:induction false} EffectiveFrom(doc: Json, calls: seq<Call>)
    ensures forall t :: t in Effective(doc, calls) ==> exists c :: c in calls && t in c.batch
    decreases |calls|
  {
    if calls != [] {
      var r := Propose(doc, calls[0].batch);
      EffectiveFrom(if r.Some? && calls[0].writeOk then r.value else doc, calls[1..]);
      assert calls[0] in calls;
    }
  }

  ghost predicate AllBring(calls: seq<Call>)
  {
    forall c, t :: c in calls && t in c.batch ==> PlainIds(t) && BringsInv(t)
  }

  /** So every state a database comes to hold has them, through refused batches and failed writes, when
      the file it was opened on does. */
  lemma DatabaseKeepsInv(doc: Json, calls: seq<Call>)
    requires ValidateState(doc) && Inv(Decode(doc).value) && AllBring(calls)
    ensures ValidateState(After(doc, calls)) && Inv(Decode(After(doc, calls)).value)
  {
    hide Inv;
    hide BringsInv;
    hide PlainIds;
    hide ValidateState;
    hide Propose;
    hide Decode;
    hide After;
    hide Effective;
    HistoryIsOneBatch(doc, calls);
    EffectiveFrom(doc, calls);
    forall t | t in Effective(doc, calls)
      ensures PlainIds(t) && BringsInv(t)
    {
      var c :| c in calls && t in c.batch;
    }
    RunKeepsInv(doc, Effective(doc, calls));
  }

  /** A database made from nothing has them from the first state on, whatever its initial batch. */
  lemma NewDatabaseHasInv(initial: seq<Transition>, calls: seq<Call>)
    requires AllPlain(initial) && (forall t :: t in initial ==> BringsInv(t)) && AllBring(calls)
    requires NewState(initial).Some?
    ensures ValidateState(NewState(initial).value) && Inv(Decode(NewState(initial).value).value)
    ensures ValidateState(After(NewState(initial).value, calls)) && Inv(Decode(After(NewState(initial).value, calls)).value)
  {
    hide Inv;
    hide ValidateState;
    hide Propose;
    hide AllBring;
    hide BringsInv;
    hide After;
    var empty := LatestEmptyState();
    EmptyHasInv(empty);
    ValidEncoded(empty);
    CodecRoundTrip(empty);
    RunKeepsInv(Encode(empty), initial);
    ProposeKeepsValid(Encode(empty), initial);
    DatabaseKeepsInv(NewState(initial).value, calls);
  }

  // ---------------------------------------------------------------- process references

  /** Every recorded process belongs to a present, installed app. */
  ghost predicate RefsGood(s: NodeState)
  {
    forall k :: k in Entries(s.processes) ==>
      Entries(s.processes)[k].appID in Entries(s.apps) &&
      Entries(s.apps)[Entries(s.processes)[k].appID].lifecycle == "installed"
  }

  ghost predicate HasProcess(s: NodeState, appID: string)
  {
    exists k :: k in Entries(s.processes) && Entries(s.processes)[k].appID == appID
  }

  lemma CarriedRefs(a: nat, b: nat, s: NodeState, r: NodeState)
    requires Carries(a, b, s, r) && RefsGood(s)
    ensures RefsGood(r)
  {
    assert forall k :: k in Entries(s.apps) ==> Entries(r.apps)[k] == CarriedApp(a, b, Entries(s.apps)[k]);
  }

  /** A transition other than initialization keeps the references good exactly when it is not the
      uninstallation of an app that has a process. */
  lemma RefsKeptExactly(t: Transition, s: NodeState)
    requires Accepts(t, s) && !t.Initialize? && RefsGood(s)
    requires t.Migrate? ==> Version(s) > 0
    ensures RefsGood(Update(t, s)) <==> !(t.Uninstall? && HasProcess(s, t.appID))
  {
    match t
    case Migrate(target) =>
      AcceptedCarries(s, target);
      CarriedRefs(Version(s), SchemaIndex(target), s, Update(t, s));
    case Uninstall(id) =>
      if HasProcess(s, id) {
        var k :| k in Entries(s.processes) && Entries(s.processes)[k].appID == id;
        assert Entries(Update(t, s).processes)[k].appID !in Entries(Update(t, s).apps);
      }
    case _ =>
  }

  /** A run in which only apps without a process are uninstalled. */
  ghost predicate Careful(doc: Json, ts: seq<Transition>)
    requires ValidateState(doc)
    decreases |ts|
  {
    ts != [] && ProposeOne(ts[0], doc).Some? ==>
      && !ts[0].Initialize?
      && !(ts[0].Uninstall? && HasProcess(Decode(doc).value, ts[0].appID))
      && Careful(ProposeOne(ts[0], doc).value, ts[1..])
  }

  lemma {:induction false} RunKeepsRefs(doc: Json, ts: seq<Transition>)
    requires ValidateState(doc) && RefsGood(Decode(doc).value) && AllPlain(ts) && Careful(doc, ts)
    ensures Propose(doc, ts).Some? ==>
      Decode(Propose(doc, ts).value).Some? && RefsGood(Decode(Propose(doc, ts).value).value)
    decreases |ts|
  {
    if ts != [] && ProposeOne(ts[0], doc).Some? {
      assert ts[0] in ts;
      ProposedUpdates(ts[0], doc);
      RefsKeptExactly(ts[0], Decode(doc).value);
      RunKeepsRefs(ProposeOne(ts[0], doc).value, ts[1..]);
    }
  }

  // ---------------------------------------------------------------- packages in use

  ghost predicate HoldsPackage(s: NodeState, id: string, a: Installation)
  {
    id in Entries(s.apps)
    && Entries(s.apps)[id].registryURLBase == a.registryURLBase && Entries(s.apps)[id].registryPackageID == a.registryPackageID
  }

  lemma StepHoldsPackage(t: Transition, s: NodeState, id: string, a: Installation)
    requires Version(s) > 0 && Accepts(t, s) && !t.Initialize? && t != Uninstall(id)
    requires HoldsPackage(s, id, a)
    ensures HoldsPackage(Update(t, s), id, a)
  {
    if t.Migrate? {
      AcceptedCarries(s, t.target);
      assert Entries(Update(t, s).apps)[id] == CarriedApp(Version(s), SchemaIndex(t.target), Entries(s.apps)[id]);
    }
  }

  /** Once an installation has begun, however it ends, its package cannot be installed again until
      that entry is uninstalled: a failed package install blocks its own retry. */
  lemma {:induction false} PackageStaysTaken(doc: Json, ts: seq<Transition>, id: string, a: Installation, rules: seq<Rule>)
    requires ValidateState(doc) && HoldsPackage(Decode(doc).value, id, a) && AllPlain(ts)
    requires forall t :: t in ts ==> !t.Initialize? && t != Uninstall(id)
    ensures Propose(doc, ts).Some? ==> ProposeOne(StartInstallation(a, rules), Propose(doc, ts).value) == None
    decreases |ts|
  {
    if ts != [] && ProposeOne(ts[0], doc).Some? {
      assert ts[0] in ts;
      ProposedUpdates(ts[0], doc);
      StepHoldsPackage(ts[0], Decode(doc).value, id, a);
      PackageStaysTaken(ProposeOne(ts[0], doc).value, ts[1..], id, a, rules);
    }
  }

  // ---------------------------------------------------------------- life of an installation

  /** An installation appears by being started, goes from installing to installed by being finished,
      disappears by being uninstalled, and changes its state in no other way. */
  lemma LifecycleMoves(t: Transition, s: NodeState, id: string)
    requires Version(s) > 0 && Accepts(t, s) && !t.Initialize?
    ensures var before, after := Entries(s.apps), Entries(Update(t, s).apps);
      && (id !in before && id in after <==> t.StartInstallation? && t.app.id == id)
      && (id in before && id !in after <==> t == Uninstall(id))
      && (id in before && id in after && before[id].lifecycle != after[id].lifecycle ==>
            t == FinishInstallation(id) && before[id].lifecycle == "installing" && after[id].lifecycle == "installed")
      && (t == FinishInstallation(id) ==>
            id in before && id in after && before[id].lifecycle == "installing" && after[id].lifecycle == "installed")
  {
    if t.Migrate? {
      AcceptedCarries(s, t.target);
      if id in Entries(s.apps) {
        assert Entries(Update(t, s).apps)[id] == CarriedApp(Version(s), SchemaIndex(t.target), Entries(s.apps)[id]);
      }
    }
  }

  ghost predicate Installed(s: NodeState, id: string)
  {
    id in Entries(s.apps) && Entries(s.apps)[id].lifecycle == "installed"
  }

  /** An installed app stays installed until it is uninstalled. */
  lemma {:induction false} RunKeepsInstalled(doc: Json, ts: seq<Transition>, id: string)
    requires ValidateState(doc) && Installed(Decode(doc).value, id) && AllPlain(ts)
    requires forall t :: t in ts ==> !t.Initialize? && t != Uninstall(id)
    ensures Propose(doc, ts).Some? ==>
      Decode(Propose(doc, ts).value).Some? && Installed(Decode(Propose(doc, ts).value).value, id)
    decreases |ts|
  {
    if ts != [] && ProposeOne(ts[0], doc).Some? {
      assert ts[0] in ts;
      ProposedUpdates(ts[0], doc);
      LifecycleMoves(ts[0], Decode(doc).value, id);
      RunKeepsInstalled(ProposeOne(ts[0], doc).value, ts[1..], id);
    }
  }

  // ---------------------------------------------------------------- start and stop

  /** Stopping a process that was just started restores the document itself, member for member. */
  lemma StopUndoesStart(doc: Json, p: Process)
    requires ValidateState(doc) && Plain(p.id)
    requires ProposeOne(StartProcess(Some(p)), doc).Some?
    ensures ProposeOne(StopProcess(p.id), ProposeOne(StartProcess(Some(p)), doc).value) == Some(doc)
  {
    hide Apply;
    hide DocOk;
    hide Plain;
    var s := Decode(doc).value;
    assert doc.Obj? && ProposeOne(StartProcess(Some(p)), doc) == Some(PutProcess(doc, p)) && Accepts(StartProcess(Some(p)), s) by {
      StartProcessStep(doc, p);
    }
    assert Mirrors(doc, "processes", s.processes, DecodeProcess) by {
      Shape(doc);
    }
    PutThenDrop(doc, p);
    StopWorks(doc, p);
  }

  lemma StopWorks(doc: Json, p: Process)
    requires ValidateState(doc) && Plain(p.id) && doc.Obj?
    requires ProposeOne(StartProcess(Some(p)), doc) == Some(PutProcess(doc, p))
    ensures ProposeOne(StopProcess(p.id), PutProcess(doc, p)) == Some(DropProcess(PutProcess(doc, p), p.id))
  {
    hide ValidateState;
    hide Apply;
    hide Plain;
    hide EncodeProcess;
    var next := PutProcess(doc, p);
    assert p.id in Entries(Decode(next).value.processes) by {
      StartProcessStep(doc, p);
    }
    StopProcessStep(next, p.id);
  }

  lemma PutThenDrop(doc: Json, p: Process)
    requires doc.Obj? && "processes" in doc.fields && doc.fields["processes"].Obj?
    requires p.id !in MemberFields(doc, "processes")
    ensures PutProcess(doc, p).Obj? && DropProcess(PutProcess(doc, p), p.id) == doc
  {
    var g := MemberFields(doc, "processes");
    var h := g[p.id := EncodeProcess(p)];
    SetTwice(doc, "processes", h, h - {p.id});
    assert h - {p.id} == g;
    assert doc.fields["processes" := Obj(g)] == doc.fields;
  }
}

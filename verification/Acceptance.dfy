/** When transitions are accepted, told by what they would leave: a transition is refused only when its
    id is taken or the result would break the schema, a uniqueness or a reference. Each lemma also gives
    the record that follows outright. */
module Acceptance {
  import opened Options
  import opened State
  import opened Schema
  import opened Transitions
  import opened Invariants
  import opened Matchers

  /** Initialization is accepted exactly when the filled state validates. */
  lemma InitializationExactly(init: Option<NodeState>, s: NodeState)
    ensures Accepts(Initialize(init), s) <==> init.Some? && Valid(Filled(init.value))
    ensures Accepts(Initialize(init), s) ==> FilledFrom(Update(Initialize(init), s), init.value)
  {
  }

  /** Every text is as given, every map is there, and nil maps are empty. */
  ghost predicate FilledFrom(r: NodeState, s: NodeState)
  {
    && (r.nodeID, r.name, r.certificate, r.schemaVersion, r.testField) ==
       (s.nodeID, s.name, s.certificate, s.schemaVersion, s.testField)
    && r.users.Some? && r.processes.Some? && r.apps.Some? && r.rules.Some?
    && (r.users.value, r.processes.value) == (Entries(s.users), Entries(s.processes))
    && (r.apps.value, r.rules.value) == (Entries(s.apps), Entries(s.rules))
  }

  lemma UserExactly(s: NodeState, u: User)
    requires Valid(s) && Inv(s)
    ensures var r := s.(users := Some(Entries(s.users)[u.id := u]));
      && (Accepts(AddUser(u), s) <==> u.id !in Entries(s.users) && Valid(r) && DistinctUsernames(Entries(r.users)))
      && (Accepts(AddUser(u), s) ==> Update(AddUser(u), s) == r)
  {
    var r := s.(users := Some(Entries(s.users)[u.id := u]));
    assert u.id in r.users.value && r.users.value[u.id] == u;
    if u.id !in Entries(s.users) {
      assert forall k :: k in s.users.value ==> k in r.users.value && r.users.value[k] == s.users.value[k];
    }
  }

  lemma AppsAfter(s: NodeState, a: Installation, r: NodeState)
    requires Inv(s) && s.apps.Some? && a.id !in s.apps.value
    requires r.apps == Some(s.apps.value[a.id := a]) && r.users == s.users && r.processes == s.processes
    ensures DistinctPackages(Entries(r.apps)) <==>
      forall k :: k in s.apps.value ==>
        !(s.apps.value[k].registryURLBase == a.registryURLBase && s.apps.value[k].registryPackageID == a.registryPackageID)
    ensures OwnersPresent(r) <==> a.userID in Entries(s.users)
  {
    var m, n := s.apps.value, Entries(r.apps);
    assert a.id in n && n[a.id] == a && Entries(r.users) == Entries(s.users) && Entries(r.processes) == Entries(s.processes);
    assert forall k :: k in m ==> k in n && n[k] == m[k];
  }

  lemma ValidWithApp(s: NodeState, a: Installation, rules: Option<map<string, Rule>>)
    requires Valid(s) && a.id !in s.apps.value
    ensures Valid(s.(apps := Some(s.apps.value[a.id := a]), rules := rules)) <==>
      AppFits(Version(s), a) && (Version(s) >= 4 ==> rules.Some? && forall k :: k in rules.value ==> RuleFits(Version(s), rules.value[k]))
  {
    hide AppFits;
    var n := s.apps.value[a.id := a];
    assert a.id in n && n[a.id] == a;
    assert forall k :: k in s.apps.value ==> k in n && n[k] == s.apps.value[k];
  }

  lemma InstallationExactly(s: NodeState, a: Installation, rules: seq<Rule>)
    requires Valid(s) && Inv(s)
    ensures var t := StartInstallation(a, rules);
      var r := s.(apps := Some(Entries(s.apps)[a.id := a]),
                  rules := if rules == [] then s.rules else Some(PutRules(Entries(s.rules), rules)));
      && (Accepts(t, s) <==> a.id !in Entries(s.apps) && Valid(r) && DistinctPackages(Entries(r.apps)) && OwnersPresent(r))
      && (Accepts(t, s) ==> Update(t, s) == r)
  {
    var r := s.(apps := Some(Entries(s.apps)[a.id := a]),
                rules := if rules == [] then s.rules else Some(PutRules(Entries(s.rules), rules)));
    if a.id !in Entries(s.apps) {
      assert s.apps.Some? && (Version(s) >= 4 ==> s.rules.Some?);
      assert rules == [] ==> PutRules(Entries(s.rules), rules) == Entries(s.rules);
      AppsAfter(s, a, r);
      ValidWithApp(s, a, r.rules);
      hide Valid;
      hide Inv;
      hide PutRules;
      hide DistinctPackages;
      hide OwnersPresent;
    }
  }

  lemma FinishExactly(s: NodeState, id: string)
    requires Valid(s)
    ensures Accepts(FinishInstallation(id), s) <==> id in Entries(s.apps) && Entries(s.apps)[id].lifecycle == "installing"
    ensures Accepts(FinishInstallation(id), s) ==>
      Update(FinishInstallation(id), s) == s.(apps := Some(Entries(s.apps)[id := Entries(s.apps)[id].(lifecycle := "installed")]))
  {
  }

  lemma UninstallExactly(s: NodeState, id: string)
    requires Valid(s)
    ensures Accepts(Uninstall(id), s) <==> id in Entries(s.apps)
    ensures Accepts(Uninstall(id), s) ==> Update(Uninstall(id), s) == s.(apps := Some(Entries(s.apps) - {id}))
  {
  }

  lemma ProcessesAfter(s: NodeState, p: Process, r: NodeState)
    requires Inv(s) && s.processes.Some? && p.id !in s.processes.value
    requires r.processes == Some(s.processes.value[p.id := p]) && r.users == s.users && r.apps == s.apps
    ensures OneProcessPerApp(Entries(r.processes)) <==> forall k :: k in s.processes.value ==> s.processes.value[k].appID != p.appID
    ensures OwnersPresent(r) <==> p.userID in Entries(s.users)
    ensures RefsGood(s) ==>
      (RefsGood(r) <==> p.appID in Entries(s.apps) && Entries(s.apps)[p.appID].lifecycle == "installed")
  {
    var m, n := s.processes.value, Entries(r.processes);
    assert p.id in n && n[p.id] == p && Entries(r.users) == Entries(s.users) && Entries(r.apps) == Entries(s.apps);
    assert forall k :: k in m ==> k in n && n[k] == m[k];
  }

  lemma ValidWithProcess(s: NodeState, p: Process)
    requires Valid(s) && p.id !in s.processes.value
    ensures Valid(s.(processes := Some(s.processes.value[p.id := p]))) <==> ProcessFits(Version(s), p)
  {
    hide ProcessFits;
    var n := s.processes.value[p.id := p];
    assert p.id in n && n[p.id] == p;
    assert forall k :: k in s.processes.value ==> k in n && n[k] == s.processes.value[k];
  }

  /** The checks on a process one by one. */
  lemma ProcessChecks(s: NodeState, p: Process)
    ensures var t := StartProcess(Some(p));
      Accepts(t, s) <==>
      && p.appID in Entries(s.apps) && Entries(s.apps)[p.appID].lifecycle == "installed"
      && p.userID in Entries(s.users) && p.id !in Entries(s.processes)
      && (forall k :: k in Entries(s.processes) ==> Entries(s.processes)[k].appID != p.appID)
      && s.processes.Some? && ProcessFits(Version(s), p)
  {
    hide ProcessFits;
    hide Version;
  }

  lemma ProcessExactly(s: NodeState, p: Process)
    requires Valid(s) && Inv(s) && RefsGood(s)
    ensures var t := StartProcess(Some(p)); var r := s.(processes := Some(Entries(s.processes)[p.id := p]));
      && (Accepts(t, s) <==>
            && p.id !in Entries(s.processes) && Valid(r)
            && OneProcessPerApp(Entries(r.processes)) && OwnersPresent(r) && RefsGood(r))
      && (Accepts(t, s) ==> Update(t, s) == r)
  {
    var r := s.(processes := Some(Entries(s.processes)[p.id := p]));
    assert s.processes.Some?;
    ProcessChecks(s, p);
    hide Accepts;
    hide ProcessFits;
    hide Version;
    hide Valid;
    hide Inv;
    hide OneProcessPerApp;
    hide OwnersPresent;
    hide RefsGood;
    if p.id !in Entries(s.processes) {
      ProcessesAfter(s, p, r);
      ValidWithProcess(s, p);
    }
  }

  lemma StopExactly(s: NodeState, id: string)
    requires Valid(s)
    ensures Accepts(StopProcess(id), s) <==> id in Entries(s.processes)
    ensures Accepts(StopProcess(id), s) ==> Update(StopProcess(id), s) == s.(processes := Some(Entries(s.processes) - {id}))
  {
  }

  lemma RuleExactly(s: NodeState, r: Rule)
    requires Valid(s) && Inv(s) && DistinctMatchers(Entries(s.rules)) && s.rules.Some?
    ensures var after := s.(rules := Some(s.rules.value[r.id := r]));
      && (Accepts(AddRule(r), s) <==> r.id !in s.rules.value && Valid(after) && DistinctMatchers(Entries(after.rules)))
      && (Accepts(AddRule(r), s) ==> Update(AddRule(r), s) == after)
  {
    var after := s.(rules := Some(s.rules.value[r.id := r]));
    assert r.id in after.rules.value && after.rules.value[r.id] == r;
    if r.id !in s.rules.value {
      assert forall k :: k in s.rules.value ==> k in after.rules.value && after.rules.value[k] == s.rules.value[k];
    }
  }

  /** Without a rule map no rule can be added. */
  lemma NoRuleMap(s: NodeState, r: Rule)
    ensures s.rules.None? ==> !Accepts(AddRule(r), s)
  {
  }
}

/** The main statements about single proposals: over documents of any origin, over documents the
    node wrote itself, and when a migration is accepted. */
module StepTheorems {
  import opened Options
  import opened Json
  import opened State
  import opened Schema
  import opened Migrations
  import opened MigrationRoundTrip
  import opened Documents
  import opened Transitions
  import opened Refinement

  /** The document a transition other than a migration leaves. */
  function DocUpdate(t: Transition, doc: Json): Json
    requires doc.Obj? && !t.Migrate?
  {
    match t
    case Initialize(init) => if init.Some? then Encode(Filled(init.value)) else doc
    case AddUser(u) => PutUser(doc, u)
    case StartInstallation(a, rules) => SetRules(PutApp(doc, a), rules)
    case FinishInstallation(id) => FinishApp(doc, id)
    case Uninstall(id) => DropApp(doc, id)
    case StartProcess(p) => if p.Some? then PutProcess(doc, p.value) else doc
    case StopProcess(id) => DropProcess(doc, id)
    case AddRule(r) => SetRules(doc, [r])
  }

  /** The root members a transition may change. */
  function Touched(t: Transition): set<string>
  {
    match t
    case AddUser(_) => {"users"}
    case StartInstallation(_, _) => {"app_installations", "reverse_proxy_rules"}
    case FinishInstallation(_) => {"app_installations"}
    case Uninstall(_) => {"app_installations"}
    case StartProcess(_) => {"processes"}
    case StopProcess(_) => {"processes"}
    case AddRule(_) => {"reverse_proxy_rules"}
    case _ => {}
  }

  lemma InitializeStep(doc: Json, init: Option<NodeState>)
    requires ValidateState(doc)
    ensures doc.Obj? && StepIs(Initialize(init), doc, DocUpdate(Initialize(init), doc))
  {
    hide Apply;
    hide DocOk;
    hide Valid;
    assert doc.Obj?;
    if init.Some? {
      var next := Encode(Filled(init.value));
      ApplyOne(Op("", Add(next)), doc);
      assert ParsePointer("") == Some([]);
      CodecRoundTrip(Filled(init.value));
      ValidEncoded(Filled(init.value));
    }
  }

  /** Patch refines update. On any valid document, a transition other than a migration whose ids are
      plain goes through exactly when the decoded record accepts it; then the new document decodes
      to the updated record. */
  lemma PatchRefinesUpdate(t: Transition, doc: Json)
    requires ValidateState(doc) && PlainIds(t) && !t.Migrate?
    ensures doc.Obj? && StepIs(t, doc, DocUpdate(t, doc))
  {
    match t
    case Initialize(init) => InitializeStep(doc, init);
    case AddUser(u) => AddUserStep(doc, u);
    case StartInstallation(a, rules) => StartInstallationStep(doc, a, rules);
    case FinishInstallation(id) => FinishStep(doc, id);
    case Uninstall(id) => UninstallStep(doc, id);
    case StartProcess(p) =>
      assert doc.Obj?;
      if p.Some? {
        StartProcessStep(doc, p.value);
      }
    case StopProcess(id) => StopProcessStep(doc, id);
    case AddRule(r) => AddRuleStep(doc, r);
  }

  /** Every other root member of the document, known or not, is left as it was. */
  lemma OtherMembersKept(t: Transition, doc: Json, k: string)
    requires doc.Obj? && !t.Migrate? && !t.Initialize? && k !in Touched(t)
    ensures DocUpdate(t, doc).Obj?
    ensures k in DocUpdate(t, doc).fields <==> k in doc.fields
    ensures k in doc.fields ==> DocUpdate(t, doc).fields[k] == doc.fields[k]
  {
  }

  lemma {:induction false} EncodedRules(m: map<string, Rule>, rules: seq<Rule>)
    ensures PutRuleEntries(EncodeEntries(m, EncodeRule), rules) == EncodeEntries(PutRules(m, rules), EncodeRule)
    decreases |rules|
  {
    if rules != [] {
      EncodeEntriesSet(m, rules[0].id, rules[0], EncodeRule);
      EncodedRules(m[rules[0].id := rules[0]], rules[1..]);
    }
  }

  lemma EncodedFields(s: NodeState)
    ensures s.users.Some? ==> MemberFields(Encode(s), "users") == EncodeEntries(s.users.value, EncodeUser)
    ensures s.processes.Some? ==> MemberFields(Encode(s), "processes") == EncodeEntries(s.processes.value, EncodeProcess)
    ensures s.apps.Some? ==> MemberFields(Encode(s), "app_installations") == EncodeEntries(s.apps.value, EncodeApp)
    ensures s.rules.Some? ==> MemberFields(Encode(s), "reverse_proxy_rules") == EncodeEntries(s.rules.value, EncodeRule)
  {
    RootMembers(s);
  }

  lemma UsersWritten(s: NodeState, m: map<string, User>)
    ensures SetMember(Encode(s), "users", EncodeEntries(m, EncodeUser)) == Encode(s.(users := Some(m)))
  {
    SetEncoded(s, m, map[], map[], map[]);
  }

  lemma ProcessesWritten(s: NodeState, m: map<string, Process>)
    ensures SetMember(Encode(s), "processes", EncodeEntries(m, EncodeProcess)) == Encode(s.(processes := Some(m)))
  {
    SetEncoded(s, map[], m, map[], map[]);
  }

  lemma AppsWritten(s: NodeState, m: map<string, Installation>)
    ensures SetMember(Encode(s), "app_installations", EncodeEntries(m, EncodeApp)) == Encode(s.(apps := Some(m)))
  {
    SetEncoded(s, map[], map[], m, map[]);
  }

  lemma RulesWritten(s: NodeState, rules: seq<Rule>)
    requires rules != [] ==> s.rules.Some?
    ensures SetRules(Encode(s), rules) ==
            Encode(s.(rules := if rules == [] then s.rules else Some(PutRules(Entries(s.rules), rules))))
  {
    if rules == [] {
      assert s.(rules := s.rules) == s;
    } else {
      EncodedFields(s);
      EncodedRules(s.rules.value, rules);
      SetEncoded(s, map[], map[], map[], PutRules(s.rules.value, rules));
    }
  }

  lemma FinishWritten(s: NodeState, id: string)
    requires s.apps.Some? && id in s.apps.value
    ensures FinishApp(Encode(s), id) == Encode(s.(apps := Some(s.apps.value[id := s.apps.value[id].(lifecycle := "installed")])))
  {
    var a := s.apps.value[id];
    EncodedFields(s);
    FinishedEntry(a);
    EncodeEntriesSet(s.apps.value, id, a.(lifecycle := "installed"), EncodeApp);
    AppsWritten(s, s.apps.value[id := a.(lifecycle := "installed")]);
  }

  lemma FinishedEntry(a: Installation)
    ensures InstalledEntry(EncodeApp(a)) == EncodeApp(a.(lifecycle := "installed"))
  {
    var f, g := EncodeApp(a).fields["state" := Str("installed")], EncodeApp(a.(lifecycle := "installed")).fields;
    assert f.Keys == g.Keys;
    forall k | k in f && k != "state"
      ensures f[k] == g[k]
    {
    }
    assert f == g;
  }

  /** On the written form of a record the edited document is the written form of the update. */
  lemma UpdateWritten(t: Transition, s: NodeState)
    requires Accepts(t, s) && !t.Migrate?
    ensures DocUpdate(t, Encode(s)) == Encode(Update(t, s))
  {
    hide Encode;
    hide EncodeUser;
    hide EncodeApp;
    hide EncodeProcess;
    hide EncodeRule;
    EncodedFields(s);
    match t
    case Initialize(_) =>
    case AddUser(u) =>
      EncodeEntriesSet(s.users.value, u.id, u, EncodeUser);
      UsersWritten(s, s.users.value[u.id := u]);
    case StartInstallation(a, rules) =>
      EncodeEntriesSet(s.apps.value, a.id, a, EncodeApp);
      AppsWritten(s, s.apps.value[a.id := a]);
      RulesWritten(s.(apps := Some(s.apps.value[a.id := a])), rules);
    case FinishInstallation(id) => FinishWritten(s, id);
    case Uninstall(id) =>
      EncodeEntriesSet(s.apps.value, id, s.apps.value[id], EncodeApp);
      AppsWritten(s, s.apps.value - {id});
    case StartProcess(p) =>
      EncodeEntriesSet(s.processes.value, p.value.id, p.value, EncodeProcess);
      ProcessesWritten(s, s.processes.value[p.value.id := p.value]);
    case StopProcess(id) =>
      EncodeEntriesSet(s.processes.value, id, s.processes.value[id], EncodeProcess);
      ProcessesWritten(s, s.processes.value - {id});
    case AddRule(r) =>
      RulesWritten(s, [r]);
      PutOne(map[], s.rules.value, r);
  }

  lemma MigrateChecks(s: NodeState, target: string)
    ensures Check(Migrate(target), s) <==> Accepts(Migrate(target), s)
  {
    hide Diff;
    hide Apply;
    hide Encode;
    hide Decode;
    hide DocOk;
    var next := MigrationTarget(s, target);
    if next.Some? {
      DiffApplies(Encode(s), Encode(next.value));
      CodecRoundTrip(next.value);
      ValidEncoded(next.value);
    }
  }

  lemma MigrateApplies(s: NodeState, next: NodeState)
    ensures ApplyChecked(Diff(Encode(s), Encode(next)), Encode(s)) == if Valid(next) then Some(Encode(next)) else None
  {
    DiffApplies(Encode(s), Encode(next));
    ValidEncoded(next);
  }

  /** The migration patch is the diff to the migrated record, so it writes that record. */
  lemma MigrateWritten(s: NodeState, target: string)
    ensures ProposeOne(Migrate(target), Encode(s)) ==
            if Accepts(Migrate(target), s) then Some(Encode(MigrationTarget(s, target).value)) else None
  {
    CodecRoundTrip(s);
    MigrateChecks(s, target);
    var next := MigrationTarget(s, target);
    if next.Some? {
      MigrateApplies(s, next.value);
    }
  }

  /** A proposal on a document the node wrote is the record update, written out; so documents it
      wrote stay of that kind, and stay valid. */
  lemma WrittenStep(t: Transition, s: NodeState)
    requires Valid(s) && PlainIds(t)
    ensures ProposeOne(t, Encode(s)) == if Accepts(t, s) then Some(Encode(Update(t, s))) else None
    ensures Accepts(t, s) ==> Valid(Update(t, s))
  {
    if t.Migrate? {
      MigrateWritten(s, t.target);
    } else {
      WrittenUpdate(t, s);
    }
    if Accepts(t, s) {
      ValidEncoded(Update(t, s));
    }
  }

  lemma WrittenUpdate(t: Transition, s: NodeState)
    requires Valid(s) && PlainIds(t) && !t.Migrate?
    ensures ProposeOne(t, Encode(s)) == if Accepts(t, s) then Some(Encode(Update(t, s))) else None
  {
    assert ValidateState(Encode(s)) by {
      ValidEncoded(s);
    }
    assert Decode(Encode(s)) == Some(s) by {
      CodecRoundTrip(s);
    }
    assert StepIs(t, Encode(s), DocUpdate(t, Encode(s))) by {
      PatchRefinesUpdate(t, Encode(s));
    }
    if Accepts(t, s) {
      UpdateWritten(t, s);
    }
  }

  /** A migration of a valid state is accepted exactly when its target is another version from
      v0.0.1 to v0.0.8, a state with processes only stays at v0.0.8, a state with installations
      stays at v0.0.4 or later, and the drivers in use exist at the target. */
  lemma MigrationAccepted(s: NodeState, target: string)
    requires Valid(s)
    ensures var v := SchemaIndex(target);
      Accepts(Migrate(target), s) <==>
      && v > 0 && target != s.schemaVersion
      && (Entries(s.processes) != map[] ==> v == 8)
      && (Entries(s.apps) != map[] ==> v >= 4)
      && (forall k :: k in Entries(s.apps) ==> Entries(s.apps)[k].driver in Drivers(v))
  {
    hide NodeMigrated;
    hide Carries;
    hide StateOk;
    var a := Version(s);
    IndexIsPlace(s.schemaVersion);
    IndexIsPlace(target);
    if target in NAMES && target != NAMES[0] && target != NAMES[a] {
      var b := Find(NAMES, target);
      TargetOnChain(s, a, b);
      MigrationCarries(s, a, b);
      CarriedValid(s, a, b, NodeMigrated(s, a, b));
    } else {
      TargetOffChain(s, a, target);
    }
  }

  /** An accepted migration runs between two places of the chain and carries every entry along. */
  lemma AcceptedCarries(s: NodeState, target: string)
    requires Version(s) > 0 && Accepts(Migrate(target), s)
    ensures var a, b := Version(s), SchemaIndex(target);
      && b > 0 && a != b
      && Update(Migrate(target), s) == NodeMigrated(s, a, b)
      && Update(Migrate(target), s).schemaVersion == target
      && Carries(a, b, s, Update(Migrate(target), s))
  {
    var a := Version(s);
    IndexIsPlace(s.schemaVersion);
    IndexIsPlace(target);
    if target in NAMES && target != NAMES[0] && target != NAMES[a] {
      var b := Find(NAMES, target);
      TargetOnChain(s, a, b);
      MigrationCarries(s, a, b);
    } else {
      TargetOffChain(s, a, target);
    }
  }

  lemma TargetOnChain(s: NodeState, a: nat, b: nat)
    requires 1 <= a <= 8 && s.schemaVersion == NAMES[a] && 0 < b < 10 && a != b
    ensures MigrationTarget(s, NAMES[b]) == Some(NodeMigrated(s, a, b))
  {
    NodeMigratedIs(s, a, b);
  }

  lemma TargetOffChain(s: NodeState, a: nat, target: string)
    requires 1 <= a <= 8 && s.schemaVersion == NAMES[a]
    requires target !in NAMES || target == NAMES[0] || target == NAMES[a]
    ensures MigrationTarget(s, target) == None
  {
    NodeChain();
  }

  lemma IndexIsPlace(version: string)
    ensures SchemaIndex(version) > 0 ==> version == NAMES[SchemaIndex(version)]
    ensures version in NAMES && SchemaIndex(version) == 0 ==> version == NAMES[0] || version == NAMES[9]
    ensures forall i :: 1 <= i <= 8 ==> SchemaIndex(NAMES[i]) == i
    ensures SchemaIndex(NAMES[0]) == 0 && SchemaIndex(NAMES[9]) == 0
  {
  }

  lemma CarriedValid(s: NodeState, a: nat, b: nat, r: NodeState)
    requires Valid(s) && a == Version(s) && 1 <= b <= 9 && a != b
    requires Carries(a, b, s, r) && r.schemaVersion == NAMES[b]
    ensures Valid(r) <==>
      && b <= 8
      && (Entries(s.processes) != map[] ==> b == 8)
      && (Entries(s.apps) != map[] ==> b >= 4)
      && (forall k :: k in Entries(s.apps) ==> Entries(s.apps)[k].driver in Drivers(b))
  {
    IndexIsPlace(NAMES[b]);
    if b <= 8 {
      CarriedUsersFit(s, a, b, r);
      CarriedAppsFit(s, a, b, r);
      if s.processes.value != map[] {
        var k :| k in s.processes.value;
        assert ProcessFits(b, r.processes.value[k]) <==> b >= 8;
      }
    }
  }

  lemma CarriedUsersFit(s: NodeState, a: nat, b: nat, r: NodeState)
    requires StateOk(a, s) && Carries(a, b, s, r) && 1 <= a && 1 <= b
    ensures r.users.Some? && forall k :: k in r.users.value ==> UserFits(b, r.users.value[k])
  {
    forall k | k in r.users.value
      ensures UserFits(b, r.users.value[k])
    {
      assert Entries(r.users)[k] == CarriedUser(a, b, Entries(s.users)[k]);
      assert UserFits(a, s.users.value[k]);
    }
  }

  lemma CarriedAppsFit(s: NodeState, a: nat, b: nat, r: NodeState)
    requires StateOk(a, s) && Carries(a, b, s, r) && 1 <= a && 1 <= b
    ensures r.apps.Some?
    ensures (forall k :: k in r.apps.value ==> AppFits(b, r.apps.value[k])) <==>
            (Entries(s.apps) != map[] ==> b >= 4) && forall k :: k in Entries(s.apps) ==> Entries(s.apps)[k].driver in Drivers(b)
  {
    forall k | k in r.apps.value
      ensures AppFits(b, r.apps.value[k]) <==> b >= 4 && Entries(s.apps)[k].driver in Drivers(b)
    {
      assert Entries(r.apps)[k] == CarriedApp(a, b, Entries(s.apps)[k]);
      assert AppFits(a, s.apps.value[k]);
    }
    if Entries(s.apps) != map[] {
      var k :| k in Entries(s.apps);
      assert k in r.apps.value;
    }
  }
}

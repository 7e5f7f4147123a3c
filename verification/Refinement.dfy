/** The JSON patches of the transitions carry out the record updates: on every valid document a
    proposal step succeeds exactly when the record accepts the transition, and the new document
    decodes to the updated record. */
module Refinement {
  import opened Options
  import opened Json
  import opened State
  import opened Schema
  import opened Documents
  import opened Transitions

  // ---------------------------------------------------------------- shape of valid documents

  /** An entry map of a document and of its record: absent together, or one decodes to the other. */
  ghost predicate Mirrors<T(!new)>(doc: Json, member: string, m: Option<map<string, T>>, decode: Json -> Option<T>)
    requires doc.Obj?
  {
    && (member in doc.fields ==> doc.fields[member].Obj? || doc.fields[member].Null?)
    && (m.Some? <==> member in doc.fields && doc.fields[member].Obj?)
    && (m.Some? ==> DecodeEntries(MemberFields(doc, member), decode) == m)
  }

  lemma MapMemberMirrors<T(!new)>(doc: Json, member: string, decode: Json -> Option<T>)
    requires doc.Obj? && MapMember(doc.fields, member, decode).Some?
    ensures Mirrors(doc, member, MapMember(doc.fields, member, decode).value, decode)
  {
  }

  lemma DecodedMaps(doc: Json)
    requires doc.Obj? && Decode(doc).Some?
    ensures var s, f := Decode(doc).value, doc.fields;
      && MapMember(f, "users", DecodeUser) == Some(s.users)
      && MapMember(f, "processes", DecodeProcess) == Some(s.processes)
      && MapMember(f, "app_installations", DecodeApp) == Some(s.apps)
      && MapMember(f, "reverse_proxy_rules", DecodeRule) == Some(s.rules)
  {
  }

  lemma Shape(doc: Json)
    requires ValidateState(doc)
    ensures doc.Obj? && DocOk(Version(Decode(doc).value), doc)
    ensures var s := Decode(doc).value;
      && Mirrors(doc, "users", s.users, DecodeUser)
      && Mirrors(doc, "processes", s.processes, DecodeProcess)
      && Mirrors(doc, "app_installations", s.apps, DecodeApp)
      && Mirrors(doc, "reverse_proxy_rules", s.rules, DecodeRule)
  {
    assert doc.Obj?;
    DecodedMaps(doc);
    MapMemberMirrors(doc, "users", DecodeUser);
    MapMemberMirrors(doc, "processes", DecodeProcess);
    MapMemberMirrors(doc, "app_installations", DecodeApp);
    MapMemberMirrors(doc, "reverse_proxy_rules", DecodeRule);
  }

  lemma UsersPresent(doc: Json)
    requires ValidateState(doc)
    ensures Decode(doc).value.users.Some?
  {
    assert doc.Obj? && doc.fields["users"].Obj?;
    DecodedMaps(doc);
  }

  lemma MemberEntriesOk(v: nat, doc: Json)
    requires DocOk(v, doc)
    ensures EntriesOk(UserFields(v), USER_REQUIRED, Obj(MemberFields(doc, "users")))
    ensures EntriesOk(ProcessFields(v), ProcessRequired(v), Obj(MemberFields(doc, "processes")))
    ensures EntriesOk(AppFields(v), AppRequired(v), Obj(MemberFields(doc, "app_installations")))
    ensures v >= 4 ==> EntriesOk(RULE_FIELDS, RULE_REQUIRED, Obj(MemberFields(doc, "reverse_proxy_rules")))
  {
  }

  /** A changed document that keeps its version is valid when it still fits that version's schema. */
  lemma StillValid(doc: Json, next: Json)
    requires ValidateState(doc) && Decode(next).Some?
    requires Decode(next).value.schemaVersion == Decode(doc).value.schemaVersion
    ensures ValidateState(next) <==> DocOk(Version(Decode(doc).value), next)
  {
  }

  lemma UsersSet(doc: Json, g: map<string, Json>, m: map<string, User>)
    requires ValidateState(doc) && DecodeEntries(g, DecodeUser) == Some(m)
    ensures doc.Obj?
    ensures var s, next := Decode(doc).value, SetMember(doc, "users", g);
      && Decode(next) == Some(s.(users := Some(m)))
      && (ValidateState(next) <==> EntriesOk(UserFields(Version(s)), USER_REQUIRED, Obj(g)))
  {
    DecodeSetUsers(doc, g);
    DocOkSetUsers(Version(Decode(doc).value), doc, g);
    StillValid(doc, SetMember(doc, "users", g));
  }

  lemma ProcessesSet(doc: Json, g: map<string, Json>, m: map<string, Process>)
    requires ValidateState(doc) && DecodeEntries(g, DecodeProcess) == Some(m)
    ensures doc.Obj?
    ensures var s, next := Decode(doc).value, SetMember(doc, "processes", g); var v := Version(s);
      && Decode(next) == Some(s.(processes := Some(m)))
      && (ValidateState(next) <==> EntriesOk(ProcessFields(v), ProcessRequired(v), Obj(g)))
  {
    DecodeSetProcesses(doc, g);
    DocOkSetProcesses(Version(Decode(doc).value), doc, g);
    StillValid(doc, SetMember(doc, "processes", g));
  }

  lemma AppsSet(doc: Json, g: map<string, Json>, m: map<string, Installation>)
    requires ValidateState(doc) && DecodeEntries(g, DecodeApp) == Some(m)
    ensures doc.Obj?
    ensures var s, next := Decode(doc).value, SetMember(doc, "app_installations", g); var v := Version(s);
      && Decode(next) == Some(s.(apps := Some(m)))
      && (ValidateState(next) <==> EntriesOk(AppFields(v), AppRequired(v), Obj(g)))
  {
    DecodeSetApps(doc, g);
    DocOkSetApps(Version(Decode(doc).value), doc, g);
    StillValid(doc, SetMember(doc, "app_installations", g));
  }

  // ---------------------------------------------------------------- one transition each

  /** What a step that goes through leaves: the edited document, decoding to the updated record. */
  ghost predicate StepIs(t: Transition, doc: Json, next: Json)
    requires Decode(doc).Some?
  {
    var s := Decode(doc).value;
    if Accepts(t, s) then ProposeOne(t, doc) == Some(next) && Decode(next) == Some(Update(t, s))
    else ProposeOne(t, doc) == None
  }

  function PutUser(doc: Json, u: User): Json
    requires doc.Obj?
  {
    SetMember(doc, "users", MemberFields(doc, "users")[u.id := EncodeUser(u)])
  }

  lemma AddUserStep(doc: Json, u: User)
    requires ValidateState(doc) && Plain(u.id)
    ensures doc.Obj? && StepIs(AddUser(u), doc, PutUser(doc, u))
  {
    UsersPresent(doc);
    AddUserDoc(doc, u);
    AddUserPatch(doc, u);
  }

  lemma AddUserPatch(doc: Json, u: User)
    requires doc.Obj? && "users" in doc.fields && doc.fields["users"].Obj? && Plain(u.id)
    ensures Apply([Op(MemberPath("users", u.id), Add(EncodeUser(u)))], doc) == Some(PutUser(doc, u))
  {
    ApplyEntryOp(doc, "users", u.id, Add(EncodeUser(u)));
  }

  lemma AddUserDoc(doc: Json, u: User)
    requires ValidateState(doc) && Decode(doc).value.users.Some?
    ensures doc.Obj? && "users" in doc.fields && doc.fields["users"].Obj?
    ensures var s, next := Decode(doc).value, PutUser(doc, u);
      && Decode(next) == Some(s.(users := Some(s.users.value[u.id := u])))
      && (ValidateState(next) <==> UserFits(Version(s), u))
  {
    Shape(doc);
    var s := Decode(doc).value;
    var v, g, j := Version(s), MemberFields(doc, "users"), EncodeUser(u);
    MemberEntriesOk(v, doc);
    UserRoundTrip(u);
    UserEntry(v, u);
    DecodeEntriesSet(g, u.id, j, DecodeUser);
    UsersSet(doc, g[u.id := j], s.users.value[u.id := u]);
    EntriesOkSet(UserFields(v), USER_REQUIRED, g, u.id, j);
  }

  function PutProcess(doc: Json, p: Process): Json
    requires doc.Obj?
  {
    SetMember(doc, "processes", MemberFields(doc, "processes")[p.id := EncodeProcess(p)])
  }

  /** An operation on one entry of an entry map, given how the map is mirrored in the record. */
  lemma EntryPatch<T(!new)>(doc: Json, member: string, m: Option<map<string, T>>, decode: Json -> Option<T>, id: string, e: Edit)
    requires doc.Obj? && Mirrors(doc, member, m, decode) && member in MEMBERS && Plain(id)
    ensures var g := MemberFields(doc, member);
      Apply([Op(MemberPath(member, id), e)], doc) ==
      if m.None? || (!e.Add? && id !in m.value) then None
      else Some(SetMember(doc, member, if e.Remove? then g - {id} else g[id := e.value]))
  {
    ApplyEntryOp(doc, member, id, e);
  }

  lemma StartProcessStep(doc: Json, p: Process)
    requires ValidateState(doc) && Plain(p.id)
    ensures doc.Obj? && StepIs(StartProcess(Some(p)), doc, PutProcess(doc, p))
  {
    hide Apply;
    hide DocOk;
    hide Decode;
    hide EncodeProcess;
    hide Plain;
    var s := Decode(doc).value;
    ProcessPatch(doc, s.processes, p.id, Add(EncodeProcess(p)));
    if s.processes.Some? {
      StartProcessDoc(doc, p);
    }
  }

  lemma ProcessPatch(doc: Json, m: Option<map<string, Process>>, id: string, e: Edit)
    requires ValidateState(doc) && Decode(doc).value.processes == m && Plain(id)
    ensures doc.Obj?
    ensures var g := MemberFields(doc, "processes");
      Apply([Op(MemberPath("processes", id), e)], doc) ==
      if m.None? || (!e.Add? && id !in m.value) then None
      else Some(SetMember(doc, "processes", if e.Remove? then g - {id} else g[id := e.value]))
  {
    assert Mirrors(doc, "processes", m, DecodeProcess) by {
      Shape(doc);
    }
    EntryPatch(doc, "processes", m, DecodeProcess, id, e);
  }

  lemma StartProcessDoc(doc: Json, p: Process)
    requires ValidateState(doc) && Decode(doc).value.processes.Some?
    ensures doc.Obj?
    ensures var s, next := Decode(doc).value, PutProcess(doc, p);
      && Decode(next) == Some(s.(processes := Some(s.processes.value[p.id := p])))
      && (ValidateState(next) <==> ProcessFits(Version(s), p))
  {
    Shape(doc);
    var s := Decode(doc).value;
    var v, g, j := Version(s), MemberFields(doc, "processes"), EncodeProcess(p);
    MemberEntriesOk(v, doc);
    ProcessRoundTrip(p);
    ProcessEntry(v, p);
    DecodeEntriesSet(g, p.id, j, DecodeProcess);
    ProcessesSet(doc, g[p.id := j], s.processes.value[p.id := p]);
    EntriesOkSet(ProcessFields(v), ProcessRequired(v), g, p.id, j);
  }

  function DropProcess(doc: Json, id: string): Json
    requires doc.Obj?
  {
    SetMember(doc, "processes", MemberFields(doc, "processes") - {id})
  }

  lemma StopProcessStep(doc: Json, id: string)
    requires ValidateState(doc) && Plain(id)
    ensures doc.Obj? && StepIs(StopProcess(id), doc, DropProcess(doc, id))
  {
    hide Apply;
    hide DocOk;
    hide Plain;
    var s := Decode(doc).value;
    ProcessPatch(doc, s.processes, id, Remove);
    if s.processes.Some? {
      StopProcessDoc(doc, id);
    }
  }

  lemma StopProcessDoc(doc: Json, id: string)
    requires ValidateState(doc) && Decode(doc).value.processes.Some?
    ensures doc.Obj?
    ensures var s, next := Decode(doc).value, DropProcess(doc, id);
      Decode(next) == Some(s.(processes := Some(s.processes.value - {id}))) && ValidateState(next)
  {
    Shape(doc);
    var s := Decode(doc).value;
    var v, g := Version(s), MemberFields(doc, "processes");
    MemberEntriesOk(v, doc);
    DecodeEntriesDrop(g, id, DecodeProcess);
    ProcessesSet(doc, g - {id}, s.processes.value - {id});
    EntriesOkSet(ProcessFields(v), ProcessRequired(v), g, id, Null);
  }

  function DropApp(doc: Json, id: string): Json
    requires doc.Obj?
  {
    SetMember(doc, "app_installations", MemberFields(doc, "app_installations") - {id})
  }

  lemma UninstallStep(doc: Json, id: string)
    requires ValidateState(doc) && Plain(id)
    ensures doc.Obj? && StepIs(Uninstall(id), doc, DropApp(doc, id))
  {
    hide Apply;
    hide DocOk;
    hide Plain;
    var s := Decode(doc).value;
    AppPatch(doc, s.apps, id, Remove);
    if s.apps.Some? {
      UninstallDoc(doc, id);
    }
  }

  lemma AppPatch(doc: Json, m: Option<map<string, Installation>>, id: string, e: Edit)
    requires ValidateState(doc) && Decode(doc).value.apps == m && Plain(id)
    ensures doc.Obj?
    ensures var g := MemberFields(doc, "app_installations");
      Apply([Op(MemberPath("app_installations", id), e)], doc) ==
      if m.None? || (!e.Add? && id !in m.value) then None
      else Some(SetMember(doc, "app_installations", if e.Remove? then g - {id} else g[id := e.value]))
  {
    assert Mirrors(doc, "app_installations", m, DecodeApp) by {
      Shape(doc);
    }
    EntryPatch(doc, "app_installations", m, DecodeApp, id, e);
  }

  lemma UninstallDoc(doc: Json, id: string)
    requires ValidateState(doc) && Decode(doc).value.apps.Some?
    ensures doc.Obj?
    ensures var s, next := Decode(doc).value, DropApp(doc, id);
      Decode(next) == Some(s.(apps := Some(s.apps.value - {id}))) && ValidateState(next)
  {
    Shape(doc);
    var s := Decode(doc).value;
    var v, g := Version(s), MemberFields(doc, "app_installations");
    MemberEntriesOk(v, doc);
    DecodeEntriesDrop(g, id, DecodeApp);
    AppsSet(doc, g - {id}, s.apps.value - {id});
    EntriesOkSet(AppFields(v), AppRequired(v), g, id, Null);
  }

  function InstalledEntry(j: Json): Json
    requires j.Obj?
  {
    Obj(j.fields["state" := Str("installed")])
  }

  function FinishApp(doc: Json, id: string): Json
    requires doc.Obj?
  {
    var g := MemberFields(doc, "app_installations");
    if id in g && g[id].Obj? then SetMember(doc, "app_installations", g[id := InstalledEntry(g[id])]) else doc
  }

  lemma InstalledEntryOk(v: nat, j: Json)
    requires EntryOk(AppFields(v), AppRequired(v), j)
    ensures "state" in j.fields
    ensures EntryOk(AppFields(v), AppRequired(v), InstalledEntry(j))
  {
    assert "state" in AppRequired(v);
    assert AppFields(v)["state"] == Enum(LIFECYCLES);
    assert FieldOk(AppFields(v)["state"], Str("installed"));
  }

  lemma InstalledEntryDecodes(j: Json)
    requires DecodeApp(j).Some?
    ensures DecodeApp(InstalledEntry(j)) == Some(DecodeApp(j).value.(lifecycle := "installed"))
  {
    var f, f' := j.fields, InstalledEntry(j).fields;
    assert TextMember(f', "state") == Some("installed");
    assert ObjectMember(f', "driver_config") == ObjectMember(f, "driver_config");
    assert TextMember(f', "id") == TextMember(f, "id") && TextMember(f', "user_id") == TextMember(f, "user_id");
    assert TextMember(f', "name") == TextMember(f, "name") && TextMember(f', "version") == TextMember(f, "version");
    assert TextMember(f', "driver") == TextMember(f, "driver");
    assert TextMember(f', "registry_url_base") == TextMember(f, "registry_url_base");
    assert TextMember(f', "registry_app_id") == TextMember(f, "registry_app_id");
    assert TextMember(f', "registry_tag") == TextMember(f, "registry_tag");
  }

  lemma FinishStep(doc: Json, id: string)
    requires ValidateState(doc) && Plain(id)
    ensures doc.Obj? && StepIs(FinishInstallation(id), doc, FinishApp(doc, id))
  {
    hide Apply;
    hide DocOk;
    hide Plain;
    assert doc.Obj?;
    if id in Entries(Decode(doc).value.apps) {
      FinishDoc(doc, id);
      FinishPatch(doc, id);
    }
  }

  lemma FinishPatch(doc: Json, id: string)
    requires doc.Obj? && "app_installations" in doc.fields && doc.fields["app_installations"].Obj? && Plain(id)
    requires var g := MemberFields(doc, "app_installations"); id in g && g[id].Obj? && "state" in g[id].fields
    ensures Apply([Op("/" + "app_installations" + "/" + id + "/" + "state", Replace(Str("installed")))], doc) == Some(FinishApp(doc, id))
  {
    ReplaceEntryField(doc, "app_installations", id, "state", Str("installed"));
  }

  lemma FinishDoc(doc: Json, id: string)
    requires ValidateState(doc) && id in Entries(Decode(doc).value.apps)
    ensures doc.Obj? && "app_installations" in doc.fields && doc.fields["app_installations"].Obj?
    ensures var g := MemberFields(doc, "app_installations"); id in g && g[id].Obj? && "state" in g[id].fields
    ensures var s, next := Decode(doc).value, FinishApp(doc, id);
      && Decode(next) == Some(s.(apps := Some(s.apps.value[id := s.apps.value[id].(lifecycle := "installed")])))
      && ValidateState(next)
  {
    Shape(doc);
    var s := Decode(doc).value;
    var v, g := Version(s), MemberFields(doc, "app_installations");
    MemberEntriesOk(v, doc);
    var j := InstalledEntry(g[id]);
    InstalledEntryOk(v, g[id]);
    InstalledEntryDecodes(g[id]);
    DecodeEntriesSet(g, id, j, DecodeApp);
    AppsSet(doc, g[id := j], s.apps.value[id := s.apps.value[id].(lifecycle := "installed")]);
    EntriesOkSet(AppFields(v), AppRequired(v), g, id, j);
  }

  // ---------------------------------------------------------------- rules

  function PutRuleEntries(g: map<string, Json>, rules: seq<Rule>): map<string, Json>
    decreases |rules|
  {
    if rules == [] then g else PutRuleEntries(g[rules[0].id := EncodeRule(rules[0])], rules[1..])
  }

  function SetRules(doc: Json, rules: seq<Rule>): Json
    requires doc.Obj?
  {
    if rules == [] then doc
    else SetMember(doc, "reverse_proxy_rules", PutRuleEntries(MemberFields(doc, "reverse_proxy_rules"), rules))
  }

  lemma {:induction false} RuleOpsApply(doc: Json, rules: seq<Rule>)
    requires doc.Obj?
    requires "reverse_proxy_rules" in doc.fields && doc.fields["reverse_proxy_rules"].Obj?
    requires forall i :: 0 <= i < |rules| ==> Plain(rules[i].id)
    ensures Apply(RuleOps(rules), doc) == Some(SetRules(doc, rules))
    decreases |rules|
  {
    if rules != [] {
      var r, member := rules[0], "reverse_proxy_rules";
      var op := Op(MemberPath(member, r.id), Add(EncodeRule(r)));
      var g := MemberFields(doc, member)[r.id := EncodeRule(r)];
      var next := SetMember(doc, member, g);
      ApplyEntryOp(doc, member, r.id, Add(EncodeRule(r)));
      ApplyConcat([op], RuleOps(rules[1..]), doc);
      RuleOpsApply(next, rules[1..]);
      SetTwice(doc, member, g, PutRuleEntries(g, rules[1..]));
      assert SetRules(next, rules[1..]) == SetRules(doc, rules);
    }
  }

  lemma SetTwice(doc: Json, member: string, g: map<string, Json>, h: map<string, Json>)
    requires doc.Obj?
    ensures SetMember(SetMember(doc, member, g), member, h) == SetMember(doc, member, h)
    ensures MemberFields(SetMember(doc, member, g), member) == g
  {
    assert doc.fields[member := Obj(g)][member := Obj(h)] == doc.fields[member := Obj(h)];
  }

  lemma RuleOpsFail(doc: Json, rules: seq<Rule>)
    requires doc.Obj? && rules != [] && Plain(rules[0].id)
    requires "reverse_proxy_rules" in doc.fields ==> doc.fields["reverse_proxy_rules"].Null?
    ensures Apply(RuleOps(rules), doc) == None
  {
    var op := Op(MemberPath("reverse_proxy_rules", rules[0].id), Add(EncodeRule(rules[0])));
    ApplyEntryOp(doc, "reverse_proxy_rules", rules[0].id, Add(EncodeRule(rules[0])));
    ApplyConcat([op], RuleOps(rules[1..]), doc);
  }

  lemma {:induction false} PutRulesDecode(g: map<string, Json>, m: map<string, Rule>, rules: seq<Rule>)
    requires DecodeEntries(g, DecodeRule) == Some(m)
    ensures DecodeEntries(PutRuleEntries(g, rules), DecodeRule) == Some(PutRules(m, rules))
    decreases |rules|
  {
    if rules != [] {
      var r := rules[0];
      RuleRoundTrip(r);
      DecodeEntriesSet(g, r.id, EncodeRule(r), DecodeRule);
      PutRulesDecode(g[r.id := EncodeRule(r)], m[r.id := r], rules[1..]);
    }
  }

  ghost predicate RuleEntriesFit(g: map<string, Json>, m: map<string, Rule>)
  {
    && g.Keys == m.Keys
    && forall k :: k in m ==> (EntryOk(RULE_FIELDS, RULE_REQUIRED, g[k]) <==> m[k].ruleType in RULE_TYPES)
  }

  lemma {:induction false} PutRulesFit(g: map<string, Json>, m: map<string, Rule>, rules: seq<Rule>)
    requires RuleEntriesFit(g, m)
    ensures RuleEntriesFit(PutRuleEntries(g, rules), PutRules(m, rules))
    decreases |rules|
  {
    if rules != [] {
      var r := rules[0];
      RuleEntry(r);
      PutRulesFit(g[r.id := EncodeRule(r)], m[r.id := r], rules[1..]);
    }
  }

  lemma RuleTypeOk(j: Json)
    requires EntryOk(RULE_FIELDS, RULE_REQUIRED, j) && DecodeRule(j).Some?
    ensures DecodeRule(j).value.ruleType in RULE_TYPES
  {
    assert "type" in j.fields && RULE_FIELDS["type"] == Enum(RULE_TYPES);
  }

  lemma DecodedRulesFit(g: map<string, Json>, m: map<string, Rule>)
    requires DecodeEntries(g, DecodeRule) == Some(m)
    requires EntriesOk(RULE_FIELDS, RULE_REQUIRED, Obj(g))
    ensures RuleEntriesFit(g, m)
  {
    forall k | k in m
      ensures m[k].ruleType in RULE_TYPES
    {
      RuleTypeOk(g[k]);
    }
  }

  lemma FitTogether(g: map<string, Json>, m: map<string, Rule>)
    requires RuleEntriesFit(g, m)
    ensures EntriesOk(RULE_FIELDS, RULE_REQUIRED, Obj(g)) <==> forall k :: k in m ==> m[k].ruleType in RULE_TYPES
  {
  }

  ghost predicate AllFit(v: nat, m: map<string, Rule>)
  {
    forall k :: k in m ==> RuleFits(v, m[k])
  }

  /** Putting rules into a document that fits its schema. */
  lemma RulesPut(v: nat, doc: Json, s: NodeState, rules: seq<Rule>)
    requires DocOk(v, doc) && Decode(doc) == Some(s) && s.rules.Some?
    requires Mirrors(doc, "reverse_proxy_rules", s.rules, DecodeRule)
    ensures Decode(SetRules(doc, rules)) == Some(s.(rules := Some(PutRules(s.rules.value, rules))))
    ensures DocOk(v, SetRules(doc, rules)) <==> AllFit(v, PutRules(s.rules.value, rules))
  {
    var g, m := MemberFields(doc, "reverse_proxy_rules"), s.rules.value;
    var g', m' := PutRuleEntries(g, rules), PutRules(m, rules);
    MemberEntriesOk(v, doc);
    if v >= 4 {
      DecodedRulesFit(g, m);
      PutRulesFit(g, m, rules);
      FitTogether(g', m');
      if rules == [] {
        FitTogether(g, m);
      }
    }
    PutRulesDecode(g, m, rules);
    if rules != [] {
      DecodeSetRules(doc, g');
      DocOkSetRules(v, doc, g');
    }
  }

  lemma AddRuleStep(doc: Json, r: Rule)
    requires ValidateState(doc) && Plain(r.id)
    ensures doc.Obj? && StepIs(AddRule(r), doc, SetRules(doc, [r]))
  {
    hide Apply;
    hide DocOk;
    hide Decode;
    hide EncodeRule;
    hide Plain;
    var s := Decode(doc).value;
    AddRulePatch(doc, s.rules, r);
    if s.rules.Some? {
      AddRuleDoc(doc, r);
    }
  }

  lemma AddRulePatch(doc: Json, m: Option<map<string, Rule>>, r: Rule)
    requires ValidateState(doc) && Decode(doc).value.rules == m && Plain(r.id)
    ensures doc.Obj?
    ensures Apply([Op(MemberPath("reverse_proxy_rules", r.id), Add(EncodeRule(r)))], doc) ==
            if m.None? then None else Some(SetRules(doc, [r]))
  {
    assert Mirrors(doc, "reverse_proxy_rules", m, DecodeRule) by {
      Shape(doc);
    }
    EntryPatch(doc, "reverse_proxy_rules", m, DecodeRule, r.id, Add(EncodeRule(r)));
    PutOne(MemberFields(doc, "reverse_proxy_rules"), map[], r);
  }

  lemma PutOne(g: map<string, Json>, m: map<string, Rule>, r: Rule)
    ensures PutRuleEntries(g, [r]) == g[r.id := EncodeRule(r)]
    ensures PutRules(m, [r]) == m[r.id := r]
  {
    assert [r][1..] == [];
    assert PutRuleEntries(g[r.id := EncodeRule(r)], []) == g[r.id := EncodeRule(r)];
    assert PutRules(m[r.id := r], []) == m[r.id := r];
  }

  lemma AddRuleDoc(doc: Json, r: Rule)
    requires ValidateState(doc) && Decode(doc).value.rules.Some?
    ensures doc.Obj?
    ensures var s, next := Decode(doc).value, SetRules(doc, [r]);
      && Decode(next) == Some(s.(rules := Some(s.rules.value[r.id := r])))
      && (ValidateState(next) <==> RuleFits(Version(s), r))
  {
    var s := Decode(doc).value;
    var v, m := Version(s), s.rules.value;
    assert doc.Obj? && Mirrors(doc, "reverse_proxy_rules", s.rules, DecodeRule) && DocOk(v, doc) by {
      Shape(doc);
    }
    PutOne(map[], m, r);
    RulesPut(v, doc, s, [r]);
    StillValid(doc, SetRules(doc, [r]));
    ValidRulesFit(doc);
    OneMoreFits(v, m, r);
  }

  lemma OneMoreFits(v: nat, m: map<string, Rule>, r: Rule)
    requires AllFit(v, m)
    ensures AllFit(v, m[r.id := r]) <==> RuleFits(v, r)
  {
    assert m[r.id := r][r.id] == r;
  }

  // ---------------------------------------------------------------- installations

  function PutApp(doc: Json, a: Installation): Json
    requires doc.Obj?
  {
    SetMember(doc, "app_installations", MemberFields(doc, "app_installations")[a.id := EncodeApp(a)])
  }

  lemma PutAppDoc(doc: Json, a: Installation)
    requires ValidateState(doc) && Decode(doc).value.apps.Some?
    ensures doc.Obj?
    ensures var s, next := Decode(doc).value, PutApp(doc, a);
      && Decode(next) == Some(s.(apps := Some(s.apps.value[a.id := a])))
      && (DocOk(Version(s), next) <==> AppFits(Version(s), a))
      && (ValidateState(next) <==> AppFits(Version(s), a))
  {
    var s := Decode(doc).value;
    var v, g, j := Version(s), MemberFields(doc, "app_installations"), EncodeApp(a);
    assert doc.Obj? && Mirrors(doc, "app_installations", s.apps, DecodeApp) && DocOk(v, doc) by {
      Shape(doc);
    }
    assert EntriesOk(AppFields(v), AppRequired(v), Obj(g)) by {
      MemberEntriesOk(v, doc);
    }
    AppRoundTrip(a);
    AppEntry(v, a);
    DecodeEntriesSet(g, a.id, j, DecodeApp);
    AppsSet(doc, g[a.id := j], s.apps.value[a.id := a]);
    EntriesOkSet(AppFields(v), AppRequired(v), g, a.id, j);
    StillValid(doc, PutApp(doc, a));
  }

  lemma PutAppKeepsRules(doc: Json, a: Installation)
    requires ValidateState(doc)
    ensures doc.Obj? && Mirrors(PutApp(doc, a), "reverse_proxy_rules", Decode(doc).value.rules, DecodeRule)
  {
    var s := Decode(doc).value;
    assert doc.Obj? && Mirrors(doc, "reverse_proxy_rules", s.rules, DecodeRule) by {
      Shape(doc);
    }
    assert MemberFields(PutApp(doc, a), "reverse_proxy_rules") == MemberFields(doc, "reverse_proxy_rules");
  }

  lemma InstallPatch(doc: Json, a: Installation, rules: seq<Rule>, s: NodeState)
    requires PlainIds(StartInstallation(a, rules)) && doc.Obj?
    requires Mirrors(doc, "app_installations", s.apps, DecodeApp)
    requires Mirrors(doc, "reverse_proxy_rules", s.rules, DecodeRule)
    ensures Apply([Op(MemberPath("app_installations", a.id), Add(EncodeApp(a)))] + RuleOps(rules), doc) ==
            if s.apps.Some? && (rules == [] || s.rules.Some?) then Some(SetRules(PutApp(doc, a), rules)) else None
  {
    var op := Op(MemberPath("app_installations", a.id), Add(EncodeApp(a)));
    EntryPatch(doc, "app_installations", s.apps, DecodeApp, a.id, Add(EncodeApp(a)));
    ApplyConcat([op], RuleOps(rules), doc);
    var next := PutApp(doc, a);
    assert "reverse_proxy_rules" in next.fields <==> "reverse_proxy_rules" in doc.fields;
    assert "reverse_proxy_rules" in next.fields ==>
             next.fields["reverse_proxy_rules"] == doc.fields["reverse_proxy_rules"];
    if s.rules.Some? {
      RuleOpsApply(next, rules);
    } else if rules != [] {
      RuleOpsFail(next, rules);
    }
  }

  /** The document after the whole installation patch. */
  lemma InstalledDoc(doc: Json, a: Installation, rules: seq<Rule>)
    requires ValidateState(doc) && Decode(doc).value.apps.Some?
    requires rules != [] ==> Decode(doc).value.rules.Some?
    ensures doc.Obj?
    ensures var s := Decode(doc).value; var next := SetRules(PutApp(doc, a), rules);
      && Decode(next) == Some(s.(apps := Some(s.apps.value[a.id := a]),
                                 rules := if rules == [] then s.rules else Some(PutRules(Entries(s.rules), rules))))
      && (ValidateState(next) <==> AppFits(Version(s), a) && AllFit(Version(s), PutRules(Entries(s.rules), rules)))
  {
    PutAppDoc(doc, a);
    PutAppKeepsRules(doc, a);
    var s, mid := Decode(doc).value, PutApp(doc, a);
    if rules == [] {
      ValidRulesFit(doc);
    } else {
      RulesOnApp(doc, mid, Decode(mid).value, Version(s), rules);
    }
  }

  lemma ValidRulesFit(doc: Json)
    requires ValidateState(doc)
    ensures AllFit(Version(Decode(doc).value), Entries(Decode(doc).value.rules))
  {
    Shape(doc);
    var s := Decode(doc).value;
    var v, g := Version(s), MemberFields(doc, "reverse_proxy_rules");
    if v >= 4 && s.rules.Some? {
      MemberEntriesOk(v, doc);
      DecodedRulesFit(g, s.rules.value);
      FitTogether(g, s.rules.value);
    }
  }

  lemma RulesOnApp(doc: Json, mid: Json, s: NodeState, v: nat, rules: seq<Rule>)
    requires ValidateState(doc) && v == Version(Decode(doc).value) && rules != []
    requires mid.Obj? && Decode(mid) == Some(s) && s.schemaVersion == Decode(doc).value.schemaVersion
    requires Mirrors(mid, "reverse_proxy_rules", s.rules, DecodeRule) && s.rules.Some?
    requires "app_installations" in mid.fields
    requires !DocOk(v, mid) ==> !EntriesOk(AppFields(v), AppRequired(v), mid.fields["app_installations"])
    ensures var next := SetRules(mid, rules);
      && Decode(next) == Some(s.(rules := Some(PutRules(s.rules.value, rules))))
      && (ValidateState(next) <==> DocOk(v, mid) && AllFit(v, PutRules(s.rules.value, rules)))
  {
    var g := MemberFields(mid, "reverse_proxy_rules");
    var g' := PutRuleEntries(g, rules);
    PutRulesDecode(g, s.rules.value, rules);
    DecodeSetRules(mid, g');
    StillValid(doc, SetRules(mid, rules));
    if DocOk(v, mid) {
      RulesPut(v, mid, s, rules);
    } else {
      assert SetRules(mid, rules).fields["app_installations"] == mid.fields["app_installations"];
    }
  }

  lemma StartInstallationStep(doc: Json, a: Installation, rules: seq<Rule>)
    requires ValidateState(doc) && PlainIds(StartInstallation(a, rules))
    ensures doc.Obj? && StepIs(StartInstallation(a, rules), doc, SetRules(PutApp(doc, a), rules))
  {
    hide Apply;
    hide DocOk;
    Shape(doc);
    var s := Decode(doc).value;
    InstallPatch(doc, a, rules, s);
    if s.apps.Some? && (rules == [] || s.rules.Some?) {
      InstalledDoc(doc, a, rules);
    }
  }
}

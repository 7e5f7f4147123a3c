/** Which documents fit the node schema of a version. The schema of a version is what its
    migration files build up; entries are objects without further members. */
module Schema {
  import opened Options
  import opened Json
  import opened State

  datatype FieldType = Text | Enum(values: set<string>) | Object

  predicate FieldOk(t: FieldType, j: Json)
  {
    match t
    case Text => j.Str?
    case Enum(values) => j.Str? && j.s in values
    case Object => j.Obj?
  }

  predicate EntryOk(fields: map<string, FieldType>, required: set<string>, j: Json)
  {
    && j.Obj?
    && required <= j.fields.Keys
    && forall k :: k in j.fields ==> k in fields && FieldOk(fields[k], j.fields[k])
  }

  predicate EntriesOk(fields: map<string, FieldType>, required: set<string>, j: Json)
  {
    j.Obj? && forall k :: k in j.fields ==> EntryOk(fields, required, j.fields[k])
  }

  /** The place of a version in the schema migration files, 0 when no file ends at it. */
  function SchemaIndex(version: string): (v: nat)
    ensures v <= 8
  {
    if version == "v0.0.1" then 1
    else if version == "v0.0.2" then 2
    else if version == "v0.0.3" then 3
    else if version == "v0.0.4" then 4
    else if version == "v0.0.5" then 5
    else if version == "v0.0.6" then 6
    else if version == "v0.0.7" then 7
    else if version == "v0.0.8" then 8
    else 0
  }

  function Drivers(v: nat): set<string>
  {
    if v >= 6 then {"docker", "web"} else {"docker"}
  }

  const LIFECYCLES := {"installing", "installed", "uninstalled"}
  const RULE_TYPES := {"file", "redirect"}

  function UserFields(v: nat): map<string, FieldType>
  {
    map["id" := Text, "username" := Text] + (if v >= 5 then map["atproto_did" := Text] else map[])
  }

  const USER_REQUIRED := {"id", "username"}

  function AppFields(v: nat): map<string, FieldType>
  {
    map["id" := Text, "name" := Text, "user_id" := Text, "version" := Text, "driver" := Enum(Drivers(v)),
        "registry_url_base" := Text, "registry_app_id" := Text, "registry_tag" := Text, "state" := Enum(LIFECYCLES)]
    + (if v >= 4 then map["driver_config" := Object] else map[])
  }

  function AppRequired(v: nat): set<string>
  {
    {"id", "name", "user_id", "version", "driver", "registry_url_base", "registry_app_id", "registry_tag", "state"}
    + (if v >= 4 then {"driver_config"} else {})
  }

  function ProcessFields(v: nat): map<string, FieldType>
  {
    map["id" := Text, "app_id" := Text, "user_id" := Text, "created" := Text]
    + (if v <= 7 then map["driver" := Enum(Drivers(v))] else map[])
    + (if v <= 6 then map["state" := Text, "ext_driver_id" := Text] else map[])
  }

  function ProcessRequired(v: nat): set<string>
  {
    {"id", "app_id", "user_id", "created"}
    + (if v <= 7 then {"driver"} else {})
    + (if v <= 6 then {"state", "ext_driver_id"} else {})
  }

  const RULE_FIELDS: map<string, FieldType> :=
    map["id" := Text, "type" := Enum(RULE_TYPES), "matcher" := Text, "target" := Text, "app_id" := Text]
  const RULE_REQUIRED := {"id", "type", "matcher", "target", "app_id"}

  /** A document fits the schema with index `v`; the document itself may have further members. */
  predicate DocOk(v: nat, doc: Json)
  {
    && doc.Obj?
    && var f := doc.fields;
    && "node_id" in f && "name" in f && "certificate" in f && "users" in f
    && f["node_id"].Str? && f["name"].Str? && f["certificate"].Str?
    && TextIfPresent(f, "schema_version")
    && (v == 2 ==> TextIfPresent(f, "test_field"))
    && EntriesOk(UserFields(v), USER_REQUIRED, f["users"])
    && ("app_installations" in f ==> EntriesOk(AppFields(v), AppRequired(v), f["app_installations"]))
    && ("processes" in f ==> EntriesOk(ProcessFields(v), ProcessRequired(v), f["processes"]))
    && (v >= 4 && "reverse_proxy_rules" in f ==> EntriesOk(RULE_FIELDS, RULE_REQUIRED, f["reverse_proxy_rules"]))
  }

  /** nodeSchema.ValidateState: the document decodes and fits the schema of its own version. */
  predicate ValidateState(doc: Json)
  {
    && Decode(doc).Some?
    && var v := SchemaIndex(Decode(doc).value.schemaVersion);
    && v > 0
    && DocOk(v, doc)
  }

  // ------------------------------------------------- what validity means for a record

  predicate UserFits(v: nat, u: User)
  {
    u.did != "" ==> v >= 5
  }

  predicate AppFits(v: nat, a: Installation)
  {
    v >= 4 && a.driverConfig.Some? && a.driver in Drivers(v) && a.lifecycle in LIFECYCLES
  }

  predicate ProcessFits(v: nat, p: Process)
  {
    v >= 8
  }

  predicate RuleFits(v: nat, r: Rule)
  {
    v >= 4 ==> r.ruleType in RULE_TYPES
  }

  predicate StateOk(v: nat, s: NodeState)
  {
    && s.users.Some? && (forall k :: k in s.users.value ==> UserFits(v, s.users.value[k]))
    && s.apps.Some? && (forall k :: k in s.apps.value ==> AppFits(v, s.apps.value[k]))
    && s.processes.Some? && (forall k :: k in s.processes.value ==> ProcessFits(v, s.processes.value[k]))
    && (v >= 4 ==> s.rules.Some? && forall k :: k in s.rules.value ==> RuleFits(v, s.rules.value[k]))
  }

  /** A record whose written form validates. */
  predicate Valid(s: NodeState)
  {
    SchemaIndex(s.schemaVersion) > 0 && StateOk(SchemaIndex(s.schemaVersion), s)
  }

  lemma UserEntry(v: nat, u: User)
    ensures EntryOk(UserFields(v), USER_REQUIRED, EncodeUser(u)) <==> UserFits(v, u)
  {
    var f := EncodeUser(u).fields;
    assert f.Keys == {"id", "username"} + (if u.did == "" then {} else {"atproto_did"});
    if u.did != "" {
      assert "atproto_did" in f;
      assert "atproto_did" in UserFields(v) <==> v >= 5;
    }
  }

  lemma AppEntry(v: nat, a: Installation)
    ensures EntryOk(AppFields(v), AppRequired(v), EncodeApp(a)) <==> AppFits(v, a)
  {
    if v >= 4 {
      AppFieldTypes(v);
      AppFieldValues(a);
      AppEntryFrom(AppFields(v), EncodeApp(a).fields, Drivers(v), a);
    } else {
      assert "driver_config" in EncodeApp(a).fields && "driver_config" !in AppFields(v);
    }
  }

  lemma AppEntryFrom(t: map<string, FieldType>, f: map<string, Json>, drivers: set<string>, a: Installation)
    requires t.Keys == f.Keys && {"driver", "state", "driver_config"} <= t.Keys
    requires t["driver"] == Enum(drivers) && t["state"] == Enum(LIFECYCLES) && t["driver_config"] == Object
    requires forall k :: k in t && k != "driver" && k != "driver_config" && k != "state" ==> t[k] == Text
    requires f["driver"] == Str(a.driver) && f["state"] == Str(a.lifecycle)
    requires f["driver_config"].Obj? <==> a.driverConfig.Some?
    requires forall k :: k in f && k != "driver_config" ==> f[k].Str?
    ensures EntryOk(t, t.Keys, Obj(f)) <==>
            a.driverConfig.Some? && a.driver in drivers && a.lifecycle in LIFECYCLES
  {
  }

  lemma AppFieldTypes(v: nat)
    requires v >= 4
    ensures AppRequired(v) == AppFields(v).Keys
    ensures AppFields(v)["driver"] == Enum(Drivers(v))
    ensures AppFields(v)["driver_config"] == Object
    ensures AppFields(v)["state"] == Enum(LIFECYCLES)
    ensures forall k :: k in AppFields(v) && k != "driver" && k != "driver_config" && k != "state" ==> AppFields(v)[k] == Text
  {
    AppFieldNames(v);
  }

  lemma AppFieldNames(v: nat)
    requires v >= 4
    ensures AppRequired(v) == AppFields(v).Keys
  {
  }

  lemma AppFieldValues(a: Installation)
    ensures EncodeApp(a).fields.Keys == AppRequired(4)
    ensures EncodeApp(a).fields["driver"] == Str(a.driver)
    ensures EncodeApp(a).fields["state"] == Str(a.lifecycle)
    ensures EncodeApp(a).fields["driver_config"].Obj? <==> a.driverConfig.Some?
    ensures forall k :: k in EncodeApp(a).fields && k != "driver_config" ==> EncodeApp(a).fields[k].Str?
  {
  }

  lemma ProcessEntry(v: nat, p: Process)
    ensures EntryOk(ProcessFields(v), ProcessRequired(v), EncodeProcess(p)) <==> ProcessFits(v, p)
  {
    var f := EncodeProcess(p).fields;
    assert f.Keys == {"id", "app_id", "user_id", "created"};
    if v <= 7 {
      assert "driver" in ProcessRequired(v) && "driver" !in f;
    }
  }

  lemma RuleEntry(r: Rule)
    ensures EntryOk(RULE_FIELDS, RULE_REQUIRED, EncodeRule(r)) <==> r.ruleType in RULE_TYPES
  {
    var f := EncodeRule(r).fields;
    assert f.Keys == RULE_REQUIRED == RULE_FIELDS.Keys;
    assert f["type"] == Str(r.ruleType) && RULE_FIELDS["type"] == Enum(RULE_TYPES);
    assert forall k :: k in f && k != "type" ==> f[k].Str? && RULE_FIELDS[k] == Text;
  }

  lemma MapEntries<T(!new)>(fields: map<string, FieldType>, required: set<string>,
                            m: Option<map<string, T>>, encode: T -> Json, fits: T -> bool)
    requires forall t :: EntryOk(fields, required, encode(t)) <==> fits(t)
    ensures EntriesOk(fields, required, EncodeMap(m, encode)) <==> m.Some? && forall k :: k in m.value ==> fits(m.value[k])
  {
    if m.Some? {
      var f := EncodeMap(m, encode).fields;
      assert f.Keys == m.value.Keys;
      assert forall k :: k in m.value ==> f[k] == encode(m.value[k]);
    }
  }

  lemma UsersOk(v: nat, m: Option<map<string, User>>)
    ensures EntriesOk(UserFields(v), USER_REQUIRED, EncodeMap(m, EncodeUser)) <==>
            m.Some? && forall k :: k in m.value ==> UserFits(v, m.value[k])
  {
    forall u { UserEntry(v, u); }
    MapEntries(UserFields(v), USER_REQUIRED, m, EncodeUser, u => UserFits(v, u));
  }

  lemma AppsOk(v: nat, m: Option<map<string, Installation>>)
    ensures EntriesOk(AppFields(v), AppRequired(v), EncodeMap(m, EncodeApp)) <==>
            m.Some? && forall k :: k in m.value ==> AppFits(v, m.value[k])
  {
    forall a { AppEntry(v, a); }
    MapEntries(AppFields(v), AppRequired(v), m, EncodeApp, a => AppFits(v, a));
  }

  lemma ProcessesOk(v: nat, m: Option<map<string, Process>>)
    ensures EntriesOk(ProcessFields(v), ProcessRequired(v), EncodeMap(m, EncodeProcess)) <==>
            m.Some? && forall k :: k in m.value ==> ProcessFits(v, m.value[k])
  {
    forall p { ProcessEntry(v, p); }
    MapEntries(ProcessFields(v), ProcessRequired(v), m, EncodeProcess, p => ProcessFits(v, p));
  }

  lemma RulesOk(m: Option<map<string, Rule>>)
    ensures EntriesOk(RULE_FIELDS, RULE_REQUIRED, EncodeMap(m, EncodeRule)) <==>
            m.Some? && forall k :: k in m.value ==> m.value[k].ruleType in RULE_TYPES
  {
    forall r { RuleEntry(r); }
    MapEntries(RULE_FIELDS, RULE_REQUIRED, m, EncodeRule, (r: Rule) => r.ruleType in RULE_TYPES);
  }

  /** The written form of a record validates exactly when its version has a schema and every entry
      fits: in particular no process below v0.0.8 and no installation below v0.0.4. */
  lemma ValidEncoded(s: NodeState)
    ensures ValidateState(Encode(s)) <==> Valid(s)
  {
    CodecRoundTrip(s);
    RootMembers(s);
    var v := SchemaIndex(s.schemaVersion);
    UsersOk(v, s.users);
    AppsOk(v, s.apps);
    ProcessesOk(v, s.processes);
    RulesOk(s.rules);
    MembersOk(v, Encode(s).fields, s);
  }

  lemma MembersOk(v: nat, f: map<string, Json>, s: NodeState)
    requires "node_id" in f && f["node_id"].Str? && "name" in f && f["name"].Str?
    requires "certificate" in f && f["certificate"].Str? && "schema_version" in f && f["schema_version"].Str?
    requires TextIfPresent(f, "test_field")
    requires "users" in f && (EntriesOk(UserFields(v), USER_REQUIRED, f["users"]) <==>
                              s.users.Some? && forall k :: k in s.users.value ==> UserFits(v, s.users.value[k]))
    requires "app_installations" in f && (EntriesOk(AppFields(v), AppRequired(v), f["app_installations"]) <==>
                                          s.apps.Some? && forall k :: k in s.apps.value ==> AppFits(v, s.apps.value[k]))
    requires "processes" in f && (EntriesOk(ProcessFields(v), ProcessRequired(v), f["processes"]) <==>
                                  s.processes.Some? && forall k :: k in s.processes.value ==> ProcessFits(v, s.processes.value[k]))
    requires "reverse_proxy_rules" in f && (EntriesOk(RULE_FIELDS, RULE_REQUIRED, f["reverse_proxy_rules"]) <==>
                                            s.rules.Some? && forall k :: k in s.rules.value ==> s.rules.value[k].ruleType in RULE_TYPES)
    ensures DocOk(v, Obj(f)) <==> StateOk(v, s)
  {
  }
}

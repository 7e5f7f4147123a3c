/** The schema documents that the eight migration files build, and that every file's down patch undoes
    its up patch. */
module SchemaFiles {
  import opened Options
  import opened Text
  import opened Json
  import opened SchemaLookup

  // ---------------------------------------------------------------- schema documents

  function Strings(xs: seq<string>): Json
  {
    Arr(seq(|xs|, i requires 0 <= i < |xs| => Str(xs[i])))
  }

  const TEXT := Obj(map["type" := Str("string")])
  const OBJECT := Obj(map["type" := Str("object")])

  function OneOf(values: seq<string>): Json
  {
    Obj(map["type" := Str("string"), "enum" := Strings(values)])
  }

  /** An object with the given members and no others. */
  function Entry(members: map<string, Json>, required: seq<string>): Json
  {
    Obj(map["type" := Str("object"), "properties" := Obj(members), "additionalProperties" := Bool(false),
            "required" := Strings(required)])
  }

  function MapOf(entry: Json): Json
  {
    Obj(map["type" := Str("object"), "additionalProperties" := entry])
  }

  function Root(members: map<string, Json>): Json
  {
    Obj(map["title" := Str("Habitat Node State"), "type" := Str("object"), "properties" := Obj(members),
            "additionalProperties" := Bool(true), "required" := Strings(["node_id", "name", "certificate", "users"])])
  }

  function UserMembers(v: nat): map<string, Json>
  {
    map["id" := TEXT, "username" := TEXT] + (if v >= 5 then map["atproto_did" := TEXT] else map[])
  }

  function DriverNames(v: nat): seq<string>
  {
    if v >= 6 then ["docker", "web"] else ["docker"]
  }

  function AppMembers(v: nat): map<string, Json>
  {
    map["id" := TEXT, "name" := TEXT, "user_id" := TEXT, "version" := TEXT, "driver" := OneOf(DriverNames(v)),
        "registry_url_base" := TEXT, "registry_app_id" := TEXT, "registry_tag" := TEXT,
        "state" := OneOf(["installing", "installed", "uninstalled"])]
    + (if v >= 4 then map["driver_config" := OBJECT] else map[])
  }

  const APP_REQUIRED := ["id", "name", "user_id", "version", "driver", "registry_url_base", "registry_app_id", "registry_tag", "state"]

  function AppRequires(v: nat): seq<string>
  {
    if v >= 4 then APP_REQUIRED + ["driver_config"] else APP_REQUIRED
  }

  function ProcessMembers(v: nat): map<string, Json>
  {
    map["id" := TEXT, "app_id" := TEXT, "user_id" := TEXT, "created" := TEXT]
    + (if v <= 7 then map["driver" := OneOf(DriverNames(v))] else map[])
    + (if v <= 6 then map["state" := TEXT, "ext_driver_id" := TEXT] else map[])
  }

  function ProcessRequires(v: nat): seq<string>
  {
    if v <= 6 then ["id", "app_id", "driver", "ext_driver_id", "user_id", "state", "created"]
    else if v == 7 then ["id", "app_id", "driver", "user_id", "created"]
    else ["id", "app_id", "user_id", "created"]
  }

  const RULE_MEMBERS: map<string, Json> :=
    map["id" := TEXT, "type" := OneOf(["file", "redirect"]), "matcher" := TEXT, "target" := TEXT, "app_id" := TEXT]

  const RULES := MapOf(Entry(RULE_MEMBERS, ["id", "type", "matcher", "target", "app_id"]))

  function Users(v: nat): Json { MapOf(Entry(UserMembers(v), ["id", "username"])) }
  function Apps(v: nat): Json { MapOf(Entry(AppMembers(v), AppRequires(v))) }
  function Processes(v: nat): Json { MapOf(Entry(ProcessMembers(v), ProcessRequires(v))) }

  function TopMembers(users: Json, apps: Json, processes: Json, more: map<string, Json>): map<string, Json>
  {
    map["schema_version" := TEXT, "node_id" := TEXT, "name" := TEXT, "certificate" := TEXT,
        "users" := users, "app_installations" := apps, "processes" := processes] + more
  }

  function More(v: nat): map<string, Json>
  {
    if v == 2 then map["test_field" := TEXT] else if v >= 4 then map["reverse_proxy_rules" := RULES] else map[]
  }

  /** The schema of the version at place `v`; before the first file it is the empty object. */
  function SchemaDocument(v: nat): Json
  {
    if v == 0 then Obj(map[]) else Root(TopMembers(Users(v), Apps(v), Processes(v), More(v)))
  }

  // ---------------------------------------------------------------- the files

  function At(tokens: seq<string>, e: Edit): Op
  {
    Op(FormatPointer(tokens), e)
  }

  const USER := ["properties", "users", "additionalProperties"]
  const APP := ["properties", "app_installations", "additionalProperties"]
  const PROCESS := ["properties", "processes", "additionalProperties"]

  const TEST_FIELD_ADDED := [At(["properties", "test_field"], Add(TEXT))]
  const TEST_FIELD_REMOVED := [At(["properties", "test_field"], Remove)]

  const RULES_ADDED := [
    At(APP + ["properties", "driver_config"], Add(OBJECT)), At(APP + ["required", "9"], Add(Str("driver_config"))),
    At(["properties", "reverse_proxy_rules"], Add(RULES))]
  const RULES_REMOVED := [
    At(APP + ["properties", "driver_config"], Remove), At(APP + ["required", "9"], Remove),
    At(["properties", "reverse_proxy_rules"], Remove)]

  const DID_ADDED := [At(USER + ["properties", "atproto_did"], Add(TEXT))]
  const DID_REMOVED := [At(USER + ["properties", "atproto_did"], Remove)]

  const WEB_ADDED := [
    At(APP + ["properties", "driver", "enum", "1"], Add(Str("web"))), At(PROCESS + ["properties", "driver", "enum", "1"], Add(Str("web")))]
  const WEB_REMOVED := [
    At(APP + ["properties", "driver", "enum", "1"], Remove), At(PROCESS + ["properties", "driver", "enum", "1"], Remove)]

  const PROCESS_FIELDS_REMOVED := [
    At(PROCESS + ["properties", "state"], Remove), At(PROCESS + ["properties", "ext_driver_id"], Remove),
    At(PROCESS + ["required"], Replace(Strings(ProcessRequires(7))))]
  const PROCESS_FIELDS_ADDED := [
    At(PROCESS + ["properties", "state"], Add(TEXT)), At(PROCESS + ["properties", "ext_driver_id"], Add(TEXT)),
    At(PROCESS + ["required"], Replace(Strings(ProcessRequires(6))))]

  const PROCESS_DRIVER_REMOVED := [
    At(PROCESS + ["properties", "driver"], Remove), At(PROCESS + ["required"], Replace(Strings(ProcessRequires(8))))]
  const PROCESS_DRIVER_ADDED := [
    At(PROCESS + ["properties", "driver"], Add(OneOf(["docker", "web"]))), At(PROCESS + ["required"], Replace(Strings(ProcessRequires(7))))]

  const FILES: seq<SchemaMigration> := [
    SchemaMigration("v0.0.1", [At([], Add(SchemaDocument(1)))], [At([], Replace(Obj(map[])))]),
    SchemaMigration("v0.0.2", TEST_FIELD_ADDED, TEST_FIELD_REMOVED),
    SchemaMigration("v0.0.3", TEST_FIELD_REMOVED, TEST_FIELD_ADDED),
    SchemaMigration("v0.0.4", RULES_ADDED, RULES_REMOVED),
    SchemaMigration("v0.0.5", DID_ADDED, DID_REMOVED),
    SchemaMigration("v0.0.6", WEB_ADDED, WEB_REMOVED),
    SchemaMigration("v0.0.7", PROCESS_FIELDS_REMOVED, PROCESS_FIELDS_ADDED),
    SchemaMigration("v0.0.8", PROCESS_DRIVER_REMOVED, PROCESS_DRIVER_ADDED)
  ]

  // ---------------------------------------------------------------- edits at their places

  lemma AtApplies(tokens: seq<string>, e: Edit, doc: Json)
    ensures ApplyOp(At(tokens, e), doc) == ApplyAt(tokens, e, doc)
  {
    PointerRoundTrip(tokens);
  }

  /** The first edit of a patch, and then the others. */
  lemma FirstEdit(tokens: seq<string>, e: Edit, rest: seq<Op>, doc: Json, next: Json)
    requires ApplyAt(tokens, e, doc) == Some(next)
    ensures Apply([At(tokens, e)] + rest, doc) == Apply(rest, next)
  {
    AtApplies(tokens, e, doc);
    assert ([At(tokens, e)] + rest)[1..] == rest;
  }

  lemma Into(k: string, rest: seq<string>, e: Edit, f: map<string, Json>, child: Json)
    requires k in f && rest != [] && ApplyAt(rest, e, f[k]) == Some(child)
    ensures ApplyAt([k] + rest, e, Obj(f)) == Some(Obj(f[k := child]))
  {
    assert ([k] + rest)[1..] == rest;
  }

  /** A member of an object after an edit at its name. */
  function Edited(f: map<string, Json>, k: string, e: Edit): map<string, Json>
  {
    if e.Remove? then f - {k} else f[k := e.value]
  }

  lemma AtMember(k: string, e: Edit, f: map<string, Json>)
    requires e.Add? || k in f
    ensures ApplyAt([k], e, Obj(f)) == Some(Obj(Edited(f, k, e)))
  {
  }

  lemma RootEdit(members: map<string, Json>, k: string, e: Edit)
    requires e.Add? || k in members
    ensures ApplyAt(["properties", k], e, Root(members)) == Some(Root(Edited(members, k, e)))
  {
    AtMember(k, e, members);
    Into("properties", [k], e, Root(members).fields, Obj(Edited(members, k, e)));
    assert ["properties"] + [k] == ["properties", k];
    assert Root(members).fields["properties" := Obj(Edited(members, k, e))] == Root(Edited(members, k, e)).fields;
  }

  /** An edit inside the entry schema of one of the maps. */
  lemma InsideMap(members: map<string, Json>, name: string, entry: Json, rest: seq<string>, e: Edit, next: Json)
    requires name in members && members[name] == MapOf(entry) && rest != [] && ApplyAt(rest, e, entry) == Some(next)
    ensures ApplyAt(["properties", name, "additionalProperties"] + rest, e, Root(members)) == Some(Root(members[name := MapOf(next)]))
  {
    var inner := ["additionalProperties"] + rest;
    Into("additionalProperties", rest, e, MapOf(entry).fields, next);
    assert MapOf(entry).fields["additionalProperties" := next] == MapOf(next).fields;
    Into(name, inner, e, members, MapOf(next));
    Into("properties", [name] + inner, e, Root(members).fields, Obj(members[name := MapOf(next)]));
    assert ["properties"] + ([name] + inner) == ["properties", name, "additionalProperties"] + rest;
    assert Root(members).fields["properties" := Obj(members[name := MapOf(next)])] == Root(members[name := MapOf(next)]).fields;
  }

  lemma EntryMember(members: map<string, Json>, required: seq<string>, k: string, e: Edit)
    requires e.Add? || k in members
    ensures ApplyAt(["properties", k], e, Entry(members, required)) == Some(Entry(Edited(members, k, e), required))
  {
    AtMember(k, e, members);
    Into("properties", [k], e, Entry(members, required).fields, Obj(Edited(members, k, e)));
    assert ["properties"] + [k] == ["properties", k];
    assert Entry(members, required).fields["properties" := Obj(Edited(members, k, e))] == Entry(Edited(members, k, e), required).fields;
  }

  lemma EntryRequired(members: map<string, Json>, required: seq<string>, others: seq<string>)
    ensures ApplyAt(["required"], Replace(Strings(others)), Entry(members, required)) == Some(Entry(members, others))
  {
    AtMember("required", Replace(Strings(others)), Entry(members, required).fields);
    assert Entry(members, required).fields["required" := Strings(others)] == Entry(members, others).fields;
  }

  lemma Digit(d: char)
    requires '0' <= d <= '9'
    ensures ArrayIndex([d]) == Some(d as nat - '0' as nat)
  {
    assert [d][..0] == "";
    assert Number("") == 0;
  }

  /** Adding at the end of a list of texts, and removing there, at a one-digit index. */
  lemma AtLast(xs: seq<string>, x: string, d: char)
    requires '0' <= d <= '9' && |xs| == d as nat - '0' as nat
    ensures ApplyAt([[d]], Add(Str(x)), Strings(xs)) == Some(Strings(xs + [x]))
    ensures ApplyAt([[d]], Remove, Strings(xs + [x])) == Some(Strings(xs))
  {
    Digit(d);
    var a, b := Strings(xs).items, Strings(xs + [x]).items;
    var n := |xs|;
    assert [d] != "-";
    assert a[..n] + [Str(x)] + a[n..] == b;
    assert b[..n] + b[n + 1..] == a;
  }

  lemma RequiredLast(members: map<string, Json>, xs: seq<string>, x: string)
    requires |xs| == 9
    ensures ApplyAt(["required", "9"], Add(Str(x)), Entry(members, xs)) == Some(Entry(members, xs + [x]))
    ensures ApplyAt(["required", "9"], Remove, Entry(members, xs + [x])) == Some(Entry(members, xs))
  {
    AtLast(xs, x, '9');
    Into("required", ["9"], Add(Str(x)), Entry(members, xs).fields, Strings(xs + [x]));
    Into("required", ["9"], Remove, Entry(members, xs + [x]).fields, Strings(xs));
    assert ["required"] + ["9"] == ["required", "9"];
    assert Entry(members, xs).fields["required" := Strings(xs + [x])] == Entry(members, xs + [x]).fields;
    assert Entry(members, xs + [x]).fields["required" := Strings(xs)] == Entry(members, xs).fields;
  }

  lemma EnumLast(x: string, y: string)
    ensures ApplyAt(["enum", "1"], Add(Str(y)), OneOf([x])) == Some(OneOf([x, y]))
    ensures ApplyAt(["enum", "1"], Remove, OneOf([x, y])) == Some(OneOf([x]))
  {
    AtLast([x], y, '1');
    assert [x] + [y] == [x, y];
    Into("enum", ["1"], Add(Str(y)), OneOf([x]).fields, Strings([x, y]));
    Into("enum", ["1"], Remove, OneOf([x, y]).fields, Strings([x]));
    assert ["enum"] + ["1"] == ["enum", "1"];
    assert OneOf([x]).fields["enum" := Strings([x, y])] == OneOf([x, y]).fields;
    assert OneOf([x, y]).fields["enum" := Strings([x])] == OneOf([x]).fields;
  }

  /** Adding a driver to the entry schema, and removing it. */
  lemma DriverLast(members: map<string, Json>, required: seq<string>)
    requires "driver" in members
    ensures members["driver"] == OneOf(["docker"]) ==>
      ApplyAt(["properties", "driver", "enum", "1"], Add(Str("web")), Entry(members, required)) ==
      Some(Entry(members["driver" := OneOf(["docker", "web"])], required))
    ensures members["driver"] == OneOf(["docker", "web"]) ==>
      ApplyAt(["properties", "driver", "enum", "1"], Remove, Entry(members, required)) ==
      Some(Entry(members["driver" := OneOf(["docker"])], required))
  {
    EnumLast("docker", "web");
    if members["driver"] == OneOf(["docker"]) {
      DriverEdit(members, required, Add(Str("web")), OneOf(["docker", "web"]));
    }
    if members["driver"] == OneOf(["docker", "web"]) {
      DriverEdit(members, required, Remove, OneOf(["docker"]));
    }
  }

  lemma DriverEdit(members: map<string, Json>, required: seq<string>, e: Edit, next: Json)
    requires "driver" in members && ApplyAt(["enum", "1"], e, members["driver"]) == Some(next)
    ensures ApplyAt(["properties", "driver", "enum", "1"], e, Entry(members, required)) == Some(Entry(members["driver" := next], required))
  {
    Into("driver", ["enum", "1"], e, members, next);
    Into("properties", ["driver"] + ["enum", "1"], e, Entry(members, required).fields, Obj(members["driver" := next]));
    assert ["properties"] + (["driver"] + ["enum", "1"]) == ["properties", "driver", "enum", "1"];
    assert Entry(members, required).fields["properties" := Obj(members["driver" := next])] == Entry(members["driver" := next], required).fields;
  }

  // ---------------------------------------------------------------- each file, both ways

  lemma OneEdit(tokens: seq<string>, e: Edit, doc: Json, next: Json)
    requires ApplyAt(tokens, e, doc) == Some(next)
    ensures Apply([At(tokens, e)], doc) == Some(next)
  {
    FirstEdit(tokens, e, [], doc, next);
    assert [At(tokens, e)] + [] == [At(tokens, e)];
  }

  lemma TwoEdits(t: seq<string>, e: Edit, u: seq<string>, f: Edit, doc: Json, mid: Json, next: Json)
    requires ApplyAt(t, e, doc) == Some(mid) && ApplyAt(u, f, mid) == Some(next)
    ensures Apply([At(t, e), At(u, f)], doc) == Some(next)
  {
    OneEdit(u, f, mid, next);
    FirstEdit(t, e, [At(u, f)], doc, mid);
    assert [At(t, e)] + [At(u, f)] == [At(t, e), At(u, f)];
  }

  lemma ThreeEdits(t: seq<string>, e: Edit, u: seq<string>, f: Edit, w: seq<string>, g: Edit, doc: Json, a: Json, b: Json, next: Json)
    requires ApplyAt(t, e, doc) == Some(a) && ApplyAt(u, f, a) == Some(b) && ApplyAt(w, g, b) == Some(next)
    ensures Apply([At(t, e), At(u, f), At(w, g)], doc) == Some(next)
  {
    TwoEdits(u, f, w, g, a, b, next);
    FirstEdit(t, e, [At(u, f), At(w, g)], doc, a);
    assert [At(t, e)] + [At(u, f), At(w, g)] == [At(t, e), At(u, f), At(w, g)];
  }

  /** The root schema with the entry schemas of its three maps. */
  function RootOf(user: Json, app: Json, process: Json, more: map<string, Json>): Json
  {
    Root(TopMembers(MapOf(user), MapOf(app), MapOf(process), more))
  }

  const MORE_NAMES := {"test_field", "reverse_proxy_rules"}

  lemma SetUsers(u: Json, a: Json, p: Json, more: map<string, Json>, x: Json)
    requires more.Keys <= MORE_NAMES
    ensures var m := TopMembers(u, a, p, more);
      "users" in m && m["users"] == u && m["users" := x] == TopMembers(x, a, p, more)
  {
    hide TEXT;
    var m, n := TopMembers(u, a, p, more)["users" := x], TopMembers(x, a, p, more);
    assert m.Keys == n.Keys;
    forall k | k in m
      ensures m[k] == n[k]
    {
    }
  }

  lemma SetApps(u: Json, a: Json, p: Json, more: map<string, Json>, x: Json)
    requires more.Keys <= MORE_NAMES
    ensures var m := TopMembers(u, a, p, more);
      "app_installations" in m && m["app_installations"] == a && m["app_installations" := x] == TopMembers(u, x, p, more)
  {
    hide TEXT;
    var m, n := TopMembers(u, a, p, more)["app_installations" := x], TopMembers(u, x, p, more);
    assert m.Keys == n.Keys;
    forall k | k in m
      ensures m[k] == n[k]
    {
    }
  }

  lemma SetProcesses(u: Json, a: Json, p: Json, more: map<string, Json>, x: Json)
    requires more.Keys <= MORE_NAMES
    ensures var m := TopMembers(u, a, p, more);
      "processes" in m && m["processes"] == p && m["processes" := x] == TopMembers(u, a, x, more)
  {
    hide TEXT;
    var m, n := TopMembers(u, a, p, more)["processes" := x], TopMembers(u, a, x, more);
    assert m.Keys == n.Keys;
    forall k | k in m
      ensures m[k] == n[k]
    {
    }
  }

  lemma SetMore(u: Json, a: Json, p: Json, k: string, x: Json)
    requires k in MORE_NAMES
    ensures var m, n := TopMembers(u, a, p, map[]), TopMembers(u, a, p, map[k := x]);
      m[k := x] == n && k in n && n - {k} == m
  {
  }

  lemma EditUser(user: Json, app: Json, process: Json, more: map<string, Json>, rest: seq<string>, e: Edit, next: Json)
    requires more.Keys <= MORE_NAMES && rest != [] && ApplyAt(rest, e, user) == Some(next)
    ensures ApplyAt(USER + rest, e, RootOf(user, app, process, more)) == Some(RootOf(next, app, process, more))
  {
    hide ApplyAt;
    hide TopMembers;
    hide Root;
    SetUsers(MapOf(user), MapOf(app), MapOf(process), more, MapOf(next));
    hide MapOf;
    InsideMap(TopMembers(MapOf(user), MapOf(app), MapOf(process), more), "users", user, rest, e, next);
  }

  lemma EditApp(user: Json, app: Json, process: Json, more: map<string, Json>, rest: seq<string>, e: Edit, next: Json)
    requires more.Keys <= MORE_NAMES && rest != [] && ApplyAt(rest, e, app) == Some(next)
    ensures ApplyAt(APP + rest, e, RootOf(user, app, process, more)) == Some(RootOf(user, next, process, more))
  {
    hide ApplyAt;
    hide TopMembers;
    hide Root;
    SetApps(MapOf(user), MapOf(app), MapOf(process), more, MapOf(next));
    hide MapOf;
    InsideMap(TopMembers(MapOf(user), MapOf(app), MapOf(process), more), "app_installations", app, rest, e, next);
  }

  lemma EditProcess(user: Json, app: Json, process: Json, more: map<string, Json>, rest: seq<string>, e: Edit, next: Json)
    requires more.Keys <= MORE_NAMES && rest != [] && ApplyAt(rest, e, process) == Some(next)
    ensures ApplyAt(PROCESS + rest, e, RootOf(user, app, process, more)) == Some(RootOf(user, app, next, more))
  {
    hide ApplyAt;
    hide TopMembers;
    hide Root;
    SetProcesses(MapOf(user), MapOf(app), MapOf(process), more, MapOf(next));
    hide MapOf;
    InsideMap(TopMembers(MapOf(user), MapOf(app), MapOf(process), more), "processes", process, rest, e, next);
  }

  /** Adding a member of the root that is not one of the first seven, and removing it. */
  lemma EditMore(user: Json, app: Json, process: Json, k: string, x: Json)
    requires k in MORE_NAMES
    ensures ApplyAt(["properties", k], Add(x), RootOf(user, app, process, map[])) == Some(RootOf(user, app, process, map[k := x]))
    ensures ApplyAt(["properties", k], Remove, RootOf(user, app, process, map[k := x])) == Some(RootOf(user, app, process, map[]))
  {
    hide ApplyAt;
    hide TopMembers;
    hide Root;
    hide MapOf;
    SetMore(MapOf(user), MapOf(app), MapOf(process), k, x);
    RootEdit(TopMembers(MapOf(user), MapOf(app), MapOf(process), map[]), k, Add(x));
    RootEdit(TopMembers(MapOf(user), MapOf(app), MapOf(process), map[k := x]), k, Remove);
  }

  function User(v: nat): Json { Entry(UserMembers(v), ["id", "username"]) }
  function App(v: nat): Json { Entry(AppMembers(v), AppRequires(v)) }
  function Process(v: nat): Json { Entry(ProcessMembers(v), ProcessRequires(v)) }

  lemma DocumentParts(v: nat)
    requires v >= 1
    ensures SchemaDocument(v) == RootOf(User(v), App(v), Process(v), More(v))
  {
  }

  ghost predicate Leads(patch: seq<Op>, a: nat, b: nat)
  {
    Apply(patch, SchemaDocument(a)) == Some(SchemaDocument(b))
  }

  /** What a file's patches do to the schema before and after it. */
  ghost predicate BothWays(k: nat)
    requires k < 8
  {
    Leads(FILES[k].up, k, k + 1) && Leads(FILES[k].down, k + 1, k)
  }

  lemma FirstFile()
    ensures Leads([At([], Add(SchemaDocument(1)))], 0, 1) && Leads([At([], Replace(Obj(map[])))], 1, 0)
  {
    OneEdit([], Add(SchemaDocument(1)), SchemaDocument(0), SchemaDocument(1));
    OneEdit([], Replace(Obj(map[])), SchemaDocument(1), SchemaDocument(0));
  }

  /** What a file does not touch. */
  lemma PartsStay(v: nat)
    requires 1 <= v < 8
    ensures v != 4 ==> User(v + 1) == User(v)
    ensures v != 3 && v != 5 ==> App(v + 1) == App(v)
    ensures v < 5 ==> Process(v + 1) == Process(v)
    ensures v >= 4 ==> More(v + 1) == More(v)
  {
  }

  lemma TestFieldFiles()
    ensures Leads(TEST_FIELD_ADDED, 1, 2) && Leads(TEST_FIELD_REMOVED, 2, 1)
    ensures Leads(TEST_FIELD_REMOVED, 2, 3) && Leads(TEST_FIELD_ADDED, 3, 2)
  {
    DocumentParts(1);
    DocumentParts(2);
    DocumentParts(3);
    PartsStay(1);
    PartsStay(2);
    hide SchemaDocument;
    hide User;
    hide App;
    hide Process;
    hide RootOf;
    hide ApplyAt;
    hide Apply;
    EditMore(User(1), App(1), Process(1), "test_field", TEXT);
    OneEdit(["properties", "test_field"], Add(TEXT), SchemaDocument(1), SchemaDocument(2));
    OneEdit(["properties", "test_field"], Remove, SchemaDocument(2), SchemaDocument(1));
  }

  lemma AppsAtFour()
    ensures App(3) == Entry(AppMembers(3), APP_REQUIRED)
    ensures App(4) == Entry(AppMembers(4), APP_REQUIRED + ["driver_config"])
    ensures AppMembers(3)["driver_config" := OBJECT] == AppMembers(4) && AppMembers(4) - {"driver_config"} == AppMembers(3)
    ensures "driver_config" in AppMembers(4)
  {
    hide TEXT;
    hide OBJECT;
    hide OneOf;
    hide Strings;
    hide APP_REQUIRED;
  }

  lemma RulesUp()
    ensures Leads(RULES_ADDED, 3, 4)
  {
    var u, p, c := User(3), Process(3), APP_REQUIRED;
    DocumentParts(3);
    DocumentParts(4);
    PartsStay(3);
    AppsAtFour();
    hide SchemaDocument;
    hide User;
    hide App;
    hide Process;
    hide AppMembers;
    hide RootOf;
    hide Entry;
    hide ApplyAt;
    hide Apply;
    hide RULES;
    hide OBJECT;
    hide APP_REQUIRED;
    var half := Entry(AppMembers(4), c);
    EntryMember(AppMembers(3), c, "driver_config", Add(OBJECT));
    RequiredLast(AppMembers(4), c, "driver_config");
    EditApp(u, App(3), p, map[], ["properties", "driver_config"], Add(OBJECT), half);
    EditApp(u, half, p, map[], ["required", "9"], Add(Str("driver_config")), App(4));
    EditMore(u, App(4), p, "reverse_proxy_rules", RULES);
    ThreeEdits(APP + ["properties", "driver_config"], Add(OBJECT), APP + ["required", "9"], Add(Str("driver_config")),
               ["properties", "reverse_proxy_rules"], Add(RULES),
               SchemaDocument(3), RootOf(u, half, p, map[]), RootOf(u, App(4), p, map[]), SchemaDocument(4));
  }

  lemma RulesDown()
    ensures Leads(RULES_REMOVED, 4, 3)
  {
    var u, p, c := User(3), Process(3), APP_REQUIRED;
    DocumentParts(3);
    DocumentParts(4);
    PartsStay(3);
    AppsAtFour();
    hide SchemaDocument;
    hide User;
    hide App;
    hide Process;
    hide AppMembers;
    hide RootOf;
    hide Entry;
    hide ApplyAt;
    hide Apply;
    hide RULES;
    hide OBJECT;
    hide APP_REQUIRED;
    var short := Entry(AppMembers(3), c + ["driver_config"]);
    EntryMember(AppMembers(4), c + ["driver_config"], "driver_config", Remove);
    RequiredLast(AppMembers(3), c, "driver_config");
    EditApp(u, App(4), p, More(4), ["properties", "driver_config"], Remove, short);
    EditApp(u, short, p, More(4), ["required", "9"], Remove, App(3));
    EditMore(u, App(3), p, "reverse_proxy_rules", RULES);
    ThreeEdits(APP + ["properties", "driver_config"], Remove, APP + ["required", "9"], Remove,
               ["properties", "reverse_proxy_rules"], Remove,
               SchemaDocument(4), RootOf(u, short, p, More(4)), RootOf(u, App(3), p, More(4)), SchemaDocument(3));
  }

  lemma UsersAtFive()
    ensures UserMembers(4)["atproto_did" := TEXT] == UserMembers(5) && UserMembers(5) - {"atproto_did"} == UserMembers(4)
    ensures "atproto_did" in UserMembers(5)
    ensures User(4) == Entry(UserMembers(4), ["id", "username"]) && User(5) == Entry(UserMembers(5), ["id", "username"])
  {
  }

  lemma DidFile()
    ensures Leads(DID_ADDED, 4, 5) && Leads(DID_REMOVED, 5, 4)
  {
    hide TEXT;
    DocumentParts(4);
    DocumentParts(5);
    PartsStay(4);
    UsersAtFive();
    hide SchemaDocument;
    hide User;
    hide App;
    hide Process;
    hide UserMembers;
    hide RootOf;
    hide Entry;
    hide ApplyAt;
    hide Apply;
    var req := ["id", "username"];
    EntryMember(UserMembers(4), req, "atproto_did", Add(TEXT));
    EntryMember(UserMembers(5), req, "atproto_did", Remove);
    EditUser(User(4), App(4), Process(4), More(4), ["properties", "atproto_did"], Add(TEXT), User(5));
    EditUser(User(5), App(4), Process(4), More(4), ["properties", "atproto_did"], Remove, User(4));
    OneEdit(USER + ["properties", "atproto_did"], Add(TEXT), SchemaDocument(4), SchemaDocument(5));
    OneEdit(USER + ["properties", "atproto_did"], Remove, SchemaDocument(5), SchemaDocument(4));
  }

  lemma AppDrivers(v: nat)
    requires v == 5 || v == 6
    ensures "driver" in AppMembers(v) && AppMembers(v)["driver"] == OneOf(DriverNames(v)) && AppRequires(v) == AppRequires(5)
    ensures AppMembers(v)["driver" := OneOf(DriverNames(11 - v))] == AppMembers(11 - v)
  {
    hide TEXT;
    hide OBJECT;
    hide OneOf;
  }

  lemma ProcessDrivers(v: nat)
    requires v == 5 || v == 6
    ensures "driver" in ProcessMembers(v) && ProcessMembers(v)["driver"] == OneOf(DriverNames(v)) && ProcessRequires(v) == ProcessRequires(5)
    ensures ProcessMembers(v)["driver" := OneOf(DriverNames(11 - v))] == ProcessMembers(11 - v)
  {
    hide TEXT;
    hide OneOf;
  }

  lemma DriverFile()
    ensures Leads(WEB_ADDED, 5, 6) && Leads(WEB_REMOVED, 6, 5)
  {
    DocumentParts(5);
    DocumentParts(6);
    PartsStay(5);
    AppDrivers(5);
    AppDrivers(6);
    ProcessDrivers(5);
    ProcessDrivers(6);
    var rest := ["properties", "driver", "enum", "1"];
    DriverLast(AppMembers(5), AppRequires(5));
    DriverLast(AppMembers(6), AppRequires(6));
    DriverLast(ProcessMembers(5), ProcessRequires(5));
    DriverLast(ProcessMembers(6), ProcessRequires(6));
    hide SchemaDocument;
    hide User;
    hide AppMembers;
    hide ProcessMembers;
    hide RootOf;
    hide Entry;
    hide ApplyAt;
    hide Apply;
    EditApp(User(5), App(5), Process(5), More(5), rest, Add(Str("web")), App(6));
    EditProcess(User(5), App(6), Process(5), More(5), rest, Add(Str("web")), Process(6));
    EditApp(User(5), App(6), Process(6), More(5), rest, Remove, App(5));
    EditProcess(User(5), App(5), Process(6), More(5), rest, Remove, Process(5));
    TwoEdits(APP + rest, Add(Str("web")), PROCESS + rest, Add(Str("web")),
             SchemaDocument(5), RootOf(User(5), App(6), Process(5), More(5)), SchemaDocument(6));
    TwoEdits(APP + rest, Remove, PROCESS + rest, Remove,
             SchemaDocument(6), RootOf(User(5), App(5), Process(6), More(5)), SchemaDocument(5));
  }

  lemma ProcessesAtSeven(mid: map<string, Json>)
    requires mid == ProcessMembers(6) - {"state"}
    ensures "state" in ProcessMembers(6) && "ext_driver_id" in mid
    ensures mid - {"ext_driver_id"} == ProcessMembers(7)
    ensures ProcessMembers(7)["state" := TEXT]["ext_driver_id" := TEXT] == ProcessMembers(6)
  {
    hide TEXT;
    hide OneOf;
  }

  lemma CleanupUp()
    ensures Leads(PROCESS_FIELDS_REMOVED, 6, 7)
  {
    assert More(6).Keys <= MORE_NAMES;
    hide ProcessRequires;
    hide TEXT;
    hide User;
    hide App;
    DocumentParts(6);
    DocumentParts(7);
    PartsStay(6);
    var u, a, m := User(6), App(6), More(6);
    var r6, r7 := ProcessRequires(6), ProcessRequires(7);
    ProcessesAtSeven(ProcessMembers(6) - {"state"});
    var mid := ProcessMembers(6) - {"state"};
    EntryMember(ProcessMembers(6), r6, "state", Remove);
    EntryMember(mid, r6, "ext_driver_id", Remove);
    EntryRequired(ProcessMembers(7), r6, r7);
    var x, y := Entry(mid, r6), Entry(ProcessMembers(7), r6);
    hide ProcessMembers;
    hide Entry;
    hide RootOf;
    hide ApplyAt;
    hide More;
    hide SchemaDocument;
    EditProcess(u, a, Process(6), m, ["properties", "state"], Remove, x);
    EditProcess(u, a, x, m, ["properties", "ext_driver_id"], Remove, y);
    EditProcess(u, a, y, m, ["required"], Replace(Strings(r7)), Process(7));
    ThreeEdits(PROCESS + ["properties", "state"], Remove, PROCESS + ["properties", "ext_driver_id"], Remove,
               PROCESS + ["required"], Replace(Strings(r7)),
               SchemaDocument(6), RootOf(u, a, x, m), RootOf(u, a, y, m), SchemaDocument(7));
  }

  lemma CleanupDown()
    ensures Leads(PROCESS_FIELDS_ADDED, 7, 6)
  {
    assert More(6).Keys <= MORE_NAMES;
    hide ProcessRequires;
    hide TEXT;
    hide User;
    hide App;
    DocumentParts(6);
    DocumentParts(7);
    PartsStay(6);
    var u, a, m := User(6), App(6), More(6);
    var r6, r7 := ProcessRequires(6), ProcessRequires(7);
    ProcessesAtSeven(ProcessMembers(6) - {"state"});
    var back := ProcessMembers(7)["state" := TEXT];
    EntryMember(ProcessMembers(7), r7, "state", Add(TEXT));
    EntryMember(back, r7, "ext_driver_id", Add(TEXT));
    EntryRequired(ProcessMembers(6), r7, r6);
    var z, w := Entry(back, r7), Entry(ProcessMembers(6), r7);
    hide ProcessMembers;
    hide Entry;
    hide RootOf;
    hide ApplyAt;
    hide More;
    hide SchemaDocument;
    EditProcess(u, a, Process(7), m, ["properties", "state"], Add(TEXT), z);
    EditProcess(u, a, z, m, ["properties", "ext_driver_id"], Add(TEXT), w);
    EditProcess(u, a, w, m, ["required"], Replace(Strings(r6)), Process(6));
    ThreeEdits(PROCESS + ["properties", "state"], Add(TEXT), PROCESS + ["properties", "ext_driver_id"], Add(TEXT),
               PROCESS + ["required"], Replace(Strings(r6)),
               SchemaDocument(7), RootOf(u, a, z, m), RootOf(u, a, w, m), SchemaDocument(6));
  }

  lemma ProcessesAtEight()
    ensures "driver" in ProcessMembers(7) && ProcessMembers(7) - {"driver"} == ProcessMembers(8)
    ensures ProcessMembers(8)["driver" := OneOf(["docker", "web"])] == ProcessMembers(7)
  {
  }

  lemma RemoveDriverFile()
    ensures Leads(PROCESS_DRIVER_REMOVED, 7, 8) && Leads(PROCESS_DRIVER_ADDED, 8, 7)
  {
    DocumentParts(7);
    DocumentParts(8);
    PartsStay(7);
    ProcessesAtEight();
    var u, a, m := User(7), App(7), More(7);
    var r7, r8 := ProcessRequires(7), ProcessRequires(8);
    var web := OneOf(["docker", "web"]);
    EntryMember(ProcessMembers(7), r7, "driver", Remove);
    EntryRequired(ProcessMembers(8), r7, r8);
    EntryMember(ProcessMembers(8), r8, "driver", Add(web));
    EntryRequired(ProcessMembers(7), r8, r7);
    var x, y := Entry(ProcessMembers(8), r7), Entry(ProcessMembers(7), r8);
    EditProcess(u, a, Process(7), m, ["properties", "driver"], Remove, x);
    EditProcess(u, a, x, m, ["required"], Replace(Strings(r8)), Process(8));
    EditProcess(u, a, Process(8), m, ["properties", "driver"], Add(web), y);
    EditProcess(u, a, y, m, ["required"], Replace(Strings(r7)), Process(7));
    hide ApplyAt;
    TwoEdits(PROCESS + ["properties", "driver"], Remove, PROCESS + ["required"], Replace(Strings(r8)),
             SchemaDocument(7), RootOf(u, a, x, m), SchemaDocument(8));
    TwoEdits(PROCESS + ["properties", "driver"], Add(web), PROCESS + ["required"], Replace(Strings(r7)),
             SchemaDocument(8), RootOf(u, a, y, m), SchemaDocument(7));
  }

  /** Every migration file leads from the schema of its old version to that of its new one, and its down
      patch leads back. */
  lemma FilesBothWays(k: nat)
    requires k < 8
    ensures BothWays(k)
  {
    hide Leads;
    hide TEST_FIELD_ADDED;
    hide TEST_FIELD_REMOVED;
    hide RULES_ADDED;
    hide RULES_REMOVED;
    hide DID_ADDED;
    hide DID_REMOVED;
    hide WEB_ADDED;
    hide WEB_REMOVED;
    hide PROCESS_FIELDS_REMOVED;
    hide PROCESS_FIELDS_ADDED;
    hide PROCESS_DRIVER_REMOVED;
    hide PROCESS_DRIVER_ADDED;
    hide SchemaDocument;
    hide At;
    FirstFile();
    TestFieldFiles();
    RulesUp();
    RulesDown();
    DidFile();
    DriverFile();
    CleanupUp();
    CleanupDown();
    RemoveDriverFile();
  }
}

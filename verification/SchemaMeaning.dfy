/** What the schema documents accept. The keywords that the node schemas use are evaluated as JSON Schema
    defines them, and the schema of each version accepts exactly the documents that fit that version. */
module SchemaMeaning {
  import opened Options
  import opened Json
  import opened State
  import opened Schema
  import opened MigrationRoundTrip
  import opened StepTheorems
  import opened SchemaLookup
  import opened SchemaFiles

  // ---------------------------------------------------------------- the schema of a version

  lemma FileVersions()
    ensures |FILES| == 8 && forall i :: 0 <= i < 8 ==> FILES[i].newVersion == NAMES[i + 1]
  {
    hide TEST_FIELD_ADDED;
    hide TEST_FIELD_REMOVED;
    hide RULES_ADDED;
    hide RULES_REMOVED;
    hide DID_ADDED;
    hide DID_REMOVED;
    hide WEB_ADDED;
    hide WEB_REMOVED;
    hide PROCESS_FIELDS_REMOVED;
    hide PROCESS_FIELDS_ADDED;
    hide PROCESS_DRIVER_REMOVED;
    hide PROCESS_DRIVER_ADDED;
    hide SchemaDocument;
    hide At;
  }

  lemma {:induction false} FoldFrom(i: nat, k: nat)
    requires i <= k <= 8 && |FILES| == 8
    ensures Fold(FILES[i..k], SchemaDocument(i)) == Some(SchemaDocument(k))
    decreases k - i
  {
    hide FILES;
    hide SchemaDocument;
    if i < k {
      FilesBothWays(i);
      FoldFrom(i + 1, k);
      assert FILES[i..k][0] == FILES[i] && FILES[i..k][1..] == FILES[i + 1..k];
    }
  }

  /** JSONSchemaForVersion: folding the migration files gives the schema document of every version that
      has one, and an error for every other version. */
  lemma SchemaForVersion(version: string)
    ensures Lookup(FILES, version, Obj(map[])) ==
            if SchemaIndex(version) > 0 then Some(SchemaDocument(SchemaIndex(version))) else None
  {
    hide SchemaDocument;
    hide Lookup;
    FileVersions();
    hide FILES;
    EmptyDocument();
    forall k | 0 <= k <= 8
      ensures Fold(FILES[..k], Obj(map[])) == Some(SchemaDocument(k))
    {
      FoldFrom(0, k);
      assert FILES[0..k] == FILES[..k];
    }
    NodeSchemasFound(FILES, version);
    if SchemaIndex(version) > 0 {
      var k := SchemaIndex(version);
      IndexIsPlace(version);
      NodeFilesAscend(FILES);
      LookupFinds(FILES, k - 1, Obj(map[]));
    }
  }

  lemma EmptyDocument()
    ensures SchemaDocument(0) == Obj(map[])
  {
  }

  /** The document after the down patches of a list, last first. */
  function Unfold(migrations: seq<SchemaMigration>, doc: Json): Option<Json>
    decreases |migrations|
  {
    if migrations == [] then Some(doc)
    else
      var last := |migrations| - 1;
      var previous :- Apply(migrations[last].down, doc);
      Unfold(migrations[..last], previous)
  }

  lemma {:induction false} UnfoldFrom(k: nat)
    requires k <= 8 && |FILES| == 8
    ensures Unfold(FILES[..k], SchemaDocument(k)) == Some(SchemaDocument(0))
  {
    hide FILES;
    hide SchemaDocument;
    if k > 0 {
      FilesBothWays(k - 1);
      UnfoldFrom(k - 1);
      assert FILES[..k][k - 1] == FILES[k - 1] && FILES[..k][..k - 1] == FILES[..k - 1];
    }
  }

  /** The text of schema.json. */
  const SCHEMA_FILE := Root(map[
    "schema_version" := TEXT, "node_id" := TEXT, "name" := TEXT, "certificate" := TEXT,
    "users" := MapOf(Entry(map["id" := TEXT, "username" := TEXT, "atproto_did" := TEXT], ["id", "username"])),
    "app_installations" := MapOf(Entry(map[
      "id" := TEXT, "name" := TEXT, "user_id" := TEXT, "version" := TEXT, "driver" := OneOf(["docker", "web"]),
      "driver_config" := OBJECT, "registry_url_base" := TEXT, "registry_app_id" := TEXT, "registry_tag" := TEXT,
      "state" := OneOf(["installing", "installed", "uninstalled"])],
      ["id", "name", "user_id", "version", "driver", "registry_url_base", "registry_app_id", "registry_tag", "state", "driver_config"])),
    "processes" := MapOf(Entry(map["id" := TEXT, "app_id" := TEXT, "user_id" := TEXT, "created" := TEXT],
      ["id", "app_id", "user_id", "created"])),
    "reverse_proxy_rules" := RULES])

  lemma UsersOfFile()
    ensures map["id" := TEXT, "username" := TEXT, "atproto_did" := TEXT] == UserMembers(8)
    ensures map["id" := TEXT, "app_id" := TEXT, "user_id" := TEXT, "created" := TEXT] == ProcessMembers(8)
  {
    hide TEXT;
  }

  lemma AppsOfFile()
    ensures map["id" := TEXT, "name" := TEXT, "user_id" := TEXT, "version" := TEXT, "driver" := OneOf(["docker", "web"]),
                "driver_config" := OBJECT, "registry_url_base" := TEXT, "registry_app_id" := TEXT, "registry_tag" := TEXT,
                "state" := OneOf(["installing", "installed", "uninstalled"])] == AppMembers(8)
  {
    hide TEXT;
    hide OBJECT;
    hide OneOf;
    DriversAtEight();
    hide DriverNames;
  }

  lemma RequiredOfFile()
    ensures ["id", "name", "user_id", "version", "driver", "registry_url_base", "registry_app_id", "registry_tag", "state", "driver_config"] == AppRequires(8)
  {
  }

  lemma DriversAtEight()
    ensures DriverNames(8) == ["docker", "web"]
  {
  }

  lemma EightMembers(u: Json, a: Json, p: Json, r: Json)
    ensures map["schema_version" := TEXT, "node_id" := TEXT, "name" := TEXT, "certificate" := TEXT,
                "users" := u, "app_installations" := a, "processes" := p, "reverse_proxy_rules" := r] ==
            TopMembers(u, a, p, map["reverse_proxy_rules" := r])
  {
    hide TEXT;
  }

  lemma SchemaFileIs()
    ensures SCHEMA_FILE == SchemaDocument(8)
  {
    UsersOfFile();
    AppsOfFile();
    RequiredOfFile();
    hide TEXT;
    hide RULES;
    hide OBJECT;
    hide OneOf;
    hide Entry;
    hide UserMembers;
    hide AppMembers;
    hide AppRequires;
    hide ProcessMembers;
    hide MapOf;
    hide Root;
    hide TopMembers;
    EightMembers(Users(8), Apps(8), Processes(8), RULES);
    assert More(8) == map["reverse_proxy_rules" := RULES];
  }

  /** All files up lead from the empty object to schema.json, and all of them down lead back. */
  lemma SchemaFilesRoundTrip()
    ensures Fold(FILES, Obj(map[])) == Some(SCHEMA_FILE)
    ensures Unfold(FILES, SCHEMA_FILE) == Some(Obj(map[]))
  {
    FileVersions();
    EmptyDocument();
    SchemaFileIs();
    hide FILES;
    hide SCHEMA_FILE;
    hide SchemaDocument;
    FoldFrom(0, 8);
    UnfoldFrom(8);
    assert FILES[0..8] == FILES && FILES[..8] == FILES;
  }

  // ---------------------------------------------------------------- evaluation

  function Keyword(s: map<string, Json>, k: string): Json
  {
    if k in s then s[k] else Null
  }

  function Properties(s: map<string, Json>): map<string, Json>
  {
    if Keyword(s, "properties").Obj? then s["properties"].fields else map[]
  }

  predicate TypeHolds(t: Json, j: Json)
  {
    && (t == Str("object") ==> j.Obj?)
    && (t == Str("string") ==> j.Str?)
  }

  predicate RequiredHolds(r: Json, j: Json)
  {
    r.Arr? && j.Obj? ==> forall i :: 0 <= i < |r.items| && r.items[i].Str? ==> r.items[i].s in j.fields
  }

  /** The keywords type, enum, required, properties and additionalProperties. */
  predicate Satisfies(schema: Json, j: Json)
    decreases schema
  {
    match schema
    case Bool(b) => b
    case Obj(s) =>
      && TypeHolds(Keyword(s, "type"), j)
      && (Keyword(s, "enum").Arr? ==> j in s["enum"].items)
      && RequiredHolds(Keyword(s, "required"), j)
      && (j.Obj? ==>
            && (forall k :: k in j.fields && k in Properties(s) ==> Satisfies(s["properties"].fields[k], j.fields[k]))
            && ("additionalProperties" in s ==>
                  forall k :: k in j.fields && k !in Properties(s) ==> Satisfies(s["additionalProperties"], j.fields[k])))
    case _ => true
  }

  // ---------------------------------------------------------------- the parts

  /** A schema that says of one member what the field type says. */
  ghost predicate Says(schema: Json, t: FieldType)
  {
    match t
    case Text => schema == TEXT
    case Object => schema == OBJECT
    case Enum(values) => exists names :: schema == OneOf(names) && forall x :: x in values <==> x in names
  }

  lemma StringsHold(xs: seq<string>, j: Json)
    ensures j in Strings(xs).items <==> j.Str? && j.s in xs
    ensures RequiredHolds(Strings(xs), j) <==> (j.Obj? ==> forall x :: x in xs ==> x in j.fields)
  {
    if j.Str? && j.s in xs {
      var i :| 0 <= i < |xs| && xs[i] == j.s;
      assert Strings(xs).items[i] == j;
    }
    if RequiredHolds(Strings(xs), j) && j.Obj? {
      forall x | x in xs
        ensures x in j.fields
      {
        var i :| 0 <= i < |xs| && xs[i] == x;
        assert Strings(xs).items[i] == Str(x);
      }
    }
  }

  lemma FieldMeans(schema: Json, t: FieldType, j: Json)
    requires Says(schema, t)
    ensures Satisfies(schema, j) <==> FieldOk(t, j)
  {
    if t.Enum? {
      var names :| schema == OneOf(names) && forall x :: x in t.values <==> x in names;
      StringsHold(names, j);
      assert Keyword(schema.fields, "enum") == Strings(names);
    }
  }

  ghost predicate SaysAll(members: map<string, Json>, fields: map<string, FieldType>)
  {
    members.Keys == fields.Keys && forall k :: k in members ==> Says(members[k], fields[k])
  }

  lemma EntryMeans(members: map<string, Json>, required: seq<string>, fields: map<string, FieldType>, names: set<string>, j: Json)
    requires SaysAll(members, fields) && forall x :: x in names <==> x in required
    ensures Satisfies(Entry(members, required), j) <==> EntryOk(fields, names, j)
  {
    hide Says;
    hide FieldOk;
    var s := Entry(members, required).fields;
    StringsHold(required, j);
    assert Properties(s) == members && s["properties"].fields == members;
    if j.Obj? {
      forall k | k in j.fields && k in members
        ensures Satisfies(members[k], j.fields[k]) <==> FieldOk(fields[k], j.fields[k])
      {
        FieldMeans(members[k], fields[k], j.fields[k]);
      }
      assert forall x :: !Satisfies(Bool(false), x);
    }
  }

  lemma MapMeans(members: map<string, Json>, required: seq<string>, fields: map<string, FieldType>, names: set<string>, j: Json)
    requires SaysAll(members, fields) && forall x :: x in names <==> x in required
    ensures Satisfies(MapOf(Entry(members, required)), j) <==> EntriesOk(fields, names, j)
  {
    var s := MapOf(Entry(members, required)).fields;
    assert Properties(s) == map[];
    hide Entry;
    hide EntryOk;
    hide SaysAll;
    if j.Obj? {
      forall k | k in j.fields
        ensures Satisfies(Entry(members, required), j.fields[k]) <==> EntryOk(fields, names, j.fields[k])
      {
        EntryMeans(members, required, fields, names, j.fields[k]);
      }
    }
  }

  lemma UsersMean(v: nat, j: Json)
    ensures Satisfies(Users(v), j) <==> EntriesOk(UserFields(v), USER_REQUIRED, j)
  {
    MapMeans(UserMembers(v), ["id", "username"], UserFields(v), USER_REQUIRED, j);
  }

  lemma DriversSaid(v: nat)
    ensures Says(OneOf(DriverNames(v)), Enum(Drivers(v)))
  {
    assert forall x :: x in Drivers(v) <==> x in DriverNames(v);
  }

  lemma AppsMean(v: nat, j: Json)
    ensures Satisfies(Apps(v), j) <==> EntriesOk(AppFields(v), AppRequired(v), j)
  {
    assert SaysAll(AppMembers(v), AppFields(v)) by {
      AppsSaid(v);
    }
    assert forall x :: x in AppRequired(v) <==> x in AppRequires(v);
    MapMeans(AppMembers(v), AppRequires(v), AppFields(v), AppRequired(v), j);
  }

  lemma BothSaid(a: map<string, Json>, b: map<string, Json>, f: map<string, FieldType>, g: map<string, FieldType>)
    requires SaysAll(a, f) && SaysAll(b, g)
    ensures SaysAll(a + b, f + g)
  {
    hide Says;
  }

  lemma AppsSaid(v: nat)
    ensures SaysAll(AppMembers(v), AppFields(v))
  {
    DriversSaid(v);
    assert Says(OneOf(["installing", "installed", "uninstalled"]), Enum(LIFECYCLES)) by {
      assert forall x :: x in LIFECYCLES <==> x in ["installing", "installed", "uninstalled"];
    }
    assert Says(TEXT, Text) && Says(OBJECT, Object);
    hide OneOf;
    hide Drivers;
    hide DriverNames;
    hide TEXT;
    hide OBJECT;
    hide LIFECYCLES;
    hide Says;
    var state := OneOf(["installing", "installed", "uninstalled"]);
    var a := map["id" := TEXT, "name" := TEXT, "user_id" := TEXT, "version" := TEXT, "driver" := OneOf(DriverNames(v)),
                 "registry_url_base" := TEXT, "registry_app_id" := TEXT, "registry_tag" := TEXT, "state" := state];
    var b: map<string, Json> := if v >= 4 then map["driver_config" := OBJECT] else map[];
    var f := map["id" := Text, "name" := Text, "user_id" := Text, "version" := Text, "driver" := Enum(Drivers(v)),
                 "registry_url_base" := Text, "registry_app_id" := Text, "registry_tag" := Text, "state" := Enum(LIFECYCLES)];
    var g: map<string, FieldType> := if v >= 4 then map["driver_config" := Object] else map[];
    BothSaid(a, b, f, g);
  }

  lemma ProcessesSaid(v: nat)
    ensures SaysAll(ProcessMembers(v), ProcessFields(v))
  {
    DriversSaid(v);
    assert Says(TEXT, Text);
    hide OneOf;
    hide Drivers;
    hide DriverNames;
    hide TEXT;
    hide Says;
    var a := map["id" := TEXT, "app_id" := TEXT, "user_id" := TEXT, "created" := TEXT];
    var b: map<string, Json> := if v <= 7 then map["driver" := OneOf(DriverNames(v))] else map[];
    var c: map<string, Json> := if v <= 6 then map["state" := TEXT, "ext_driver_id" := TEXT] else map[];
    var f := map["id" := Text, "app_id" := Text, "user_id" := Text, "created" := Text];
    var g: map<string, FieldType> := if v <= 7 then map["driver" := Enum(Drivers(v))] else map[];
    var h: map<string, FieldType> := if v <= 6 then map["state" := Text, "ext_driver_id" := Text] else map[];
    BothSaid(a, b, f, g);
    BothSaid(a + b, c, f + g, h);
  }

  lemma ProcessesMean(v: nat, j: Json)
    ensures Satisfies(Processes(v), j) <==> EntriesOk(ProcessFields(v), ProcessRequired(v), j)
  {
    ProcessesSaid(v);
    assert forall x :: x in ProcessRequired(v) <==> x in ProcessRequires(v);
    MapMeans(ProcessMembers(v), ProcessRequires(v), ProcessFields(v), ProcessRequired(v), j);
  }

  lemma RulesMean(j: Json)
    ensures Satisfies(RULES, j) <==> EntriesOk(RULE_FIELDS, RULE_REQUIRED, j)
  {
    assert Says(OneOf(["file", "redirect"]), Enum(RULE_TYPES)) by {
      assert forall x :: x in RULE_TYPES <==> x in ["file", "redirect"];
    }
    assert SaysAll(RULE_MEMBERS, RULE_FIELDS) by {
      hide OneOf;
    }
    MapMeans(RULE_MEMBERS, ["id", "type", "matcher", "target", "app_id"], RULE_FIELDS, RULE_REQUIRED, j);
  }

  // ---------------------------------------------------------------- the whole document

  lemma TextMeans(j: Json)
    ensures Satisfies(TEXT, j) <==> j.Str?
  {
    assert Says(TEXT, Text);
    FieldMeans(TEXT, Text, j);
  }

  /** What the root schema asks of a member, if it is there. */
  ghost predicate MemberOk(v: nat, k: string, j: Json)
  {
    if k in {"schema_version", "node_id", "name", "certificate"} then j.Str?
    else if k == "users" then EntriesOk(UserFields(v), USER_REQUIRED, j)
    else if k == "app_installations" then EntriesOk(AppFields(v), AppRequired(v), j)
    else if k == "processes" then EntriesOk(ProcessFields(v), ProcessRequired(v), j)
    else if k == "test_field" then v == 2 ==> j.Str?
    else if k == "reverse_proxy_rules" then v >= 4 ==> EntriesOk(RULE_FIELDS, RULE_REQUIRED, j)
    else true
  }

  /** The members of a root schema, one by one. */
  lemma TopMember(u: Json, a: Json, p: Json, more: map<string, Json>, k: string)
    requires more.Keys <= MORE_NAMES
    ensures var members := TopMembers(u, a, p, more);
      && (k in {"schema_version", "node_id", "name", "certificate"} ==> k in members && members[k] == TEXT)
      && (k == "users" ==> k in members && members[k] == u)
      && (k == "app_installations" ==> k in members && members[k] == a)
      && (k == "processes" ==> k in members && members[k] == p)
      && (k in MORE_NAMES ==> (k in members <==> k in more) && (k in more ==> members[k] == more[k]))
      && (k in members ==> k in {"schema_version", "node_id", "name", "certificate", "users", "app_installations", "processes"} + MORE_NAMES)
  {
    hide TEXT;
  }

  lemma MemberMeans(v: nat, k: string, j: Json)
    requires 1 <= v
    ensures var members := TopMembers(Users(v), Apps(v), Processes(v), More(v));
      if k in members then Satisfies(members[k], j) <==> MemberOk(v, k, j) else MemberOk(v, k, j)
  {
    hide Satisfies;
    hide EntriesOk;
    hide Users;
    hide Apps;
    hide Processes;
    hide RULES;
    hide TEXT;
    hide TopMembers;
    hide UserFields;
    hide AppFields;
    hide AppRequired;
    hide ProcessFields;
    hide ProcessRequired;
    hide RULE_FIELDS;
    TopMember(Users(v), Apps(v), Processes(v), More(v), k);
    if k == "users" {
      UsersMean(v, j);
    } else if k == "app_installations" {
      AppsMean(v, j);
    } else if k == "processes" {
      ProcessesMean(v, j);
    } else if k == "reverse_proxy_rules" {
      RulesMean(j);
    } else {
      TextMeans(j);
    }
  }

  lemma RootKeywords(members: map<string, Json>)
    ensures var s := Root(members).fields;
      && Keyword(s, "type") == Str("object") && !Keyword(s, "enum").Arr?
      && Keyword(s, "required") == Strings(["node_id", "name", "certificate", "users"])
      && "properties" in s && s["properties"] == Obj(members) && Properties(s) == members
      && "additionalProperties" in s && s["additionalProperties"] == Bool(true)
  {
    hide Strings;
  }

  lemma RootRequires(doc: Json)
    ensures RequiredHolds(Strings(["node_id", "name", "certificate", "users"]), doc) <==>
            (doc.Obj? ==> "node_id" in doc.fields && "name" in doc.fields && "certificate" in doc.fields && "users" in doc.fields)
  {
    var names := ["node_id", "name", "certificate", "users"];
    StringsHold(names, doc);
    assert names[0] in names && names[1] in names && names[2] in names && names[3] in names;
  }

  lemma RootMeans(members: map<string, Json>, doc: Json)
    ensures Satisfies(Root(members), doc) <==>
      && doc.Obj?
      && "node_id" in doc.fields && "name" in doc.fields && "certificate" in doc.fields && "users" in doc.fields
      && forall k :: k in doc.fields && k in members ==> Satisfies(members[k], doc.fields[k])
  {
    hide Strings;
    hide Keyword;
    hide Properties;
    hide RequiredHolds;
    RootKeywords(members);
    RootRequires(doc);
    assert forall x :: Satisfies(Bool(true), x);
  }

  /** The schema of a version accepts exactly the documents that fit it. */
  lemma SchemaMeans(v: nat, doc: Json)
    requires 1 <= v <= 8
    ensures Satisfies(SchemaDocument(v), doc) <==> DocOk(v, doc)
  {
    var members := TopMembers(Users(v), Apps(v), Processes(v), More(v));
    RootMeans(members, doc);
    hide Satisfies;
    hide Root;
    hide EntriesOk;
    hide TopMembers;
    hide Users;
    hide Apps;
    hide Processes;
    hide More;
    if doc.Obj? && "node_id" in doc.fields && "name" in doc.fields && "certificate" in doc.fields && "users" in doc.fields {
      forall k | k in doc.fields
        ensures k in members ==> (Satisfies(members[k], doc.fields[k]) <==> MemberOk(v, k, doc.fields[k]))
        ensures k !in members ==> MemberOk(v, k, doc.fields[k])
      {
        MemberMeans(v, k, doc.fields[k]);
      }
      MembersAreDoc(v, doc);
    }
  }

  lemma MembersAreDoc(v: nat, doc: Json)
    requires doc.Obj?
    requires "node_id" in doc.fields && "name" in doc.fields && "certificate" in doc.fields && "users" in doc.fields
    ensures (forall k :: k in doc.fields ==> MemberOk(v, k, doc.fields[k])) <==> DocOk(v, doc)
  {
    hide EntriesOk;
    if forall k :: k in doc.fields ==> MemberOk(v, k, doc.fields[k]) {
      var f := doc.fields;
      assert MemberOk(v, "node_id", f["node_id"]) && MemberOk(v, "name", f["name"]) && MemberOk(v, "certificate", f["certificate"]);
      assert MemberOk(v, "users", f["users"]);
      assert "schema_version" in f ==> MemberOk(v, "schema_version", f["schema_version"]);
      assert "test_field" in f ==> MemberOk(v, "test_field", f["test_field"]);
      assert "app_installations" in f ==> MemberOk(v, "app_installations", f["app_installations"]);
      assert "processes" in f ==> MemberOk(v, "processes", f["processes"]);
      assert "reverse_proxy_rules" in f ==> MemberOk(v, "reverse_proxy_rules", f["reverse_proxy_rules"]);
    }
  }

  /** ValidateState is what it reads as: the document decodes, its version has a schema among the files,
      and that schema accepts it. */
  lemma ValidateStateReads(doc: Json)
    ensures ValidateState(doc) <==>
      && Decode(doc).Some?
      && var schema := Lookup(FILES, Decode(doc).value.schemaVersion, Obj(map[]));
      && schema.Some? && Satisfies(schema.value, doc)
  {
    if Decode(doc).Some? {
      var version := Decode(doc).value.schemaVersion;
      SchemaForVersion(version);
      hide Satisfies;
      hide SchemaDocument;
      hide DocOk;
      hide Lookup;
      hide FILES;
      if SchemaIndex(version) > 0 {
        SchemaMeans(SchemaIndex(version), doc);
      }
    }
  }
}

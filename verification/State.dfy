/** The node state record and its JSON form. An absent Go map (nil) is `None`. */
module State {
  import opened Options
  import opened Json

  datatype User = User(id: string, username: string, did: string)

  datatype Installation = Installation(
    id: string, userID: string, name: string, version: string, lifecycle: string,
    driver: string, driverConfig: Option<map<string, Json>>,
    registryURLBase: string, registryPackageID: string, registryPackageTag: string)

  datatype Process = Process(id: string, appID: string, userID: string, created: string)

  datatype Rule = Rule(id: string, ruleType: string, matcher: string, target: string, appID: string)

  datatype NodeState = NodeState(
    nodeID: string, name: string, certificate: string, schemaVersion: string, testField: string,
    users: Option<map<string, User>>,
    processes: Option<map<string, Process>>,
    apps: Option<map<string, Installation>>,
    rules: Option<map<string, Rule>>)

  /** The entries of a map that may be nil, as a Go lookup or range sees them. */
  function Entries<T>(m: Option<map<string, T>>): map<string, T>
  {
    if m.Some? then m.value else map[]
  }

  // ---------------------------------------------------------------- encoding

  function OptionalText(k: string, v: string): map<string, Json>
  {
    if v == "" then map[] else map[k := Str(v)]
  }

  function EncodeEntries<T(!new)>(m: map<string, T>, encode: T -> Json): map<string, Json>
  {
    map k | k in m :: encode(m[k])
  }

  function EncodeMap<T(!new)>(m: Option<map<string, T>>, encode: T -> Json): Json
  {
    if m.None? then Null else Obj(EncodeEntries(m.value, encode))
  }

  function EncodeUser(u: User): Json
  {
    Obj(map["id" := Str(u.id), "username" := Str(u.username)] + OptionalText("atproto_did", u.did))
  }

  function EncodeApp(a: Installation): Json
  {
    Obj(map[
          "id" := Str(a.id), "user_id" := Str(a.userID), "name" := Str(a.name),
          "version" := Str(a.version), "state" := Str(a.lifecycle), "driver" := Str(a.driver),
          "driver_config" := if a.driverConfig.None? then Null else Obj(a.driverConfig.value),
          "registry_url_base" := Str(a.registryURLBase), "registry_app_id" := Str(a.registryPackageID),
          "registry_tag" := Str(a.registryPackageTag)])
  }

  function EncodeProcess(p: Process): Json
  {
    Obj(map["id" := Str(p.id), "app_id" := Str(p.appID), "user_id" := Str(p.userID), "created" := Str(p.created)])
  }

  function EncodeRule(r: Rule): Json
  {
    Obj(map["id" := Str(r.id), "type" := Str(r.ruleType), "matcher" := Str(r.matcher),
            "target" := Str(r.target), "app_id" := Str(r.appID)])
  }

  function Scalars(nodeID: string, name: string, certificate: string, schemaVersion: string, testField: string): map<string, Json>
  {
    map["node_id" := Str(nodeID), "name" := Str(name), "certificate" := Str(certificate), "schema_version" := Str(schemaVersion)]
    + OptionalText("test_field", testField)
  }

  function Containers(users: Json, processes: Json, apps: Json, rules: Json): map<string, Json>
  {
    map["users" := users, "processes" := processes, "app_installations" := apps, "reverse_proxy_rules" := rules]
  }

  /** NodeState.Bytes: `test_field` is written only when it is not empty. */
  function Encode(s: NodeState): Json
  {
    Obj(Scalars(s.nodeID, s.name, s.certificate, s.schemaVersion, s.testField)
        + Containers(EncodeMap(s.users, EncodeUser), EncodeMap(s.processes, EncodeProcess),
                     EncodeMap(s.apps, EncodeApp), EncodeMap(s.rules, EncodeRule)))
  }

  // ---------------------------------------------------------------- decoding

  /** json.Unmarshal into a string field: an absent or null member leaves it empty. */
  function TextMember(f: map<string, Json>, k: string): Option<string>
  {
    if k !in f || f[k].Null? then Some("")
    else if f[k].Str? then Some(f[k].s)
    else None
  }

  function DecodeEntries<T(!new)>(g: map<string, Json>, decode: Json -> Option<T>): Option<map<string, T>>
  {
    if forall x :: x in g ==> decode(g[x]).Some? then Some(map x | x in g :: decode(g[x]).value) else None
  }

  function MapMember<T(!new)>(f: map<string, Json>, k: string, decode: Json -> Option<T>): Option<Option<map<string, T>>>
  {
    if k !in f || f[k].Null? then Some(None)
    else if f[k].Obj? then
      var m :- DecodeEntries(f[k].fields, decode);
      Some(Some(m))
    else None
  }

  function ObjectMember(f: map<string, Json>, k: string): Option<Option<map<string, Json>>>
  {
    if k !in f || f[k].Null? then Some(None)
    else if f[k].Obj? then Some(Some(f[k].fields))
    else None
  }

  function DecodeUser(j: Json): Option<User>
  {
    if !j.Obj? then None
    else
      var id :- TextMember(j.fields, "id");
      var username :- TextMember(j.fields, "username");
      var did :- TextMember(j.fields, "atproto_did");
      Some(User(id, username, did))
  }

  function DecodeApp(j: Json): Option<Installation>
  {
    if !j.Obj? then None
    else
      var f := j.fields;
      var id :- TextMember(f, "id");
      var userID :- TextMember(f, "user_id");
      var name :- TextMember(f, "name");
      var version :- TextMember(f, "version");
      var lifecycle :- TextMember(f, "state");
      var driver :- TextMember(f, "driver");
      var driverConfig :- ObjectMember(f, "driver_config");
      var base :- TextMember(f, "registry_url_base");
      var package :- TextMember(f, "registry_app_id");
      var tag :- TextMember(f, "registry_tag");
      Some(Installation(id, userID, name, version, lifecycle, driver, driverConfig, base, package, tag))
  }

  function DecodeProcess(j: Json): Option<Process>
  {
    if !j.Obj? then None
    else
      var id :- TextMember(j.fields, "id");
      var appID :- TextMember(j.fields, "app_id");
      var userID :- TextMember(j.fields, "user_id");
      var created :- TextMember(j.fields, "created");
      Some(Process(id, appID, userID, created))
  }

  function DecodeRule(j: Json): Option<Rule>
  {
    if !j.Obj? then None
    else
      var id :- TextMember(j.fields, "id");
      var ruleType :- TextMember(j.fields, "type");
      var matcher :- TextMember(j.fields, "matcher");
      var target :- TextMember(j.fields, "target");
      var appID :- TextMember(j.fields, "app_id");
      Some(Rule(id, ruleType, matcher, target, appID))
  }

  const ZERO := NodeState("", "", "", "", "", None, None, None, None)

  /** json.Unmarshal into a NodeState; members it does not know are skipped. */
  function Decode(j: Json): Option<NodeState>
  {
    if j.Null? then Some(ZERO)
    else if !j.Obj? then None
    else
      var f := j.fields;
      var nodeID :- TextMember(f, "node_id");
      var name :- TextMember(f, "name");
      var certificate :- TextMember(f, "certificate");
      var schemaVersion :- TextMember(f, "schema_version");
      var testField :- TextMember(f, "test_field");
      var users :- MapMember(f, "users", DecodeUser);
      var processes :- MapMember(f, "processes", DecodeProcess);
      var apps :- MapMember(f, "app_installations", DecodeApp);
      var rules :- MapMember(f, "reverse_proxy_rules", DecodeRule);
      Some(NodeState(nodeID, name, certificate, schemaVersion, testField, users, processes, apps, rules))
  }

  // ---------------------------------------------------------------- round trips

  lemma UserRoundTrip(u: User)
    ensures DecodeUser(EncodeUser(u)) == Some(u)
  {
  }

  lemma AppRoundTrip(a: Installation)
    ensures DecodeApp(EncodeApp(a)) == Some(a)
  {
    var f := EncodeApp(a).fields;
    assert f["id"] == Str(a.id);
    assert f["user_id"] == Str(a.userID);
    assert f["name"] == Str(a.name);
    assert f["version"] == Str(a.version);
    assert f["state"] == Str(a.lifecycle);
    assert f["driver"] == Str(a.driver);
    assert ObjectMember(f, "driver_config") == Some(a.driverConfig);
    assert f["registry_url_base"] == Str(a.registryURLBase);
    assert f["registry_app_id"] == Str(a.registryPackageID);
    assert f["registry_tag"] == Str(a.registryPackageTag);
  }

  lemma ProcessRoundTrip(p: Process)
    ensures DecodeProcess(EncodeProcess(p)) == Some(p)
  {
  }

  lemma RuleRoundTrip(r: Rule)
    ensures DecodeRule(EncodeRule(r)) == Some(r)
  {
  }

  lemma MapRoundTrip<T(!new)>(f: map<string, Json>, k: string, m: Option<map<string, T>>,
                              encode: T -> Json, decode: Json -> Option<T>)
    requires k in f && f[k] == EncodeMap(m, encode)
    requires forall t :: decode(encode(t)) == Some(t)
    ensures MapMember(f, k, decode) == Some(m)
  {
    if m.Some? {
      var g := f[k].fields;
      assert g.Keys == m.value.Keys;
      assert DecodeEntries(g, decode).value == m.value;
    }
  }

  predicate TextIfPresent(f: map<string, Json>, k: string)
  {
    k in f ==> f[k].Str?
  }

  lemma RootMembers(s: NodeState)
    ensures var f := Encode(s).fields;
      && "node_id" in f && f["node_id"] == Str(s.nodeID)
      && "name" in f && f["name"] == Str(s.name)
      && "certificate" in f && f["certificate"] == Str(s.certificate)
      && "schema_version" in f && f["schema_version"] == Str(s.schemaVersion)
      && "users" in f && f["users"] == EncodeMap(s.users, EncodeUser)
      && "processes" in f && f["processes"] == EncodeMap(s.processes, EncodeProcess)
      && "app_installations" in f && f["app_installations"] == EncodeMap(s.apps, EncodeApp)
      && "reverse_proxy_rules" in f && f["reverse_proxy_rules"] == EncodeMap(s.rules, EncodeRule)
      && TextIfPresent(f, "test_field") && TextMember(f, "test_field") == Some(s.testField)
  {
    ScalarMembers(s.nodeID, s.name, s.certificate, s.schemaVersion, s.testField);
    ContainerMembers(EncodeMap(s.users, EncodeUser), EncodeMap(s.processes, EncodeProcess),
                     EncodeMap(s.apps, EncodeApp), EncodeMap(s.rules, EncodeRule));
  }

  lemma ScalarMembers(nodeID: string, name: string, certificate: string, schemaVersion: string, testField: string)
    ensures var a := Scalars(nodeID, name, certificate, schemaVersion, testField);
      && "node_id" in a && a["node_id"] == Str(nodeID)
      && "name" in a && a["name"] == Str(name)
      && "certificate" in a && a["certificate"] == Str(certificate)
      && "schema_version" in a && a["schema_version"] == Str(schemaVersion)
      && TextIfPresent(a, "test_field") && TextMember(a, "test_field") == Some(testField)
  {
  }

  lemma ContainerMembers(users: Json, processes: Json, apps: Json, rules: Json)
    ensures var c := Containers(users, processes, apps, rules);
      && "users" in c && c["users"] == users
      && "processes" in c && c["processes"] == processes
      && "app_installations" in c && c["app_installations"] == apps
      && "reverse_proxy_rules" in c && c["reverse_proxy_rules"] == rules
      && "node_id" !in c && "name" !in c && "certificate" !in c && "schema_version" !in c && "test_field" !in c
  {
  }

  /** Writing a state and reading it back is the identity, so NodeState.Copy is too. */
  lemma CodecRoundTrip(s: NodeState)
    ensures Decode(Encode(s)) == Some(s)
  {
    RootMembers(s);
    DecodeMembers(Encode(s).fields, s);
  }

  lemma DecodeMembers(f: map<string, Json>, s: NodeState)
    requires TextMember(f, "node_id") == Some(s.nodeID) && TextMember(f, "name") == Some(s.name)
    requires TextMember(f, "certificate") == Some(s.certificate)
    requires TextMember(f, "schema_version") == Some(s.schemaVersion)
    requires TextMember(f, "test_field") == Some(s.testField)
    requires "users" in f && f["users"] == EncodeMap(s.users, EncodeUser)
    requires "processes" in f && f["processes"] == EncodeMap(s.processes, EncodeProcess)
    requires "app_installations" in f && f["app_installations"] == EncodeMap(s.apps, EncodeApp)
    requires "reverse_proxy_rules" in f && f["reverse_proxy_rules"] == EncodeMap(s.rules, EncodeRule)
    ensures Decode(Obj(f)) == Some(s)
  {
    forall u { UserRoundTrip(u); }
    forall p { ProcessRoundTrip(p); }
    forall a { AppRoundTrip(a); }
    forall r { RuleRoundTrip(r); }
    MapRoundTrip(f, "users", s.users, EncodeUser, DecodeUser);
    MapRoundTrip(f, "processes", s.processes, EncodeProcess, DecodeProcess);
    MapRoundTrip(f, "app_installations", s.apps, EncodeApp, DecodeApp);
    MapRoundTrip(f, "reverse_proxy_rules", s.rules, EncodeRule, DecodeRule);
  }

  /** Every field is read from the member its tag names; an entry is refused only when one of those members has
      another type. */
  lemma ReadByTag(j: Json)
    requires j.Obj?
    ensures DecodeUser(j).Some? <==> AllTexts(j.fields, {"id", "username", "atproto_did"})
    ensures DecodeProcess(j).Some? <==> AllTexts(j.fields, {"id", "app_id", "user_id", "created"})
    ensures DecodeRule(j).Some? <==> AllTexts(j.fields, {"id", "type", "matcher", "target", "app_id"})
    ensures DecodeUser(j).Some? ==> var u := DecodeUser(j).value;
      && TextMember(j.fields, "id") == Some(u.id) && TextMember(j.fields, "username") == Some(u.username)
      && TextMember(j.fields, "atproto_did") == Some(u.did)
    ensures DecodeProcess(j).Some? ==> var p := DecodeProcess(j).value;
      && TextMember(j.fields, "id") == Some(p.id) && TextMember(j.fields, "app_id") == Some(p.appID)
      && TextMember(j.fields, "user_id") == Some(p.userID) && TextMember(j.fields, "created") == Some(p.created)
    ensures DecodeRule(j).Some? ==> var r := DecodeRule(j).value;
      && TextMember(j.fields, "id") == Some(r.id) && TextMember(j.fields, "type") == Some(r.ruleType)
      && TextMember(j.fields, "matcher") == Some(r.matcher) && TextMember(j.fields, "target") == Some(r.target)
      && TextMember(j.fields, "app_id") == Some(r.appID)
  {
  }

  predicate AllTexts(f: map<string, Json>, tags: set<string>)
  {
    forall k :: k in tags ==> TextMember(f, k).Some?
  }

  lemma AppReadByTag(j: Json)
    requires j.Obj?
    ensures DecodeApp(j).Some? <==>
      && AllTexts(j.fields, {"id", "user_id", "name", "version", "state", "driver", "registry_url_base", "registry_app_id", "registry_tag"})
      && ObjectMember(j.fields, "driver_config").Some?
    ensures DecodeApp(j).Some? ==> var f, a := j.fields, DecodeApp(j).value;
      && TextMember(f, "id") == Some(a.id) && TextMember(f, "user_id") == Some(a.userID) && TextMember(f, "name") == Some(a.name)
      && TextMember(f, "version") == Some(a.version) && TextMember(f, "state") == Some(a.lifecycle)
      && TextMember(f, "driver") == Some(a.driver) && ObjectMember(f, "driver_config") == Some(a.driverConfig)
      && TextMember(f, "registry_url_base") == Some(a.registryURLBase) && TextMember(f, "registry_app_id") == Some(a.registryPackageID)
      && TextMember(f, "registry_tag") == Some(a.registryPackageTag)
  {
  }
}

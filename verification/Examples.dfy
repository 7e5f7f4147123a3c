/** Inputs at which the code does not do what it is meant to do. */
module Examples {
  import opened Options
  import opened Json
  import opened State
  import opened Schema
  import opened Documents
  import opened Transitions
  import opened Refinement
  import opened StepTheorems
  import opened DocumentMigration
  import opened Processes
  import opened Controller
  import EarlyStops

  const USERS := map["u" := User("u", "ann", "")]

  /** A node without installations or processes at a version. */
  function Plainly(version: string): NodeState
  {
    NodeState("node", "Node", "", version, "", Some(USERS), Some(map[]), Some(map[]), Some(map[]))
  }

  lemma PlainlyValid(version: string)
    requires SchemaIndex(version) > 0
    ensures Valid(Plainly(version)) && ValidateState(Encode(Plainly(version))) && Decode(Encode(Plainly(version))) == Some(Plainly(version))
  {
    assert StateOk(SchemaIndex(version), Plainly(version));
    ValidEncoded(Plainly(version));
    CodecRoundTrip(Plainly(version));
  }

  // ---------------------------------------------------------------- documents that cannot migrate

  /** An installation as programs before v0.0.4 wrote it. */
  const OLD_APP := Obj(map[
    "id" := Str("a"), "user_id" := Str("u"), "name" := Str("App"), "version" := Str("1"), "state" := Str("installed"),
    "driver" := Str("docker"), "registry_url_base" := Str("registry"), "registry_app_id" := Str("package"), "registry_tag" := Str("tag")])

  const OLD_INSTALLATION := Installation("a", "u", "App", "1", "installed", "docker", None, "registry", "package", "tag")

  function OldState(): NodeState
  {
    Plainly("v0.0.3").(apps := Some(map["a" := OLD_INSTALLATION]))
  }

  function OldInstallation(): Json
  {
    SetMember(Encode(Plainly("v0.0.3")), "app_installations", map["a" := OLD_APP])
  }

  lemma OldAppKeys()
    ensures OLD_APP.fields.Keys == AppFields(3).Keys == AppRequired(3)
  {
    hide Drivers;
    hide LIFECYCLES;
  }

  lemma TypesAtThree()
    ensures "driver" in AppFields(3) && AppFields(3)["driver"] == Enum(Drivers(3))
    ensures "state" in AppFields(3) && AppFields(3)["state"] == Enum(LIFECYCLES)
    ensures forall k :: k in AppFields(3) && k != "driver" && k != "state" ==> AppFields(3)[k] == Text
  {
    hide Drivers;
    hide LIFECYCLES;
  }

  lemma OldAppTexts()
    ensures forall k :: k in OLD_APP.fields ==> OLD_APP.fields[k].Str?
    ensures "driver" in OLD_APP.fields && OLD_APP.fields["driver"] == Str("docker")
    ensures "state" in OLD_APP.fields && OLD_APP.fields["state"] == Str("installed")
  {
  }

  lemma OldAppFits()
    ensures EntryOk(AppFields(3), AppRequired(3), OLD_APP)
  {
    OldAppKeys();
    TypesAtThree();
    OldAppTexts();
    DockerAtThree();
    assert "installed" in LIFECYCLES && OLD_APP.Obj?;
    hide AppFields;
    hide AppRequired;
    hide Drivers;
    hide LIFECYCLES;
    hide OLD_APP;
  }

  lemma DockerAtThree()
    ensures "docker" in Drivers(3)
  {
  }

  lemma OldAppDecodes()
    ensures DecodeApp(OLD_APP) == Some(OLD_INSTALLATION)
  {
    var f := OLD_APP.fields;
    assert TextMember(f, "id") == Some("a") && TextMember(f, "user_id") == Some("u") && TextMember(f, "name") == Some("App");
    assert TextMember(f, "version") == Some("1") && TextMember(f, "state") == Some("installed") && TextMember(f, "driver") == Some("docker");
    assert TextMember(f, "registry_url_base") == Some("registry") && TextMember(f, "registry_app_id") == Some("package");
    assert TextMember(f, "registry_tag") == Some("tag") && ObjectMember(f, "driver_config") == Some(None);
    hide TextMember;
    hide ObjectMember;
  }

  lemma OneDecodes<T(!new)>(k: string, j: Json, decode: Json -> Option<T>, fields: map<string, FieldType>, required: set<string>)
    requires decode(j).Some? && EntryOk(fields, required, j)
    ensures DecodeEntries(map[k := j], decode) == Some(map[k := decode(j).value])
    ensures EntriesOk(fields, required, Obj(map[k := j]))
  {
    hide EntryOk;
    assert DecodeEntries(map[k := j], decode).value == map[k := decode(j).value];
  }

  /** A valid document that is not portable is refused. */
  lemma RefusedNotPortable(doc: Json, s: NodeState, target: string)
    requires ValidateState(doc) && Decode(doc) == Some(s) && !Portable(doc, Version(s), SchemaIndex(target))
    ensures ProposeOne(Migrate(target), doc) == None
  {
    hide Portable;
    hide ValidateState;
    MigrateDocument(doc, target);
  }

  lemma WithApps(s: NodeState, doc: Json, g: map<string, Json>, m: map<string, Installation>)
    requires ValidateState(doc) && Decode(doc) == Some(s) && DecodeEntries(g, DecodeApp) == Some(m)
    requires EntriesOk(AppFields(Version(s)), AppRequired(Version(s)), Obj(g))
    ensures doc.Obj? && ValidateState(SetMember(doc, "app_installations", g))
    ensures Decode(SetMember(doc, "app_installations", g)) == Some(s.(apps := Some(m)))
    ensures MemberFields(SetMember(doc, "app_installations", g), "app_installations") == g
  {
    hide Encode;
    hide Decode;
    hide ValidateState;
    hide Valid;
    hide EntriesOk;
    AppsSet(doc, g, m);
    SetTwice(doc, "app_installations", g, g);
  }

  lemma PlainlyVersion(version: string)
    ensures Version(Plainly(version)) == SchemaIndex(version)
  {
  }

  lemma OldInstallationValid()
    ensures ValidateState(OldInstallation()) && Decode(OldInstallation()) == Some(OldState())
    ensures MemberFields(OldInstallation(), "app_installations") == map["a" := OLD_APP]
  {
    Indexes();
    PlainlyValid("v0.0.3");
    PlainlyVersion("v0.0.3");
    OldAppFits();
    OldAppDecodes();
    hide Encode;
    hide Decode;
    hide ValidateState;
    hide OLD_APP;
    hide OLD_INSTALLATION;
    hide DecodeApp;
    hide AppFields;
    hide AppRequired;
    hide Valid;
    hide Plainly;
    hide SchemaIndex;
    hide Version;
    OneDecodes("a", OLD_APP, DecodeApp, AppFields(3), AppRequired(3));
    WithApps(Plainly("v0.0.3"), Encode(Plainly("v0.0.3")), map["a" := OLD_APP], map["a" := OLD_INSTALLATION]);
  }

  lemma Indexes()
    ensures SchemaIndex("v0.0.3") == 3 && SchemaIndex("v0.0.4") == 4 && SchemaIndex("v0.0.5") == 5
    ensures SchemaIndex("v0.0.7") == 7 && SchemaIndex("v0.0.8") == 8
  {
  }

  lemma OldStateVersion()
    ensures Version(OldState()) == 3
  {
  }

  lemma OneEntry(k: string, j: Json)
    ensures map[k := j] != map[]
  {
    assert k in map[k := j];
  }

  /** A valid v0.0.3 document with an installation, which cannot be migrated to v0.0.8. */
  lemma OldInstallationStuck()
    ensures ValidateState(OldInstallation()) && ProposeOne(Migrate("v0.0.8"), OldInstallation()) == None
  {
    Indexes();
    OldInstallationValid();
    OldStateVersion();
    OneEntry("a", OLD_APP);
    hide OldInstallation;
    hide OldState;
    hide OLD_APP;
    hide ValidateState;
    hide Decode;
    hide ProposeOne;
    hide SchemaIndex;
    hide Version;
    RefusedNotPortable(OldInstallation(), OldState(), "v0.0.8");
  }

  const EMPTY_DID := Obj(map["id" := Str("u"), "username" := Str("ann"), "atproto_did" := Str("")])

  function EmptyDid(): Json
  {
    SetMember(Encode(Plainly("v0.0.5")), "users", map["u" := EMPTY_DID])
  }

  lemma EmptyDidFits()
    ensures EntryOk(UserFields(5), USER_REQUIRED, EMPTY_DID) && DecodeUser(EMPTY_DID) == Some(User("u", "ann", ""))
    ensures WritesEmptyDid(EMPTY_DID)
  {
  }

  lemma EmptyDidValid()
    ensures ValidateState(EmptyDid()) && Decode(EmptyDid()) == Some(Plainly("v0.0.5"))
    ensures MemberFields(EmptyDid(), "users") == map["u" := EMPTY_DID]
  {
    PlainlyValid("v0.0.5");
    EmptyDidFits();
    Indexes();
    PlainlyVersion("v0.0.5");
    assert Plainly("v0.0.5").(users := Some(USERS)) == Plainly("v0.0.5");
    hide Encode;
    hide Decode;
    hide ValidateState;
    hide EMPTY_DID;
    hide DecodeUser;
    hide UserFields;
    hide Valid;
    hide Plainly;
    hide SchemaIndex;
    hide Version;
    OneDecodes("u", EMPTY_DID, DecodeUser, UserFields(5), USER_REQUIRED);
    UsersSet(Encode(Plainly("v0.0.5")), map["u" := EMPTY_DID], USERS);
    SetTwice(Encode(Plainly("v0.0.5")), "users", map["u" := EMPTY_DID], map["u" := EMPTY_DID]);
  }

  lemma EmptyDidAccepted()
    ensures Accepts(Migrate("v0.0.4"), Plainly("v0.0.5"))
  {
    Indexes();
    PlainlyValid("v0.0.5");
    assert Entries(Plainly("v0.0.5").apps) == map[] && Entries(Plainly("v0.0.5").processes) == map[];
    assert Plainly("v0.0.5").schemaVersion == "v0.0.5" != "v0.0.4";
    hide Accepts;
    hide Encode;
    hide Decode;
    hide Plainly;
    hide SchemaIndex;
    hide Valid;
    MigrationAccepted(Plainly("v0.0.5"), "v0.0.4");
  }

  /** A valid v0.0.5 document that writes out an empty DID: its record may go down to v0.0.4, it may not. */
  lemma EmptyDidStuck()
    ensures ValidateState(EmptyDid()) && Decode(EmptyDid()) == Some(Plainly("v0.0.5"))
    ensures Accepts(Migrate("v0.0.4"), Plainly("v0.0.5")) && ProposeOne(Migrate("v0.0.4"), EmptyDid()) == None
  {
    Indexes();
    PlainlyVersion("v0.0.5");
    EmptyDidValid();
    EmptyDidAccepted();
    EmptyDidFits();
    assert "u" in map["u" := EMPTY_DID] && map["u" := EMPTY_DID]["u"] == EMPTY_DID;
    hide EmptyDid;
    hide Plainly;
    hide EMPTY_DID;
    hide ValidateState;
    hide Decode;
    hide ProposeOne;
    hide Accepts;
    hide WritesEmptyDid;
    hide SchemaIndex;
    hide Version;
    RefusedNotPortable(EmptyDid(), Plainly("v0.0.5"), "v0.0.4");
  }

  const OLD_PROCESS := Obj(map[
    "id" := Str("docker:1"), "app_id" := Str("a"), "user_id" := Str("u"), "created" := Str(""), "driver" := Str("docker")])

  function OldProcess(): Json
  {
    SetMember(Encode(Plainly("v0.0.7")), "processes", map["docker:1" := OLD_PROCESS])
  }

  lemma OldProcessFits()
    ensures EntryOk(ProcessFields(7), ProcessRequired(7), OLD_PROCESS) && DecodeProcess(OLD_PROCESS).Some?
  {
    assert OLD_PROCESS.fields.Keys == ProcessFields(7).Keys;
  }

  lemma OldProcessValid()
    ensures ValidateState(OldProcess()) && MemberFields(OldProcess(), "processes") == map["docker:1" := OLD_PROCESS]
  {
    PlainlyValid("v0.0.7");
    OldProcessFits();
    Indexes();
    PlainlyVersion("v0.0.7");
    hide Encode;
    hide Decode;
    hide ValidateState;
    hide OLD_PROCESS;
    hide DecodeProcess;
    hide ProcessFields;
    hide ProcessRequired;
    hide Valid;
    hide Plainly;
    hide SchemaIndex;
    hide Version;
    assert DecodeEntries(map["docker:1" := OLD_PROCESS], DecodeProcess).Some? by {
      OneDecodes("docker:1", OLD_PROCESS, DecodeProcess, ProcessFields(7), ProcessRequired(7));
    }
    OneDecodes("docker:1", OLD_PROCESS, DecodeProcess, ProcessFields(7), ProcessRequired(7));
    ProcessesSet(Encode(Plainly("v0.0.7")), map["docker:1" := OLD_PROCESS], map["docker:1" := DecodeProcess(OLD_PROCESS).value]);
    SetTwice(Encode(Plainly("v0.0.7")), "processes", map["docker:1" := OLD_PROCESS], map["docker:1" := OLD_PROCESS]);
  }

  /** A valid v0.0.7 document with a process, which can be migrated nowhere. */
  lemma OldProcessStuck(target: string)
    ensures ValidateState(OldProcess()) && ProposeOne(Migrate(target), OldProcess()) == None
  {
    OldProcessValid();
    assert Decode(OldProcess()).Some?;
    OneEntry("docker:1", OLD_PROCESS);
    hide OldProcess;
    hide OLD_PROCESS;
    hide ValidateState;
    hide Decode;
    hide ProposeOne;
    RefusedNotPortable(OldProcess(), Decode(OldProcess()).value, target);
  }

  // ---------------------------------------------------------------- starts that go wrong

  /** On a fresh node with one installed app and a tracking driver a start is accepted. If the driver
      refuses, no error is reported; if it starts the process but the record's write was lost, the
      process runs without a record. */
  lemma StartsGoWrong()
    ensures var doc := Encode(EarlyStops.EXAMPLE_NODE);
      && ValidateState(doc) && StartAccepted(doc, "a", "1", "")
      && !DriverStarts(doc, EarlyStops.TRACKING, map[], "a", "1", "", Refuses)
      && !StartReportsError(doc, EarlyStops.TRACKING, map[], "a", "1", "", Refuses, true)
      && DriverStarts(doc, EarlyStops.TRACKING, map[], "a", "1", "", Starts)
      && var (next, running) := AfterStart(doc, EarlyStops.TRACKING, map[], "a", "1", "", Starts, false, true);
      && Runs(running, "docker:1") && !Recorded(next, "docker:1")
  {
    var s := EarlyStops.EXAMPLE_NODE;
    var doc := Encode(s);
    var t := StartProcess(Some(Process("docker:1", "a", "u", "")));
    ExampleRecord();
    EarlyStops.PlainExample();
    hide ProposeOne;
    hide Decode;
    hide Encode;
    hide ValidateState;
    assert DriverOf(doc, "a") == "docker";
    assert StartTransition(doc, "a", "1", "") == t.process;
    RefusedStartReported(doc, EarlyStops.TRACKING, map[], "a", "1", "", Refuses, true);
    LostWriteRunsUnrecorded(doc, EarlyStops.TRACKING, map[], "a", "1", "", Starts, false, true);
  }

  lemma ExampleRecord()
    ensures var s := EarlyStops.EXAMPLE_NODE; var t := StartProcess(Some(Process("docker:1", "a", "u", "")));
      && Valid(s) && ValidateState(Encode(s)) && Decode(Encode(s)) == Some(s)
      && "a" in Entries(s.apps) && Entries(s.apps)["a"] == EarlyStops.EXAMPLE_APP
      && ProposeOne(t, Encode(s)).Some?
  {
    var s := EarlyStops.EXAMPLE_NODE;
    EarlyStops.ExampleInitial();
    EarlyStops.ExampleStarts();
    EarlyStops.PlainExample();
    ValidEncoded(s);
    CodecRoundTrip(s);
    WrittenStep(StartProcess(Some(Process("docker:1", "a", "u", ""))), s);
  }

  // ---------------------------------------------------------------- a web app

  const WEB_APP := EarlyStops.EXAMPLE_APP.(driver := "web")
  const WEB_NODE := EarlyStops.EXAMPLE_NODE.(apps := Some(map["a" := WEB_APP]))

  lemma PlainWeb()
    ensures NewID("web", "1") == "web:1" && Plain("web:1")
  {
    assert "web:1" == ['w', 'e', 'b', ':', '1'];
  }

  lemma WebNodeParts()
    ensures Entries(WEB_NODE.users) == map["u" := User("u", "ann", "")] && Entries(WEB_NODE.processes) == map[]
    ensures Entries(WEB_NODE.apps) == map["a" := WEB_APP] && WEB_NODE.processes.Some? && WEB_NODE.schemaVersion == "v0.0.8"
    ensures WEB_APP.lifecycle == "installed" && WEB_APP.id == "a" && WEB_APP.userID == "u" && WEB_APP.driver == "web"
    ensures Valid(WEB_NODE)
  {
  }

  lemma WebRecord()
    ensures var t := StartProcess(Some(Process("web:1", "a", "u", "")));
      Accepts(t, WEB_NODE) && PlainIds(t)
  {
    PlainWeb();
    WebNodeParts();
    Indexes();
    hide WEB_NODE;
    hide WEB_APP;
    hide Valid;
    hide Plain;
    hide SchemaIndex;
  }

  /** A node with one installed web app: its start is accepted and, whatever the driver would answer, is
      taken back without an error. */
  lemma WebAppStuck(answer: StartAnswer)
    ensures var doc := Encode(WEB_NODE);
      && ValidateState(doc) && StartAccepted(doc, "a", "1", "")
      && AfterStart(doc, Registered(NODE_DRIVERS), map[], "a", "1", "", answer, true, true) == (doc, map[])
      && !StartReportsError(doc, Registered(NODE_DRIVERS), map[], "a", "1", "", answer, true)
  {
    var doc := Encode(WEB_NODE);
    var t := StartProcess(Some(Process("web:1", "a", "u", "")));
    WebRecord();
    PlainWeb();
    WebNodeParts();
    hide WEB_NODE;
    hide WEB_APP;
    ValidEncoded(WEB_NODE);
    CodecRoundTrip(WEB_NODE);
    WrittenStep(t, WEB_NODE);
    hide ProposeOne;
    hide Decode;
    hide Encode;
    hide ValidateState;
    hide Accepts;
    hide Valid;
    hide Registered;
    assert DriverOf(doc, "a") == "web";
    assert StartTransition(doc, "a", "1", "") == t.process;
    WebAppNeverStarts(doc, map[], "a", "1", "", answer);
  }
}

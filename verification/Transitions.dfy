/** The transitions of the node: what each checks in the state document, the JSON patch it makes,
    and one proposal step. Beside them the same transitions on records: when a transition is
    accepted and which record follows. `PatchRefinesUpdate` joins the two. */
module Transitions {
  import opened Options
  import opened Json
  import opened State
  import opened Schema
  import opened Migrations
  import opened MigrationRoundTrip
  import opened Documents

  datatype Transition =
    | Initialize(init: Option<NodeState>)
    | Migrate(target: string)
    | AddUser(user: User)
    | StartInstallation(app: Installation, newRules: seq<Rule>)
    | FinishInstallation(appID: string)
    | Uninstall(appID: string)
    | StartProcess(process: Option<Process>)
    | StopProcess(id: string)
    | AddRule(rule: Rule)

  // ---------------------------------------------------------------- on documents

  /** The initialization patch fills nil maps of the given state. */
  function Filled(s: NodeState): NodeState
  {
    s.(users := Some(Entries(s.users)), apps := Some(Entries(s.apps)),
       processes := Some(Entries(s.processes)), rules := Some(Entries(s.rules)))
  }

  function MigrationTarget(s: NodeState, target: string): Option<NodeState>
  {
    NodeChain();
    Migrated(NODE_MIGRATIONS, s, s.schemaVersion, target)
  }

  function DiffToTarget(s: NodeState, target: string): Option<seq<Op>>
  {
    NodeChain();
    MigrationPatch(NODE_MIGRATIONS, s, s.schemaVersion, target)
  }

  /** The part of each Validate after the document has been decoded. */
  predicate Check(t: Transition, s: NodeState)
  {
    match t
    case Initialize(init) => init.Some?
    case Migrate(target) =>
      var patch := DiffToTarget(s, target);
      && patch.Some?
      && var updated := Apply(patch.value, Encode(s));
      && updated.Some?
      && Decode(updated.value).Some?
      && var next := Decode(updated.value).value;
      && SchemaIndex(next.schemaVersion) > 0
      && DocOk(SchemaIndex(next.schemaVersion), Encode(next))
    case AddUser(u) =>
      && u.id !in Entries(s.users)
      && forall k :: k in Entries(s.users) ==> Entries(s.users)[k].username != u.username
    case StartInstallation(a, _) =>
      && a.userID in Entries(s.users)
      && a.id !in Entries(s.apps)
      && (forall k :: k in Entries(s.apps) ==>
            !(Entries(s.apps)[k].registryURLBase == a.registryURLBase && Entries(s.apps)[k].registryPackageID == a.registryPackageID))
      && a.driverConfig.Some?
    case FinishInstallation(id) =>
      id in Entries(s.apps) && Entries(s.apps)[id].lifecycle == "installing"
    case Uninstall(id) => id in Entries(s.apps)
    case StartProcess(process) =>
      && process.Some?
      && var p := process.value;
      && p.appID in Entries(s.apps)
      && Entries(s.apps)[p.appID].lifecycle == "installed"
      && p.userID in Entries(s.users)
      && p.id !in Entries(s.processes)
      && forall k :: k in Entries(s.processes) ==> Entries(s.processes)[k].appID != p.appID
    case StopProcess(id) => id in Entries(s.processes)
    case AddRule(r) =>
      forall k :: k in Entries(s.rules) ==> Entries(s.rules)[k].id != r.id && Entries(s.rules)[k].matcher != r.matcher
  }

  predicate Validate(t: Transition, doc: Json)
  {
    if t.Initialize? then t.init.Some? else Decode(doc).Some? && Check(t, Decode(doc).value)
  }

  function RuleOps(rules: seq<Rule>): seq<Op>
  {
    if rules == [] then []
    else [Op(MemberPath("reverse_proxy_rules", rules[0].id), Add(EncodeRule(rules[0])))] + RuleOps(rules[1..])
  }

  function Patch(t: Transition, doc: Json): Option<seq<Op>>
  {
    match t
    case Initialize(init) =>
      if init.None? then None else Some([Op("", Add(Encode(Filled(init.value))))])
    case Migrate(target) =>
      var s :- Decode(doc);
      DiffToTarget(s, target)
    case AddUser(u) => Some([Op(MemberPath("users", u.id), Add(EncodeUser(u)))])
    case StartInstallation(a, rules) =>
      var s :- Decode(doc);
      if a.userID !in Entries(s.users) then None
      else Some([Op(MemberPath("app_installations", a.id), Add(EncodeApp(a)))] + RuleOps(rules))
    case FinishInstallation(id) =>
      var s :- Decode(doc);
      Some([Op("/" + "app_installations" + "/" + id + "/" + "state", Replace(Str("installed")))])
    case Uninstall(id) => Some([Op(MemberPath("app_installations", id), Remove)])
    case StartProcess(process) =>
      var s :- Decode(doc);
      if process.None? then None
      else Some([Op(MemberPath("processes", process.value.id), Add(EncodeProcess(process.value)))])
    case StopProcess(id) =>
      var s :- Decode(doc);
      if id !in Entries(s.processes) then None else Some([Op(MemberPath("processes", id), Remove)])
    case AddRule(r) => Some([Op(MemberPath("reverse_proxy_rules", r.id), Add(EncodeRule(r)))])
  }

  /** The rule loop of the start-installation patch. */
  method CollectRuleOps(rules: seq<Rule>) returns (ops: seq<Op>)
    ensures ops == RuleOps(rules)
  {
    ops := [];
    for i := 0 to |rules|
      invariant ops + RuleOps(rules[i..]) == RuleOps(rules)
    {
      assert rules[i..][1..] == rules[i + 1..];
      ops := ops + [Op(MemberPath("reverse_proxy_rules", rules[i].id), Add(EncodeRule(rules[i])))];
    }
  }

  /** applyImpl: patch, then check the result against the schema of its own version. */
  function ApplyChecked(ops: seq<Op>, doc: Json): (r: Option<Json>)
    ensures r.Some? ==> ValidateState(r.value)
  {
    var updated :- Apply(ops, doc);
    if ValidateState(updated) then Some(updated) else None
  }

  /** One round of the loop in ProposeTransitions. */
  function ProposeOne(t: Transition, doc: Json): (r: Option<Json>)
    ensures r.Some? ==> ValidateState(r.value)
  {
    if !Validate(t, doc) then None
    else
      var ops :- Patch(t, doc);
      ApplyChecked(ops, doc)
  }

  // ---------------------------------------------------------------- on records

  function PutRules(m: map<string, Rule>, rules: seq<Rule>): map<string, Rule>
    decreases |rules|
  {
    if rules == [] then m else PutRules(m[rules[0].id := rules[0]], rules[1..])
  }

  function Version(s: NodeState): nat
  {
    SchemaIndex(s.schemaVersion)
  }

  /** When a transition goes through in a valid state: its own checks, that the maps it edits are
      there, and that what it adds fits the schema of the state's version. */
  predicate Accepts(t: Transition, s: NodeState)
  {
    match t
    case Initialize(init) => init.Some? && Valid(Filled(init.value))
    case Migrate(target) =>
      MigrationTarget(s, target).Some? && Valid(MigrationTarget(s, target).value)
    case AddUser(u) => Check(t, s) && s.users.Some? && UserFits(Version(s), u)
    case StartInstallation(a, rules) =>
      && Check(t, s) && s.apps.Some? && AppFits(Version(s), a)
      && (rules != [] ==> s.rules.Some?)
      && var all := PutRules(Entries(s.rules), rules);
      && forall k :: k in all ==> RuleFits(Version(s), all[k])
    case FinishInstallation(_) => Check(t, s)
    case Uninstall(_) => Check(t, s)
    case StartProcess(p) => Check(t, s) && s.processes.Some? && ProcessFits(Version(s), p.value)
    case StopProcess(_) => Check(t, s)
    case AddRule(r) => Check(t, s) && s.rules.Some? && RuleFits(Version(s), r)
  }

  function Update(t: Transition, s: NodeState): NodeState
    requires Accepts(t, s)
  {
    match t
    case Initialize(init) => Filled(init.value)
    case Migrate(target) => MigrationTarget(s, target).value
    case AddUser(u) => s.(users := Some(s.users.value[u.id := u]))
    case StartInstallation(a, rules) =>
      s.(apps := Some(s.apps.value[a.id := a]),
         rules := if rules == [] then s.rules else Some(PutRules(Entries(s.rules), rules)))
    case FinishInstallation(id) => s.(apps := Some(s.apps.value[id := s.apps.value[id].(lifecycle := "installed")]))
    case Uninstall(id) => s.(apps := Some(s.apps.value - {id}))
    case StartProcess(p) => s.(processes := Some(s.processes.value[p.value.id := p.value]))
    case StopProcess(id) => s.(processes := Some(s.processes.value - {id}))
    case AddRule(r) => s.(rules := Some(s.rules.value[r.id := r]))
  }

  /** The ids a transition puts into a pointer stand for themselves there. */
  predicate PlainIds(t: Transition)
  {
    match t
    case Initialize(_) => true
    case Migrate(_) => true
    case AddUser(u) => Plain(u.id)
    case StartInstallation(a, rules) => Plain(a.id) && forall i :: 0 <= i < |rules| ==> Plain(rules[i].id)
    case FinishInstallation(id) => Plain(id)
    case Uninstall(id) => Plain(id)
    case StartProcess(p) => p.Some? ==> Plain(p.value.id)
    case StopProcess(id) => Plain(id)
    case AddRule(r) => Plain(r.id)
  }
}

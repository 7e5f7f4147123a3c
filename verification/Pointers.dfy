/** Which ids the node's patches can carry: the ones for which every pointer built by text formatting
    addresses the entry it is meant for. */
module Pointers {
  import opened Options
  import opened Json
  import opened State
  import opened Documents
  import opened Transitions

  lemma EntryPointer(member: string, id: string)
    requires member in MEMBERS
    ensures ParsePointer(MemberPath(member, id)) == Some([member, id]) <==> Plain(id)
  {
    MembersPlain();
    hide Plain;
    MemberPointer(member, id);
  }

  /** Where each transition's patch is meant to write, in the order of its operations. */
  function Places(t: Transition): seq<seq<string>>
  {
    match t
    case Initialize(_) => [[]]
    case Migrate(_) => []
    case AddUser(u) => [["users", u.id]]
    case StartInstallation(a, rules) => [["app_installations", a.id]] + seq(|rules|, i requires 0 <= i < |rules| => ["reverse_proxy_rules", rules[i].id])
    case FinishInstallation(id) => [["app_installations", id, "state"]]
    case Uninstall(id) => [["app_installations", id]]
    case StartProcess(p) => if p.Some? then [["processes", p.value.id]] else []
    case StopProcess(id) => [["processes", id]]
    case AddRule(r) => [["reverse_proxy_rules", r.id]]
  }

  lemma {:induction false} RulePlaces(rules: seq<Rule>)
    ensures |RuleOps(rules)| == |rules|
    ensures forall i :: 0 <= i < |rules| ==> RuleOps(rules)[i].path == MemberPath("reverse_proxy_rules", rules[i].id)
  {
    if rules != [] {
      RulePlaces(rules[1..]);
    }
  }

  /** A patch writes where it is meant to exactly when its ids are plain. */
  lemma PatchAddresses(t: Transition, doc: Json)
    requires Patch(t, doc).Some? && !t.Migrate?
    ensures var ops := Patch(t, doc).value;
      && |ops| == |Places(t)|
      && ((forall i :: 0 <= i < |ops| ==> ParsePointer(ops[i].path) == Some(Places(t)[i])) <==> PlainIds(t))
  {
    hide ParsePointer;
    hide Plain;
    var ops := Patch(t, doc).value;
    if t.StartInstallation? {
      EntryPointer("app_installations", t.app.id);
      RulePlaces(t.newRules);
      InstallationAddresses(t.app.id, t.newRules, ops, Places(t));
    } else {
      OneOperation(ops, Places(t));
      match t
      case Initialize(_) => RootPointer();
      case AddUser(u) => EntryPointer("users", u.id);
      case FinishInstallation(id) => FinishPointer(id);
      case Uninstall(id) => EntryPointer("app_installations", id);
      case StartProcess(p) => EntryPointer("processes", p.value.id);
      case StopProcess(id) => EntryPointer("processes", id);
      case AddRule(r) => EntryPointer("reverse_proxy_rules", r.id);
    }
  }

  lemma OneOperation(ops: seq<Op>, places: seq<seq<string>>)
    requires |ops| == |places| == 1
    ensures (forall i :: 0 <= i < |ops| ==> ParsePointer(ops[i].path) == Some(places[i])) <==> ParsePointer(ops[0].path) == Some(places[0])
  {
    hide ParsePointer;
  }

  lemma RootPointer()
    ensures ParsePointer("") == Some([])
  {
  }

  lemma FinishPointer(id: string)
    ensures ParsePointer("/" + "app_installations" + "/" + id + "/" + "state") == Some(["app_installations", id, "state"]) <==> Plain(id)
  {
    MembersPlain();
    hide Plain;
    MemberFieldPointer("app_installations", id, "state");
  }

  lemma InstallationAddresses(id: string, rules: seq<Rule>, ops: seq<Op>, places: seq<seq<string>>)
    requires |ops| == |places| == |rules| + 1
    requires ops[0].path == MemberPath("app_installations", id) && places[0] == ["app_installations", id]
    requires forall i :: 0 <= i < |rules| ==>
      ops[i + 1].path == MemberPath("reverse_proxy_rules", rules[i].id) && places[i + 1] == ["reverse_proxy_rules", rules[i].id]
    ensures (forall i :: 0 <= i < |ops| ==> ParsePointer(ops[i].path) == Some(places[i])) <==>
      Plain(id) && forall i :: 0 <= i < |rules| ==> Plain(rules[i].id)
  {
    EntryPointer("app_installations", id);
    forall i | 0 <= i < |rules|
      ensures ParsePointer(ops[i + 1].path) == Some(places[i + 1]) <==> Plain(rules[i].id)
    {
      EntryPointer("reverse_proxy_rules", rules[i].id);
    }
    hide ParsePointer;
    hide Plain;
    hide MemberPath;
    if Plain(id) && forall i :: 0 <= i < |rules| ==> Plain(rules[i].id) {
      forall i | 0 <= i < |ops|
        ensures ParsePointer(ops[i].path) == Some(places[i])
      {
        assert i > 0 ==> Plain(rules[i - 1].id) && ops[i - 1 + 1] == ops[i];
      }
    }
  }
}

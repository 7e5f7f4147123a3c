/** Uninstalling an entry is what makes its package installable again. */
module Retries {
  import opened Options
  import opened Json
  import opened State
  import opened Schema
  import opened Transitions
  import opened StepTheorems
  import opened Batch
  import opened Invariants
  import opened Matchers

  /** Putting the same rules again changes nothing. */
  lemma PutRulesAgain(m: map<string, Rule>, rules: seq<Rule>)
    ensures PutRules(PutRules(m, rules), rules) == PutRules(m, rules)
  {
    var r := PutRules(m, rules);
    var again := PutRules(r, rules);
    forall k
      ensures k in again <==> k in r
      ensures k in r ==> again[k] == r[k]
    {
      PutRulesAt(m, rules, k);
      PutRulesAt(r, rules, k);
      if Replaced(rules, k) {
        var i: nat :| LastOf(rules, i) && rules[i].id == k && r[k] == rules[i];
        var j: nat :| LastOf(rules, j) && rules[j].id == k && again[k] == rules[j];
        assert i == j;
      }
    }
    assert again.Keys == r.Keys;
  }

  /** An installation that was accepted is accepted again once its entry is uninstalled. */
  lemma AgainAccepted(s: NodeState, a: Installation, rules: seq<Rule>)
    requires Accepts(StartInstallation(a, rules), s)
    ensures Accepts(Uninstall(a.id), Update(StartInstallation(a, rules), s))
    ensures Accepts(StartInstallation(a, rules), Update(Uninstall(a.id), Update(StartInstallation(a, rules), s)))
  {
    var installed := Update(StartInstallation(a, rules), s);
    var removed := Update(Uninstall(a.id), installed);
    PutRulesAgain(Entries(s.rules), rules);
    assert Entries(removed.apps) == Entries(s.apps) - {a.id} && removed.users == s.users;
  }

  /** Over documents: installing, uninstalling and installing again goes through when installing does, and
      without the uninstall the second attempt is refused. */
  lemma RetryNeedsUninstall(doc: Json, a: Installation, rules: seq<Rule>)
    requires ValidateState(doc) && PlainIds(StartInstallation(a, rules))
    requires ProposeOne(StartInstallation(a, rules), doc).Some?
    ensures Propose(doc, [StartInstallation(a, rules), Uninstall(a.id), StartInstallation(a, rules)]).Some?
    ensures Propose(doc, [StartInstallation(a, rules), StartInstallation(a, rules)]) == None
  {
    assert Decode(doc).Some?;
    hide ValidateState;
    hide ProposeOne;
    hide Accepts;
    hide Update;
    hide HoldsPackage;
    hide PlainIds;
    assert PlainIds(Uninstall(a.id)) by {
      PlainUninstall(a, rules);
    }
    var t, u := StartInstallation(a, rules), Uninstall(a.id);
    ProposedUpdates(t, doc);
    AgainAccepted(Decode(doc).value, a, rules);
    var first := ProposeOne(t, doc).value;
    AcceptedProposed(u, first);
    ProposedUpdates(u, first);
    var second := ProposeOne(u, first).value;
    AcceptedProposed(t, second);
    Steps(doc, t, u, first, second);
    TakenAtOnce(Decode(doc).value, a, rules);
    PackageStaysTaken(first, [], a.id, a, rules);
    assert Propose(first, []) == Some(first);
  }

  lemma PlainUninstall(a: Installation, rules: seq<Rule>)
    requires PlainIds(StartInstallation(a, rules))
    ensures PlainIds(Uninstall(a.id))
  {
  }

  lemma AcceptedProposed(t: Transition, doc: Json)
    requires ValidateState(doc) && PlainIds(t) && !t.Migrate? && Accepts(t, Decode(doc).value)
    ensures ProposeOne(t, doc).Some? && ValidateState(ProposeOne(t, doc).value)
  {
    PatchRefinesUpdate(t, doc);
  }

  lemma TakenAtOnce(s: NodeState, a: Installation, rules: seq<Rule>)
    requires Accepts(StartInstallation(a, rules), s)
    ensures HoldsPackage(Update(StartInstallation(a, rules), s), a.id, a)
  {
  }

  lemma Steps(doc: Json, t: Transition, u: Transition, first: Json, second: Json)
    requires ProposeOne(t, doc) == Some(first) && ProposeOne(u, first) == Some(second)
    ensures Propose(doc, [t, u, t]) == ProposeOne(t, second)
    ensures Propose(doc, [t, t]) == ProposeOne(t, first)
  {
    hide ProposeOne;
    assert [t, u, t][1..] == [u, t] && [u, t][1..] == [t] && [t][1..] == [] && [t, t][1..] == [t];
    assert Propose(first, [t]) == ProposeOne(t, first) by {
      Once(first, t);
    }
    assert Propose(second, [t]) == ProposeOne(t, second) by {
      Once(second, t);
    }
    assert Propose(first, [u, t]) == Propose(second, [t]);
  }

  lemma Once(doc: Json, t: Transition)
    ensures Propose(doc, [t]) == ProposeOne(t, doc)
  {
    hide ProposeOne;
    assert [t][1..] == [];
    if ProposeOne(t, doc).Some? {
      assert Propose(ProposeOne(t, doc).value, []) == Some(ProposeOne(t, doc).value);
    }
  }
}

/** When rule matchers stay distinct, which makes the rule that serves a path independent of the order
    of the rule map. Only an installation, whose rules are not looked at, can make two the same. */
module Matchers {
  import opened Options
  import opened Json
  import opened State
  import opened Schema
  import opened Transitions
  import opened StepTheorems
  import opened Batch
  import opened Invariants
  import opened ReverseProxy

  ghost predicate DistinctMatchers(m: map<string, Rule>)
  {
    forall j, k :: j in m && k in m && m[j].matcher == m[k].matcher ==> j == k
  }

  /** The rule at `i` is the one that stays of those with its id: a later `add` replaces an earlier. */
  ghost predicate LastOf(rules: seq<Rule>, i: nat)
  {
    i < |rules| && forall j :: i < j < |rules| ==> rules[j].id != rules[i].id
  }

  ghost predicate Replaced(rules: seq<Rule>, k: string)
  {
    exists i :: 0 <= i < |rules| && rules[i].id == k
  }

  /** The rules of an installation that stay have matchers different from each other and from those of
      the present rules they do not replace. */
  ghost predicate NoClash(m: map<string, Rule>, rules: seq<Rule>)
  {
    && (forall i: nat, j: nat :: LastOf(rules, i) && LastOf(rules, j) && rules[i].matcher == rules[j].matcher ==> i == j)
    && (forall i: nat, k :: LastOf(rules, i) && k in m && !Replaced(rules, k) ==> m[k].matcher != rules[i].matcher)
  }

  /** What putting rules leaves at a key. */
  ghost predicate PutAt(m: map<string, Rule>, rules: seq<Rule>, r: map<string, Rule>, k: string)
  {
    if Replaced(rules, k) then k in r && exists i: nat :: LastOf(rules, i) && rules[i].id == k && r[k] == rules[i]
    else (k in r <==> k in m) && (k in m ==> r[k] == m[k])
  }

  lemma RestReplaces(rules: seq<Rule>, k: string)
    requires rules != []
    ensures Replaced(rules, k) <==> rules[0].id == k || Replaced(rules[1..], k)
  {
    if i :| 0 <= i < |rules| && rules[i].id == k {
      assert i > 0 ==> rules[1..][i - 1].id == k;
    }
    if i :| 0 <= i < |rules[1..]| && rules[1..][i].id == k {
      assert rules[i + 1].id == k;
    }
  }

  lemma RestLast(rules: seq<Rule>, i: nat)
    requires rules != [] && LastOf(rules[1..], i)
    ensures LastOf(rules, i + 1)
  {
    forall j | i + 1 < j < |rules|
      ensures rules[j].id != rules[i + 1].id
    {
      assert rules[1..][j - 1].id != rules[1..][i].id;
    }
  }

  lemma {:induction false} PutRulesAt(m: map<string, Rule>, rules: seq<Rule>, k: string)
    ensures PutAt(m, rules, PutRules(m, rules), k)
    decreases |rules|
  {
    if rules != [] {
      var m', rest := m[rules[0].id := rules[0]], rules[1..];
      PutRulesAt(m', rest, k);
      RestReplaces(rules, k);
      if Replaced(rest, k) {
        var i: nat :| LastOf(rest, i) && rest[i].id == k && PutRules(m', rest)[k] == rest[i];
        RestLast(rules, i);
        assert rules[i + 1] == rest[i];
      } else if rules[0].id == k {
        assert LastOf(rules, 0) by {
          forall j | 0 < j < |rules|
            ensures rules[j].id != k
          {
            assert rest[j - 1].id != k;
          }
        }
      }
    }
  }

  lemma LastStays(m: map<string, Rule>, rules: seq<Rule>, i: nat)
    requires LastOf(rules, i)
    ensures rules[i].id in PutRules(m, rules) && PutRules(m, rules)[rules[i].id] == rules[i]
  {
    var k := rules[i].id;
    PutRulesAt(m, rules, k);
    assert Replaced(rules, k);
    var j: nat :| LastOf(rules, j) && rules[j].id == k && PutRules(m, rules)[k] == rules[j];
    assert i == j;
  }

  /** Putting rules into a map with distinct matchers keeps them distinct exactly when none clashes. */
  lemma PutRulesExactly(m: map<string, Rule>, rules: seq<Rule>)
    requires DistinctMatchers(m)
    ensures DistinctMatchers(PutRules(m, rules)) <==> NoClash(m, rules)
  {
    var r := PutRules(m, rules);
    if NoClash(m, rules) {
      forall j, k | j in r && k in r && r[j].matcher == r[k].matcher
        ensures j == k
      {
        PutRulesAt(m, rules, j);
        PutRulesAt(m, rules, k);
      }
    }
    if DistinctMatchers(r) {
      forall i: nat, j: nat | LastOf(rules, i) && LastOf(rules, j) && rules[i].matcher == rules[j].matcher
        ensures i == j
      {
        LastStays(m, rules, i);
        LastStays(m, rules, j);
        assert rules[i].id == rules[j].id;
      }
      forall i: nat, k | LastOf(rules, i) && k in m && !Replaced(rules, k)
        ensures m[k].matcher != rules[i].matcher
      {
        LastStays(m, rules, i);
        PutRulesAt(m, rules, k);
        assert Replaced(rules, rules[i].id);
      }
    }
  }

  /** The rules a transition brings clash with nothing. */
  ghost predicate Clashless(t: Transition, m: map<string, Rule>)
  {
    match t
    case Initialize(init) => init.Some? ==> DistinctMatchers(Entries(init.value.rules))
    case StartInstallation(_, rules) => NoClash(m, rules)
    case _ => true
  }

  /** An accepted transition keeps matchers distinct exactly when the rules it brings do not clash; the
      rules of every transition but installation and initialization are checked. */
  lemma MatchersKeptExactly(t: Transition, s: NodeState)
    requires Version(s) > 0 && Accepts(t, s) && DistinctMatchers(Entries(s.rules))
    ensures DistinctMatchers(Entries(Update(t, s).rules)) <==> Clashless(t, Entries(s.rules))
  {
    match t
    case Migrate(target) => AcceptedCarries(s, target);
    case StartInstallation(_, rules) => PutRulesExactly(Entries(s.rules), rules);
    case _ =>
  }

  /** Matchers are distinct at every point of a run. */
  ghost predicate AlwaysDistinct(doc: Json, ts: seq<Transition>)
    requires ValidateState(doc)
    decreases |ts|
  {
    && DistinctMatchers(Entries(Decode(doc).value.rules))
    && (ts != [] && ProposeOne(ts[0], doc).Some? ==> AlwaysDistinct(ProposeOne(ts[0], doc).value, ts[1..]))
  }

  ghost predicate NeverClashes(doc: Json, ts: seq<Transition>)
    requires ValidateState(doc)
    decreases |ts|
  {
    ts != [] && ProposeOne(ts[0], doc).Some? ==>
      && Clashless(ts[0], Entries(Decode(doc).value.rules))
      && NeverClashes(ProposeOne(ts[0], doc).value, ts[1..])
  }

  /** From distinct matchers, they are distinct throughout a run exactly when no transition of it brings
      clashing rules. */
  lemma {:induction false} RunMatchersExactly(doc: Json, ts: seq<Transition>)
    requires ValidateState(doc) && DistinctMatchers(Entries(Decode(doc).value.rules)) && AllPlain(ts)
    ensures AlwaysDistinct(doc, ts) <==> NeverClashes(doc, ts)
    decreases |ts|
  {
    if ts != [] && ProposeOne(ts[0], doc).Some? {
      assert ts[0] in ts;
      ProposedUpdates(ts[0], doc);
      MatchersKeptExactly(ts[0], Decode(doc).value);
      if Clashless(ts[0], Entries(Decode(doc).value.rules)) {
        RunMatchersExactly(ProposeOne(ts[0], doc).value, ts[1..]);
      }
    }
  }

  /** With distinct matchers every iteration order of the rule map chooses the same rule. */
  lemma OrdersChooseAlike(m: map<string, Rule>, rules: seq<Option<Rule>>, path: string)
    requires DistinctMatchers(m)
    requires forall r :: Some(r) in rules ==> exists k :: k in m && m[k] == r
    ensures OrdersAgree(rules, path)
  {
    forall x, y | IsLongest(rules, path, x) && Some(y) in rules && y.matcher == x.matcher
      ensures y == x
    {
      var j, k :| j in m && m[j] == x && k in m && m[k] == y;
    }
    ChoiceIsUnique(rules, path);
  }

  // ---------------------------------------------------------------- an installation that clashes

  /** Wherever an installation is accepted, it is accepted as well with two rules of one matcher, and
      the matchers are then not distinct. */
  lemma ClashAccepted(s: NodeState, a: Installation, x: Rule, y: Rule)
    requires Valid(s) && Accepts(StartInstallation(a, []), s)
    requires x.ruleType in RULE_TYPES && y.ruleType in RULE_TYPES && x.id != y.id && x.matcher == y.matcher
    ensures Accepts(StartInstallation(a, [x, y]), s)
    ensures !DistinctMatchers(Entries(Update(StartInstallation(a, [x, y]), s).rules))
  {
    var m := Entries(s.rules);
    assert [x, y][1..] == [y] && [y][1..] == [];
    assert PutRules(m[x.id := x][y.id := y], []) == m[x.id := x][y.id := y];
    assert PutRules(m[x.id := x], [y]) == m[x.id := x][y.id := y];
    assert PutRules(m, [x, y]) == m[x.id := x][y.id := y];
    var r := Entries(Update(StartInstallation(a, [x, y]), s).rules);
    assert x.id in r && r[x.id] == x && y.id in r && r[y.id] == y;
  }

  const EXAMPLE := NodeState("node", "Node", "", "v0.0.8", "",
                             Some(map["u" := User("u", "ann", "")]), Some(map[]), Some(map[]), Some(map[]))
  const EXAMPLE_APP := Installation("a", "u", "App", "1", "installing", "docker", Some(map[]), "registry", "package", "tag")
  const FIRST := Rule("r", "redirect", "/x", "http://one", "a")
  const SECOND := Rule("s", "redirect", "/x", "http://two", "a")

  lemma ExampleAccepts()
    ensures Valid(EXAMPLE) && Accepts(StartInstallation(EXAMPLE_APP, []), EXAMPLE)
  {
    assert Entries(EXAMPLE.users) == map["u" := User("u", "ann", "")];
    assert Check(StartInstallation(EXAMPLE_APP, []), EXAMPLE) && Version(EXAMPLE) == 8;
  }

  lemma OrdersDiffer()
    ensures !OrdersAgree([Some(FIRST), Some(SECOND)], "/x")
  {
    var rules := [Some(FIRST), Some(SECOND)];
    assert rules[0] == Some(FIRST) && rules[1] == Some(SECOND);
    assert IsLongest(rules, "/x", FIRST);
    assert FIRST.id != SECOND.id;
    ChoiceIsUnique(rules, "/x");
  }

  /** An installation on a fresh node after which two orders of its rules serve "/x" by different rules. */
  lemma ClashingInstallation()
    ensures Valid(EXAMPLE) && Accepts(StartInstallation(EXAMPLE_APP, [FIRST, SECOND]), EXAMPLE)
    ensures !DistinctMatchers(Entries(Update(StartInstallation(EXAMPLE_APP, [FIRST, SECOND]), EXAMPLE).rules))
    ensures !OrdersAgree([Some(FIRST), Some(SECOND)], "/x")
  {
    hide Accepts;
    hide Valid;
    hide Update;
    hide OrdersAgree;
    ExampleAccepts();
    ClashAccepted(EXAMPLE, EXAMPLE_APP, FIRST, SECOND);
    OrdersDiffer();
  }
}

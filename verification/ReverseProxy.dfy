/** The proxy's rule set and the choice of the rule that serves a request. */
module ReverseProxy {
  import opened Options
  import opened Text
  import opened State

  /** matchRule: the matcher is the whole path, or a part of it that a '/' follows. */
  predicate Matches(path: string, matcher: string)
  {
    matcher <= path && (|path| == |matcher| || path[|matcher|] == '/')
  }

  /** Matching by segments: the segments of the matcher are the first segments of the path. */
  lemma MatchesExactly(path: string, matcher: string)
    ensures Matches(path, matcher) <==> Split(matcher, '/') <= Split(path, '/')
  {
    if Matches(path, matcher) && |path| > |matcher| {
      var rest := path[|matcher| + 1..];
      assert path == matcher + ['/'] + rest;
      SplitConcat(matcher, '/', rest);
    }
    if Split(matcher, '/') <= Split(path, '/') {
      var m, p := Split(matcher, '/'), Split(path, '/');
      var rest := p[|m|..];
      assert p == m + rest;
      JoinSplit(matcher, '/');
      JoinSplit(path, '/');
      if rest == [] {
        assert p == m;
      } else {
        JoinConcat(m, rest, '/');
      }
    }
  }

  /** rankMatch */
  function Rank(rule: Rule): nat
  {
    Count(rule.matcher, '/')
  }

  /** Of two matchers of one path the longer contains the other and has strictly more slashes, so
      counting slashes orders matches as their lengths do. */
  lemma SlashesOrderMatches(path: string, a: string, b: string)
    requires Matches(path, a) && Matches(path, b)
    ensures |a| < |b| <==> Count(a, '/') < Count(b, '/')
    ensures |a| <= |b| ==> a <= b
  {
    if |a| < |b| {
      LongerHasMore(path, a, b);
    } else if |b| < |a| {
      LongerHasMore(path, b, a);
    } else {
      assert a == b;
    }
  }

  lemma LongerHasMore(path: string, a: string, b: string)
    requires Matches(path, a) && Matches(path, b) && |a| < |b|
    ensures a <= b && Count(a, '/') < Count(b, '/')
  {
    assert b[|a|] == path[|a|] == '/';
    var rest := b[|a| + 1..];
    assert b == a + ("/" + rest);
    CountConcat(a, "/" + rest, '/');
    assert ("/" + rest)[1..] == rest;
  }

  /** A rule whose matcher is a longest one among the rules that match the path. */
  ghost predicate IsLongest(rules: seq<Option<Rule>>, path: string, r: Rule)
  {
    && Some(r) in rules && Matches(path, r.matcher)
    && forall x :: Some(x) in rules && Matches(path, x.matcher) ==> x.matcher <= r.matcher
  }

  predicate Applies(rules: seq<Option<Rule>>, path: string, i: nat)
    requires i < |rules|
  {
    rules[i].Some? && Matches(path, rules[i].value.matcher)
  }

  /** The place in an order of the first rule with the longest matching matcher. */
  ghost predicate FirstLongest(rules: seq<Option<Rule>>, path: string, i: nat)
  {
    && i < |rules| && Applies(rules, path, i)
    && (forall j :: 0 <= j < |rules| && Applies(rules, path, j) ==> rules[j].value.matcher <= rules[i].value.matcher)
    && (forall j :: 0 <= j < i && Applies(rules, path, j) ==> rules[j].value.matcher != rules[i].value.matcher)
  }

  /** The rule an iteration order of the rule map leads to. */
  ghost function Chosen(rules: seq<Option<Rule>>, path: string): Option<Rule>
  {
    if i: nat :| FirstLongest(rules, path, i) then rules[i] else None
  }

  lemma ChosenIs(rules: seq<Option<Rule>>, path: string, i: nat)
    requires FirstLongest(rules, path, i)
    ensures Chosen(rules, path) == rules[i] && IsLongest(rules, path, rules[i].value)
  {
    forall k: nat | FirstLongest(rules, path, k)
      ensures k == i
    {
      assert rules[k].value.matcher <= rules[i].value.matcher && rules[i].value.matcher <= rules[k].value.matcher;
    }
    forall x | Some(x) in rules && Matches(path, x.matcher)
      ensures x.matcher <= rules[i].value.matcher
    {
      var j :| 0 <= j < |rules| && rules[j] == Some(x);
      assert Applies(rules, path, j);
    }
  }

  /** The best of the first `n` rules: its rank is the highest so far, and no earlier rule has it. */
  ghost predicate BestSoFar(rules: seq<Option<Rule>>, path: string, n: nat, at: nat)
    requires n <= |rules|
  {
    && at < n && Applies(rules, path, at)
    && (forall j :: 0 <= j < n && Applies(rules, path, j) ==> Rank(rules[j].value) <= Rank(rules[at].value))
    && (forall j :: 0 <= j < at && Applies(rules, path, j) ==> Rank(rules[j].value) < Rank(rules[at].value))
  }

  lemma BestIsFirstLongest(rules: seq<Option<Rule>>, path: string, at: nat)
    requires BestSoFar(rules, path, |rules|, at)
    ensures FirstLongest(rules, path, at)
  {
    forall j | 0 <= j < |rules| && Applies(rules, path, j)
      ensures rules[j].value.matcher <= rules[at].value.matcher
      ensures j < at ==> rules[j].value.matcher != rules[at].value.matcher
    {
      SlashesOrderMatches(path, rules[j].value.matcher, rules[at].value.matcher);
      SlashesOrderMatches(path, rules[at].value.matcher, rules[j].value.matcher);
    }
  }

  /** The selection loop of ServeHTTP, for one iteration order of the rule map: of the rules with the
      longest matching matcher the first in the order. */
  method SelectRule(rules: seq<Option<Rule>>, path: string) returns (best: Option<Rule>)
    ensures best == Chosen(rules, path)
    ensures best.None? <==> forall r :: Some(r) in rules ==> !(Split(r.matcher, '/') <= Split(path, '/'))
    ensures best.Some? ==> best in rules && Split(best.value.matcher, '/') <= Split(path, '/')
    ensures best.Some? ==> forall r :: Some(r) in rules && Split(r.matcher, '/') <= Split(path, '/') ==>
      |Split(r.matcher, '/')| <= |Split(best.value.matcher, '/')|
    ensures best.None? <==> forall r :: Some(r) in rules ==> !Matches(path, r.matcher)
    ensures best.Some? ==> IsLongest(rules, path, best.value)
  {
    hide Split;
    best := None;
    var highestRank: int := -1;
    ghost var at := 0;
    for i := 0 to |rules|
      invariant best.None? ==> highestRank == -1 && forall j :: 0 <= j < i ==> !Applies(rules, path, j)
      invariant best.Some? ==> BestSoFar(rules, path, i, at) && best == rules[at] && highestRank == Rank(best.value)
    {
      if rules[i].Some? {
        var rule := rules[i].value;
        if Matches(path, rule.matcher) {
          var rank := Rank(rule);
          if rank > highestRank {
            best := Some(rule);
            highestRank := rank;
            at := i;
          }
        }
      }
    }
    if best.Some? {
      BestIsFirstLongest(rules, path, at);
      ChosenIs(rules, path, at);
    } else {
      forall r | Some(r) in rules
        ensures !Matches(path, r.matcher)
      {
        var j :| 0 <= j < |rules| && rules[j] == Some(r);
        assert !Applies(rules, path, j);
      }
    }
    BySegments(rules, path, best);
  }

  /** The same choice told by segments. */
  lemma BySegments(rules: seq<Option<Rule>>, path: string, best: Option<Rule>)
    requires best.None? <==> forall r :: Some(r) in rules ==> !Matches(path, r.matcher)
    requires best.Some? ==> IsLongest(rules, path, best.value)
    ensures best.None? <==> forall r :: Some(r) in rules ==> !(Split(r.matcher, '/') <= Split(path, '/'))
    ensures best.Some? ==> best in rules && Split(best.value.matcher, '/') <= Split(path, '/')
    ensures best.Some? ==> forall r :: Some(r) in rules && Split(r.matcher, '/') <= Split(path, '/') ==>
      |Split(r.matcher, '/')| <= |Split(best.value.matcher, '/')|
  {
    hide Matches;
    hide Split;
    forall r | Some(r) in rules
      ensures Matches(path, r.matcher) <==> Split(r.matcher, '/') <= Split(path, '/')
    {
      MatchesExactly(path, r.matcher);
    }
    if best.Some? {
      forall r | Some(r) in rules && Matches(path, r.matcher)
        ensures |Split(r.matcher, '/')| <= |Split(best.value.matcher, '/')|
      {
        MoreSegments(r.matcher, best.value.matcher);
      }
    }
  }

  lemma MoreSegments(a: string, b: string)
    requires a <= b
    ensures |Split(a, '/')| <= |Split(b, '/')|
  {
    assert b == a + b[|a|..];
    CountConcat(a, b[|a|..], '/');
    SplitCount(a, '/');
    SplitCount(b, '/');
  }

  lemma {:induction false} SomeBest(rules: seq<Option<Rule>>, path: string, n: nat)
    requires n <= |rules|
    ensures (exists at: nat :: BestSoFar(rules, path, n, at)) || forall j :: 0 <= j < n ==> !Applies(rules, path, j)
  {
    if n > 0 {
      var last := n - 1;
      SomeBest(rules, path, last);
      if at: nat :| BestSoFar(rules, path, last, at) {
        if Applies(rules, path, last) && Rank(rules[last].value) > Rank(rules[at].value) {
          assert BestSoFar(rules, path, n, last);
        } else {
          assert BestSoFar(rules, path, n, at);
        }
      } else if Applies(rules, path, last) {
        assert BestSoFar(rules, path, n, last);
      }
    }
  }

  /** Whatever the order, the choice is a rule with the longest matching matcher, or none matches. */
  lemma ChosenIsLongest(rules: seq<Option<Rule>>, path: string)
    ensures Chosen(rules, path).Some? ==> IsLongest(rules, path, Chosen(rules, path).value)
    ensures Chosen(rules, path).None? ==> forall r :: Some(r) in rules ==> !Matches(path, r.matcher)
  {
    SomeBest(rules, path, |rules|);
    if at: nat :| BestSoFar(rules, path, |rules|, at) {
      BestIsFirstLongest(rules, path, at);
      ChosenIs(rules, path, at);
    } else {
      forall r | Some(r) in rules
        ensures !Matches(path, r.matcher)
      {
        var j :| 0 <= j < |rules| && rules[j] == Some(r);
        assert !Applies(rules, path, j);
      }
    }
  }

  /** An order of the rules that starts with a longest one chooses it. */
  lemma FrontIsChosen(rules: seq<Option<Rule>>, path: string, x: Rule) returns (order: seq<Option<Rule>>)
    requires IsLongest(rules, path, x)
    ensures multiset(order) == multiset(rules) && Chosen(order, path) == Some(x)
  {
    var i :| 0 <= i < |rules| && rules[i] == Some(x);
    order := [rules[i]] + (rules[..i] + rules[i + 1..]);
    assert rules == rules[..i] + [rules[i]] + rules[i + 1..];
    forall j | 0 <= j < |order| && Applies(order, path, j)
      ensures order[j].value.matcher <= x.matcher
    {
      assert order[j] in multiset(order);
    }
    ChosenIs(order, path, 0);
  }

  /** No two different rules share the longest matching matcher. */
  ghost predicate OneLongest(rules: seq<Option<Rule>>, path: string)
  {
    forall x, y :: IsLongest(rules, path, x) && Some(y) in rules && y.matcher == x.matcher ==> y == x
  }

  ghost predicate OrdersAgree(rules: seq<Option<Rule>>, path: string)
  {
    forall a, b :: multiset(a) == multiset(rules) && multiset(b) == multiset(rules) ==> Chosen(a, path) == Chosen(b, path)
  }

  lemma SameLongest(rules: seq<Option<Rule>>, order: seq<Option<Rule>>, path: string)
    requires multiset(order) == multiset(rules)
    ensures forall r :: r in order <==> r in rules
    ensures forall x :: IsLongest(order, path, x) <==> IsLongest(rules, path, x)
  {
    forall r
      ensures r in order <==> r in rules
    {
      assert r in order <==> r in multiset(order);
    }
  }

  /** All iteration orders choose the same rule exactly when no two different rules share the longest
      matching matcher. */
  lemma ChoiceIsUnique(rules: seq<Option<Rule>>, path: string)
    ensures OrdersAgree(rules, path) <==> OneLongest(rules, path)
  {
    if OneLongest(rules, path) {
      forall a, b | multiset(a) == multiset(rules) && multiset(b) == multiset(rules)
        ensures Chosen(a, path) == Chosen(b, path)
      {
        OneChoice(rules, a, b, path);
      }
    }
    if OrdersAgree(rules, path) {
      forall x, y | IsLongest(rules, path, x) && Some(y) in rules && y.matcher == x.matcher
        ensures y == x
      {
        var a := FrontIsChosen(rules, path, x);
        var b := FrontIsChosen(rules, path, y);
      }
    }
  }

  lemma OneChoice(rules: seq<Option<Rule>>, a: seq<Option<Rule>>, b: seq<Option<Rule>>, path: string)
    requires OneLongest(rules, path) && multiset(a) == multiset(rules) && multiset(b) == multiset(rules)
    ensures Chosen(a, path) == Chosen(b, path)
  {
    SameLongest(rules, a, path);
    SameLongest(rules, b, path);
    ChosenIsLongest(a, path);
    ChosenIsLongest(b, path);
    hide Chosen;
    if Chosen(a, path).Some? && Chosen(b, path).Some? {
      var x, y := Chosen(a, path).value, Chosen(b, path).value;
      assert x.matcher <= y.matcher && y.matcher <= x.matcher;
    }
  }

  const SUPPORTED := {"redirect", "file", "embedded_frontend"}

  /** Putting a rule into a rule set; none when its id is taken or its type is not supported. */
  function WithRule(rules: map<string, Rule>, rule: Rule): Option<map<string, Rule>>
  {
    if rule.id in rules || rule.ruleType !in SUPPORTED then None else Some(rules[rule.id := rule])
  }

  class RuleSet {
    var rules: map<string, Rule>

    ghost predicate Valid()
      reads this
    {
      forall k :: k in rules ==> rules[k].id == k && rules[k].ruleType in SUPPORTED
    }

    constructor ()
      ensures Valid() && rules == map[]
    {
      rules := map[];
    }

    method AddRule(rule: Rule) returns (ok: bool)
      requires Valid()
      modifies this
      ensures Valid()
      ensures ok <==> WithRule(old(rules), rule).Some?
      ensures rules == if ok then WithRule(old(rules), rule).value else old(rules)
      ensures ok <==> rule.id !in old(rules) && rule.ruleType in {"redirect", "file", "embedded_frontend"}
      ensures ok ==> rules == old(rules)[rule.id := rule]
    {
      if rule.id in rules {
        return false;
      }
      if rule.ruleType != "redirect" && rule.ruleType != "file" && rule.ruleType != "embedded_frontend" {
        return false;
      }
      rules := rules[rule.id := rule];
      return true;
    }

    method Remove(name: string) returns (ok: bool)
      requires Valid()
      modifies this
      ensures Valid()
      ensures ok <==> name in old(rules)
      ensures rules == old(rules) - {name}
    {
      if name !in rules {
        assert rules - {name} == rules;
        return false;
      }
      rules := rules - {name};
      return true;
    }
  }
}

/** Putting the proxy rules of one app into the rule set after its process was started, in some
    iteration order of the rule map, up to the first rule the set refuses. */
module AppRules {
  import opened State
  import opened ReverseProxy

  /** `keys` is an iteration order of a map with the given keys. */
  ghost predicate IsOrder(keys: seq<string>, of: set<string>)
  {
    && (forall k :: k in keys <==> k in of)
    && (forall i, j :: 0 <= i < j < |keys| ==> keys[i] != keys[j])
  }

  /** The rule set after the loop of startProcess. */
  function RulesAdded(present: map<string, Rule>, rules: map<string, Rule>, keys: seq<string>, appID: string): map<string, Rule>
    requires forall k :: k in keys ==> k in rules
    decreases |keys|
  {
    if keys == [] then present
    else if rules[keys[0]].appID != appID then RulesAdded(present, rules, keys[1..], appID)
    else
      match WithRule(present, rules[keys[0]])
      case None => present
      case Some(next) => RulesAdded(next, rules, keys[1..], appID)
  }

  method AddAppRules(proxy: RuleSet, rules: map<string, Rule>, keys: seq<string>, appID: string)
    requires proxy.Valid() && IsOrder(keys, rules.Keys)
    modifies proxy
    ensures proxy.Valid()
    ensures proxy.rules == RulesAdded(old(proxy.rules), rules, keys, appID)
  {
    for i := 0 to |keys|
      invariant proxy.Valid()
      invariant RulesAdded(proxy.rules, rules, keys[i..], appID) == RulesAdded(old(proxy.rules), rules, keys, appID)
    {
      var rule := rules[keys[i]];
      assert keys[i..][0] == keys[i] && keys[i..][1..] == keys[i + 1..];
      if rule.appID == appID {
        var added := proxy.AddRule(rule);
        if !added {
          return;
        }
      }
    }
  }

  /** Only rules of the app are added, and nothing that was there changes. */
  ghost predicate OnlyAppRulesAdded(before: map<string, Rule>, after: map<string, Rule>, rules: map<string, Rule>, appID: string)
  {
    && (forall k :: k in before ==> k in after && after[k] == before[k])
    && (forall k :: k in after && k !in before ==> after[k].ruleType in SUPPORTED && exists j :: j in rules && rules[j].appID == appID && rules[j] == after[k])
  }

  lemma {:induction false} OnlyTheApps(present: map<string, Rule>, rules: map<string, Rule>, keys: seq<string>, appID: string)
    requires forall k :: k in keys ==> k in rules
    ensures OnlyAppRulesAdded(present, RulesAdded(present, rules, keys, appID), rules, appID)
    decreases |keys|
  {
    if keys != [] {
      if rules[keys[0]].appID != appID {
        OnlyTheApps(present, rules, keys[1..], appID);
      } else if WithRule(present, rules[keys[0]]).Some? {
        OnlyTheApps(WithRule(present, rules[keys[0]]).value, rules, keys[1..], appID);
      }
    }
  }

  /** Nothing is added from the first refused rule of the app on. */
  lemma {:induction false} AddingStops(present: map<string, Rule>, rules: map<string, Rule>, keys: seq<string>, appID: string, i: nat)
    requires (forall k :: k in keys ==> k in rules) && i < |keys| && rules[keys[i]].appID == appID
    requires WithRule(RulesAdded(present, rules, keys[..i], appID), rules[keys[i]]).None?
    ensures RulesAdded(present, rules, keys, appID) == RulesAdded(present, rules, keys[..i], appID)
    decreases |keys|
  {
    if i > 0 {
      assert keys[..i][0] == keys[0] && keys[..i][1..] == keys[1..][..i - 1];
      if rules[keys[0]].appID != appID {
        AddingStops(present, rules, keys[1..], appID, i - 1);
      } else if WithRule(present, rules[keys[0]]).Some? {
        AddingStops(WithRule(present, rules[keys[0]]).value, rules, keys[1..], appID, i - 1);
      }
    }
  }

  /** The app's rules have supported types, ids of their own, and none that is taken. */
  ghost predicate NoneRefused(present: map<string, Rule>, rules: map<string, Rule>, keys: seq<string>, appID: string)
    requires forall k :: k in keys ==> k in rules
  {
    && (forall k :: k in keys && rules[k].appID == appID ==> rules[k].id !in present && rules[k].ruleType in SUPPORTED)
    && (forall i, j :: 0 <= i < j < |keys| && rules[keys[i]].appID == appID && rules[keys[j]].appID == appID ==>
          rules[keys[i]].id != rules[keys[j]].id)
  }

  ghost predicate AllPresent(after: map<string, Rule>, rules: map<string, Rule>, keys: seq<string>, appID: string)
    requires forall k :: k in keys ==> k in rules
  {
    forall k :: k in keys && rules[k].appID == appID ==> rules[k].id in after && after[rules[k].id] == rules[k]
  }

  lemma {:induction false} AllAdded(present: map<string, Rule>, rules: map<string, Rule>, keys: seq<string>, appID: string)
    requires (forall k :: k in keys ==> k in rules) && NoneRefused(present, rules, keys, appID)
    ensures AllPresent(RulesAdded(present, rules, keys, appID), rules, keys, appID)
    decreases |keys|
  {
    if keys != [] {
      var k, rest := keys[0], keys[1..];
      assert forall x :: x in keys <==> x == k || x in rest;
      if rules[k].appID != appID {
        AllAdded(present, rules, rest, appID);
      } else {
        var next := WithRule(present, rules[k]).value;
        forall x | x in rest && rules[x].appID == appID
          ensures rules[x].id !in next
        {
          var j :| 0 <= j < |rest| && rest[j] == x;
          assert keys[j + 1] == x;
        }
        AllAdded(next, rules, rest, appID);
        OnlyTheApps(next, rules, rest, appID);
      }
    }
  }

  /** When no id of the app's rules is taken, all of them are added exactly when none is refused. */
  lemma AllAddedExactly(present: map<string, Rule>, rules: map<string, Rule>, keys: seq<string>, appID: string)
    requires forall k :: k in keys ==> k in rules
    requires forall k :: k in keys && rules[k].appID == appID ==> rules[k].id !in present
    requires forall i, j :: 0 <= i < j < |keys| ==> rules[keys[i]] != rules[keys[j]]
    ensures AllPresent(RulesAdded(present, rules, keys, appID), rules, keys, appID) <==> NoneRefused(present, rules, keys, appID)
  {
    OnlyTheApps(present, rules, keys, appID);
    if NoneRefused(present, rules, keys, appID) {
      AllAdded(present, rules, keys, appID);
    } else if AllPresent(RulesAdded(present, rules, keys, appID), rules, keys, appID) {
      forall i, j | 0 <= i < j < |keys| && rules[keys[i]].appID == appID && rules[keys[j]].appID == appID
        ensures rules[keys[i]].id != rules[keys[j]].id
      {
        assert keys[i] in keys && keys[j] in keys;
      }
      assert false;
    }
  }

  /** No stored rule of the app is refused: supported types, ids of their own, and none taken. */
  ghost predicate AppRulesFree(before: map<string, Rule>, rules: map<string, Rule>, appID: string)
  {
    && (forall k :: k in rules && rules[k].appID == appID ==> rules[k].id !in before && rules[k].ruleType in SUPPORTED)
    && (forall j, k :: j in rules && k in rules && rules[j].appID == appID && rules[k].appID == appID && rules[j].id == rules[k].id ==> j == k)
  }

  /** In any iteration order: only rules of the app are added, and all of them when none is refused. */
  lemma AddedInAnyOrder(before: map<string, Rule>, rules: map<string, Rule>, keys: seq<string>, appID: string)
    requires IsOrder(keys, rules.Keys)
    ensures var after := RulesAdded(before, rules, keys, appID);
      && OnlyAppRulesAdded(before, after, rules, appID)
      && (AppRulesFree(before, rules, appID) ==>
            forall k :: k in rules && rules[k].appID == appID ==> rules[k].id in after && after[rules[k].id] == rules[k])
  {
    hide RulesAdded;
    OnlyTheApps(before, rules, keys, appID);
    if AppRulesFree(before, rules, appID) {
      assert NoneRefused(before, rules, keys, appID);
      AllAdded(before, rules, keys, appID);
    }
  }
}

/** What the migrations of this program keep: going up and back down. */
module MigrationRoundTrip {
  import opened Options
  import opened State
  import opened Semver
  import opened Migrations

  const NAMES := ["v0.0.0", "v0.0.1", "v0.0.2", "v0.0.3", "v0.0.4", "v0.0.5", "v0.0.6", "v0.0.7", "v0.0.8", "v0.0.9"]

  lemma NameParses(i: nat)
    requires i < 10
    ensures Parse(NAMES[i]) == Some(Triple(0, 0, i))
  {
    var d := ('0' as nat + i) as char;
    assert NAMES[i] == ['v', '0', '.', '0', '.', d];
    ParseDigits('0', '0', d);
  }

  lemma NodeLink(i: nat)
    requires i < 9
    ensures NODE_MIGRATIONS[i].downVersion == NAMES[i] && NODE_MIGRATIONS[i].upVersion == NAMES[i + 1]
    ensures !NODE_MIGRATIONS[i].step.Reset? || i == 0
  {
  }

  lemma NodeGrows(i: nat)
    requires i < 9
    ensures Grows(NODE_MIGRATIONS, i)
  {
    NodeLink(i);
    NameParses(i);
    NameParses(i + 1);
  }

  lemma NodeChain()
    ensures IsChain(NODE_MIGRATIONS)
    ensures Versions(NODE_MIGRATIONS) == NAMES
    ensures forall i :: 0 <= i < 10 ==> NAMES[i] in NAMES && Find(NAMES, NAMES[i]) == i
  {
    forall i | 0 <= i < 9
      ensures Grows(NODE_MIGRATIONS, i) && (i > 0 ==> Follows(NODE_MIGRATIONS, i) && !NODE_MIGRATIONS[i].step.Reset?)
    {
      NodeGrows(i);
      NodeLink(i);
      if i > 0 {
        NodeLink(i - 1);
      }
    }
    NodePlaces();
    forall i | 0 <= i < 10
      ensures Find(NAMES, NAMES[i]) == i
    {
      ComparePlaces(NODE_MIGRATIONS, i, i);
    }
  }

  lemma NodePlaces()
    ensures Versions(NODE_MIGRATIONS) == NAMES
  {
    forall i | 0 <= i < 10
      ensures Place(NODE_MIGRATIONS, i) == NAMES[i]
    {
      NodeLink(if i == 0 then 0 else i - 1);
    }
  }

  /** Migrating the node data between two places of the chain. */
  function NodeMigrated(s: NodeState, a: nat, b: nat): NodeState
    requires a < 10 && 0 < b < 10
  {
    NodeChain();
    MigratedBetween(NODE_MIGRATIONS, s, a, b).(schemaVersion := NAMES[b])
  }

  lemma NodeMigratedIs(s: NodeState, a: nat, b: nat)
    requires a < 10 && 0 < b < 10 && a != b
    ensures IsChain(NODE_MIGRATIONS)
    ensures Migrated(NODE_MIGRATIONS, s, NAMES[a], NAMES[b]) == Some(NodeMigrated(s, a, b))
  {
    NodeChain();
    PlacesDistinct(NODE_MIGRATIONS, a, b);
    PlacesDistinct(NODE_MIGRATIONS, b, 0);
  }

  /** Every field introduced after version `c` and up to version `t` holds the value its migration
      gives it on the way down. */
  ghost predicate Settled(c: nat, t: nat, s: NodeState)
  {
    && (c == 1 < t ==> s.testField == "")
    && (c == 2 < t ==> s.testField == "test")
    && (c < 4 <= t ==> s.rules == None && forall k :: k in Entries(s.apps) ==> Entries(s.apps)[k].driverConfig == None)
    && (c < 5 <= t ==> forall k :: k in Entries(s.users) ==> Entries(s.users)[k].did == "")
  }

  lemma StepUp(c: nat, t: nat, s: NodeState)
    requires 1 <= c < t <= 9 && Settled(c, t, s)
    ensures var step := NODE_MIGRATIONS[c].step;
      && !step.Reset?
      && Settled(c + 1, t, Up(step, s))
      && Down(step, Up(step, s)) == s
  {
    var step := NODE_MIGRATIONS[c].step;
    var u := Up(step, s);
    var d := Down(step, u);
    if c == 3 && s.apps.Some? {
      assert Entries(s.apps) == s.apps.value;
      assert d.apps.value == s.apps.value;
    } else if c == 4 && s.users.Some? {
      assert Entries(s.users) == s.users.value;
      assert d.users.value == s.users.value;
    }
  }

  lemma StepDown(c: nat, t: nat, u: NodeState)
    requires 1 <= c < t <= 9 && Settled(c + 1, t, u)
    ensures var step := NODE_MIGRATIONS[c].step;
      !step.Reset? && Settled(c, t, Down(step, u))
  {
  }

  lemma {:induction false} UpThenDown(c: nat, m: nat, t: nat, s: NodeState)
    requires 1 <= c <= m <= t <= 9 && Settled(c, t, s)
    ensures var ms := NODE_MIGRATIONS[c..m];
      && AllDown(Reversed(ms))
      && Settled(m, t, RunUps(ms, s))
      && RunDowns(Reversed(ms), RunUps(ms, s)) == s
    decreases m - c
  {
    if c < m {
      var ms := NODE_MIGRATIONS[c..m];
      var rest := NODE_MIGRATIONS[c + 1..m];
      var step := ms[0].step;
      StepUp(c, t, s);
      assert ms[1..] == rest;
      UpThenDown(c + 1, m, t, Up(step, s));
      assert Reversed(ms) == Reversed(rest) + [ms[0]];
      RunDownsConcat(Reversed(rest), [ms[0]], RunUps(ms, s));
      assert RunDowns([ms[0]], Up(step, s)) == Down(step, Up(step, s)) by {
        assert [ms[0]][1..] == [];
      }
    }
  }

  lemma {:induction false} DownSettles(c: nat, m: nat, t: nat, u: NodeState)
    requires 1 <= c <= m <= t <= 9 && Settled(m, t, u)
    ensures var ms := Reversed(NODE_MIGRATIONS[c..m]);
      AllDown(ms) && Settled(c, t, RunDowns(ms, u))
    decreases m - c
  {
    if c < m {
      var ms := NODE_MIGRATIONS[c..m];
      var rest := NODE_MIGRATIONS[c + 1..m];
      assert ms[1..] == rest;
      DownSettles(c + 1, m, t, u);
      StepDown(c, t, RunDowns(Reversed(rest), u));
      assert Reversed(ms) == Reversed(rest) + [ms[0]];
      RunDownsConcat(Reversed(rest), [ms[0]], u);
      assert RunDowns([ms[0]], RunDowns(Reversed(rest), u)) == Down(ms[0].step, RunDowns(Reversed(rest), u)) by {
        assert [ms[0]][1..] == [];
      }
    }
  }

  lemma MigratedIgnoresVersion(s: NodeState, a: nat, b: nat, x: string)
    requires a < 10 && 0 < b < 10
    ensures NodeMigrated(s.(schemaVersion := x), a, b) == NodeMigrated(s, a, b)
  {
    NodeChain();
    if b < a {
      FirstNeverDown(NODE_MIGRATIONS, a, b);
      DownsIgnoreVersion(Between(NODE_MIGRATIONS, a, b), s, x, NAMES[b]);
    } else {
      UpsIgnoreVersion(Between(NODE_MIGRATIONS, a, b), s, x, NAMES[b]);
    }
  }

  lemma SettledIgnoresVersion(c: nat, t: nat, s: NodeState, x: string)
    ensures Settled(c, t, s.(schemaVersion := x)) <==> Settled(c, t, s)
  {
  }

  lemma SettledAtSelf(t: nat, s: NodeState)
    ensures Settled(t, t, s)
  {
  }

  lemma UpAndBack(s: NodeState, c: nat, t: nat)
    requires 1 <= c < t <= 9
    ensures var ms := NODE_MIGRATIONS[c..t];
      && AllDown(Reversed(ms))
      && NodeMigrated(NodeMigrated(s, c, t), t, c) == RunDowns(Reversed(ms), RunUps(ms, s)).(schemaVersion := NAMES[c])
  {
    hide RunUps;
    hide RunDowns;
    hide Reversed;
    var up := RunUps(NODE_MIGRATIONS[c..t], s);
    NodeChain();
    FirstNeverDown(NODE_MIGRATIONS, t, c);
    MigratedIgnoresVersion(up, t, c, NAMES[t]);
  }

  /** Migrating up and back is the identity exactly on the states settled between the versions. */
  lemma RoundTripExactly(s: NodeState, c: nat, t: nat)
    requires 1 <= c < t <= 9 && s.schemaVersion == NAMES[c]
    ensures NodeMigrated(NodeMigrated(s, c, t), t, c) == s <==> Settled(c, t, s)
  {
    hide RunUps;
    hide RunDowns;
    hide Reversed;
    hide NodeMigrated;
    hide Settled;
    var ms := NODE_MIGRATIONS[c..t];
    UpAndBack(s, c, t);
    SettledAtSelf(t, RunUps(ms, s));
    DownSettles(c, t, t, RunUps(ms, s));
    SettledIgnoresVersion(c, t, RunDowns(Reversed(ms), RunUps(ms, s)), NAMES[c]);
    if Settled(c, t, s) {
      UpThenDown(c, t, t, s);
    }
  }

  /** A state that could have been written by a program of version `c`. */
  ghost predicate Normal(c: nat, s: NodeState)
    requires c < 10
  {
    s.schemaVersion == NAMES[c] && Settled(c, 9, s)
  }

  /** Both directions keep states normal; a normal state comes back from a newer version unchanged,
      and going down, up and down again is the same as going down once. */
  lemma NormalStates(s: NodeState, u: NodeState, c: nat, t: nat)
    requires 1 <= c < t <= 9 && Normal(c, s) && Normal(t, u)
    ensures Normal(t, NodeMigrated(s, c, t)) && NodeMigrated(NodeMigrated(s, c, t), t, c) == s
    ensures Normal(c, NodeMigrated(u, t, c))
    ensures NodeMigrated(NodeMigrated(NodeMigrated(u, t, c), c, t), t, c) == NodeMigrated(u, t, c)
  {
    NodeChain();
    UpThenDown(c, t, 9, s);
    DownSettles(c, t, 9, u);
    RoundTripExactly(s, c, t);
    RoundTripExactly(NodeMigrated(u, t, c), c, t);
  }

  // ---------------------------------------------------------------- what is carried along

  function CarriedUser(a: nat, b: nat, u: User): User
  {
    if b < 5 <= a then u.(did := "") else u
  }

  function CarriedApp(a: nat, b: nat, x: Installation): Installation
  {
    x.(driverConfig := if a < 4 <= b then Some(map[]) else if b < 4 <= a then None else x.driverConfig)
  }

  /** The test field: "test" at v0.0.2, and emptied by arriving at v0.0.1 or by leaving v0.0.2 upwards. */
  function CarriedTestField(a: nat, b: nat, text: string): string
  {
    if a == b then text
    else if b == 2 then "test"
    else if b == 1 || a < 3 then ""
    else text
  }

  /** `r` holds what a migration from version `a` to version `b` makes of `s`: the same entries under
      the same keys, apart from the fields that exist only on one side. */
  ghost predicate Carries(a: nat, b: nat, s: NodeState, r: NodeState)
  {
    && (r.nodeID, r.name, r.certificate) == (s.nodeID, s.name, s.certificate)
    && r.testField == CarriedTestField(a, b, s.testField)
    && r.processes == s.processes
    && (r.users.Some? <==> s.users.Some?)
    && Entries(r.users).Keys == Entries(s.users).Keys
    && (forall k :: k in Entries(r.users) ==> Entries(r.users)[k] == CarriedUser(a, b, Entries(s.users)[k]))
    && (r.apps.Some? <==> s.apps.Some?)
    && Entries(r.apps).Keys == Entries(s.apps).Keys
    && (forall k :: k in Entries(r.apps) ==> Entries(r.apps)[k] == CarriedApp(a, b, Entries(s.apps)[k]))
    && r.rules == if a < 4 <= b then Some(map[]) else if b < 4 <= a then None else s.rules
  }

  lemma UpCarries(c: nat, s: NodeState)
    requires 1 <= c < 9
    ensures Carries(c, c + 1, s, Up(NODE_MIGRATIONS[c].step, s))
  {
  }

  lemma DownCarries(c: nat, s: NodeState)
    requires 1 <= c < 9
    ensures !NODE_MIGRATIONS[c].step.Reset?
    ensures Carries(c + 1, c, s, Down(NODE_MIGRATIONS[c].step, s))
  {
  }

  lemma CarriesCompose(a: nat, m: nat, b: nat, s: NodeState, x: NodeState, r: NodeState)
    requires 1 <= a <= m <= b || 1 <= b <= m <= a
    requires Carries(a, m, s, x) && Carries(m, b, x, r)
    ensures Carries(a, b, s, r)
  {
  }

  lemma {:induction false} UpsCarry(a: nat, b: nat, s: NodeState)
    requires 1 <= a <= b <= 9
    ensures Carries(a, b, s, RunUps(NODE_MIGRATIONS[a..b], s))
    decreases b - a
  {
    if a < b {
      var ms := NODE_MIGRATIONS[a..b];
      var x := Up(ms[0].step, s);
      assert ms[1..] == NODE_MIGRATIONS[a + 1..b];
      UpCarries(a, s);
      UpsCarry(a + 1, b, x);
      CarriesCompose(a, a + 1, b, s, x, RunUps(ms, s));
    }
  }

  lemma {:induction false} DownsCarry(a: nat, b: nat, s: NodeState)
    requires 1 <= b <= a <= 9
    ensures var ms := Reversed(NODE_MIGRATIONS[b..a]);
      AllDown(ms) && Carries(a, b, s, RunDowns(ms, s))
    decreases a - b
  {
    if b < a {
      var rest := NODE_MIGRATIONS[b + 1..a];
      assert NODE_MIGRATIONS[b..a][1..] == rest;
      var last := NODE_MIGRATIONS[b];
      assert Reversed(NODE_MIGRATIONS[b..a]) == Reversed(rest) + [last];
      DownsCarry(a, b + 1, s);
      var x := RunDowns(Reversed(rest), s);
      DownCarries(b, x);
      RunDownsConcat(Reversed(rest), [last], s);
      assert RunDowns([last], x) == Down(last.step, x) by {
        assert [last][1..] == [];
      }
      CarriesCompose(a, b + 1, b, s, x, Down(last.step, x));
    }
  }

  lemma MigrationCarries(s: NodeState, a: nat, b: nat)
    requires 1 <= a <= 9 && 1 <= b <= 9
    ensures Carries(a, b, s, NodeMigrated(s, a, b)) && NodeMigrated(s, a, b).schemaVersion == NAMES[b]
  {
    NodeChain();
    if b < a {
      DownsCarry(a, b, s);
    } else {
      UpsCarry(a, b, s);
    }
  }
}

/** Data migrations: choosing the migrations between two versions, running them up or down, and
    the patch that records the result. */
module Migrations {
  import opened Options
  import opened Json
  import opened State
  import opened Semver

  /** What a migration does to the data in each direction. */
  datatype Step =
    | Reset
    | TestField(whenUp: string, whenDown: string)
    | DriverConfigAndRules
    | UserDid
    | Unchanged

  datatype DataMigration = DataMigration(downVersion: string, upVersion: string, step: Step)

  const NODE_MIGRATIONS: seq<DataMigration> := [
    DataMigration("v0.0.0", "v0.0.1", Reset),
    DataMigration("v0.0.1", "v0.0.2", TestField("test", "")),
    DataMigration("v0.0.2", "v0.0.3", TestField("", "test")),
    DataMigration("v0.0.3", "v0.0.4", DriverConfigAndRules),
    DataMigration("v0.0.4", "v0.0.5", UserDid),
    DataMigration("v0.0.5", "v0.0.6", Unchanged),
    DataMigration("v0.0.6", "v0.0.7", Unchanged),
    DataMigration("v0.0.7", "v0.0.8", Unchanged),
    DataMigration("v0.0.8", "v0.0.9", Unchanged)
  ]

  function WithDriverConfig(s: NodeState, c: Option<map<string, Json>>): NodeState
  {
    if s.apps.None? then s
    else s.(apps := Some(map k | k in s.apps.value :: s.apps.value[k].(driverConfig := c)))
  }

  function WithoutDids(s: NodeState): NodeState
  {
    if s.users.None? then s
    else s.(users := Some(map k | k in s.users.value :: s.users.value[k].(did := "")))
  }

  function Up(step: Step, s: NodeState): NodeState
  {
    match step
    case Reset => NodeState("", "", "", "v0.0.1", "", Some(map[]), Some(map[]), Some(map[]), None)
    case TestField(up, _) => s.(testField := up)
    case DriverConfigAndRules => WithDriverConfig(s, Some(map[])).(rules := Some(map[]))
    case UserDid => s
    case Unchanged => s
  }

  /** The first migration has no way down; `FirstNeverDown` shows that none is ever asked for. */
  function Down(step: Step, s: NodeState): NodeState
    requires !step.Reset?
  {
    match step
    case TestField(_, down) => s.(testField := down)
    case DriverConfigAndRules => WithDriverConfig(s, None).(rules := None)
    case UserDid => WithoutDids(s)
    case Unchanged => s
  }

  // ---------------------------------------------------------------- the needed range

  /** A migration list from oldest to newest: each starts at the version the previous one ends at,
      versions grow strictly, and only the first may have no way down. */
  ghost predicate IsChain(chain: seq<DataMigration>)
  {
    && (forall i :: 0 <= i < |chain| ==> Grows(chain, i))
    && (forall i :: 0 < i < |chain| ==> Follows(chain, i))
    && (forall i :: 0 < i < |chain| ==> !chain[i].step.Reset?)
  }

  ghost predicate Grows(chain: seq<DataMigration>, i: nat)
    requires i < |chain|
  {
    Compare(chain[i].downVersion, chain[i].upVersion) < 0
  }

  ghost predicate Follows(chain: seq<DataMigration>, i: nat)
    requires 0 < i < |chain|
  {
    chain[i - 1].upVersion == chain[i].downVersion
  }

  function Place(chain: seq<DataMigration>, i: nat): string
    requires chain != [] && i <= |chain|
  {
    if i == 0 then chain[0].downVersion else chain[i - 1].upVersion
  }

  /** The versions a chain visits, bottom first. */
  function Versions(chain: seq<DataMigration>): (vs: seq<string>)
    ensures if chain == [] then vs == [] else |vs| == |chain| + 1
    ensures forall i :: 0 <= i < |vs| ==> vs[i] == Place(chain, i)
  {
    if chain == [] then []
    else seq(|chain| + 1, i requires 0 <= i <= |chain| => Place(chain, i))
  }

  function Find(vs: seq<string>, v: string): (i: nat)
    requires v in vs
    ensures i < |vs| && vs[i] == v
  {
    if vs[0] == v then 0 else 1 + Find(vs[1..], v)
  }

  function Reversed<T>(s: seq<T>): (r: seq<T>)
    ensures |r| == |s|
    ensures forall i :: 0 <= i < |s| ==> r[i] == s[|s| - 1 - i]
  {
    if s == [] then [] else Reversed(s[1..]) + [s[0]]
  }

  /** The migrations between places `a` and `b` in running order. */
  function Between(chain: seq<DataMigration>, a: nat, b: nat): seq<DataMigration>
    requires a <= |chain| && b <= |chain|
  {
    if a <= b then chain[a..b] else Reversed(chain[b..a])
  }

  /** Both versions are on the chain, at different places, and the target is not its bottom. */
  predicate Reachable(chain: seq<DataMigration>, current: string, target: string)
  {
    var vs := Versions(chain);
    current in vs && target in vs && current != target && target != vs[0]
  }

  function Needed(chain: seq<DataMigration>, current: string, target: string): Option<seq<DataMigration>>
  {
    var vs := Versions(chain);
    if Reachable(chain, current, target) then Some(Between(chain, Find(vs, current), Find(vs, target))) else None
  }

  lemma {:induction false} VersionsAscend(chain: seq<DataMigration>, i: nat, j: nat)
    requires IsChain(chain) && i < j < |Versions(chain)|
    ensures Compare(Versions(chain)[i], Versions(chain)[j]) < 0
    decreases j
  {
    var vs := Versions(chain);
    assert Grows(chain, j - 1) && (j - 1 > 0 ==> Follows(chain, j - 1));
    assert vs[j - 1] == chain[j - 1].downVersion;
    if i < j - 1 {
      VersionsAscend(chain, i, j - 1);
      CompareTransitive(vs[i], vs[j - 1], vs[j]);
    }
  }

  /** Versions of a chain are ordered as their places are, so a version has one place. */
  lemma ComparePlaces(chain: seq<DataMigration>, i: nat, j: nat)
    requires IsChain(chain) && i < |Versions(chain)| && j < |Versions(chain)|
    ensures Compare(Versions(chain)[i], Versions(chain)[j]) < 0 <==> i < j
    ensures Compare(Versions(chain)[i], Versions(chain)[j]) == 0 <==> i == j
    ensures Versions(chain)[i] == Versions(chain)[j] <==> i == j
    ensures Find(Versions(chain), Versions(chain)[i]) == i
  {
    var vs := Versions(chain);
    CompareAntisymmetric(vs[i], vs[j]);
    if i < j {
      VersionsAscend(chain, i, j);
    } else if j < i {
      VersionsAscend(chain, j, i);
    }
    var k := Find(vs, vs[i]);
    CompareAntisymmetric(vs[i], vs[k]);
    if k < i {
      VersionsAscend(chain, k, i);
    } else if i < k {
      VersionsAscend(chain, i, k);
    }
  }

  lemma PlacesDistinct(chain: seq<DataMigration>, i: nat, j: nat)
    requires IsChain(chain) && i < |Versions(chain)| && j < |Versions(chain)|
    ensures Versions(chain)[i] == Versions(chain)[j] <==> i == j
  {
    ComparePlaces(chain, i, j);
  }

  /** Where the flag-driven scan over the chain is after `i` migrations: not yet started, or
      collecting since place `lo`. */
  ghost predicate Scanning(vs: seq<string>, c: string, t: string, lo: nat, i: nat)
    requires i < |vs|
  {
    && lo <= i
    && (vs[lo] == c || (lo > 0 && vs[lo] == t))
    && (forall j :: 0 <= j <= i && j != lo ==> vs[j] != c && (j > 0 ==> vs[j] != t))
  }

  /** The range is refused exactly when the versions compare equal, one is off the chain, or the
      target is the chain's bottom version. */
  lemma RefusedExactly(chain: seq<DataMigration>, current: string, target: string)
    requires IsChain(chain)
    ensures var vs := Versions(chain);
      Needed(chain, current, target).None? <==>
      Compare(current, target) == 0 || current !in vs || target !in vs || target == vs[0]
  {
    CompareAntisymmetric(current, target);
    var vs := Versions(chain);
    if current in vs && target in vs {
      ComparePlaces(chain, Find(vs, current), Find(vs, target));
    }
  }

  ghost predicate NotStarted(vs: seq<string>, c: string, t: string, i: nat)
    requires i < |vs|
  {
    vs[0] != c && forall j :: 0 < j <= i ==> vs[j] != c && vs[j] != t
  }

  ghost predicate Spans(vs: seq<string>, m: DataMigration, i: nat)
    requires i + 1 < |vs|
  {
    vs[i] == m.downVersion && vs[i + 1] == m.upVersion
  }

  lemma PlacesSpanned(chain: seq<DataMigration>)
    requires IsChain(chain)
    ensures forall i :: 0 <= i < |chain| ==> Spans(Versions(chain), chain[i], i)
  {
    var vs := Versions(chain);
    forall i | 0 <= i < |chain|
      ensures Spans(vs, chain[i], i)
    {
      assert i > 0 ==> Follows(chain, i);
      assert vs[i] == Place(chain, i) && vs[i + 1] == Place(chain, i + 1);
    }
  }

  /** The scan of GetNeededMigrations: the migrations between the first and the second of the two
      versions it meets, or the flag still set when it meets only one. */
  method Scan(chain: seq<DataMigration>, current: string, target: string, ghost vs: seq<string>)
    returns (migrations: seq<DataMigration>, inMigration: bool, ghost lo: nat, ghost hi: nat)
    requires |vs| == |chain| + 1
    requires forall i :: 0 <= i < |chain| ==> Spans(vs, chain[i], i)
    ensures !inMigration && migrations == [] && chain != [] ==> NotStarted(vs, current, target, |chain|)
    ensures !inMigration && migrations != [] ==>
      lo < hi <= |chain| && migrations == chain[lo..hi] && Scanning(vs, current, target, lo, hi - 1) &&
      (vs[hi] == current || vs[hi] == target)
    ensures inMigration ==> chain != [] && Scanning(vs, current, target, lo, |chain|)
  {
    migrations, inMigration, lo, hi := [], false, 0, 0;
    var i := 0;
    while i < |chain|
      invariant 0 <= i <= |chain|
      invariant !inMigration ==> migrations == [] && (i > 0 ==> NotStarted(vs, current, target, i))
      invariant inMigration ==> i > 0 && Scanning(vs, current, target, lo, i) && migrations == chain[lo..i]
    {
      var m := chain[i];
      assert Spans(vs, m, i);
      if m.downVersion == current && !inMigration {
        inMigration := true;
        migrations := migrations + [m];
        lo := i;
      } else if (m.upVersion == current || m.upVersion == target) && !inMigration {
        inMigration := true;
        lo := i + 1;
        i := i + 1;
        continue;
      } else if inMigration {
        migrations := migrations + [m];
      }
      assert inMigration ==> chain[lo..i + 1] == chain[lo..i] + [m];
      if (m.upVersion == target || m.upVersion == current) && inMigration {
        inMigration := false;
        hi := i + 1;
        break;
      }
      i := i + 1;
    }
  }

  lemma RangeUnfinished(chain: seq<DataMigration>, c: string, t: string, lo: nat)
    requires chain != [] && c != t && Scanning(Versions(chain), c, t, lo, |chain|)
    ensures Needed(chain, c, t) == None
  {
    var vs := Versions(chain);
    if c in vs && t in vs {
      assert Find(vs, c) == lo;
      assert Find(vs, t) == lo || Find(vs, t) == 0;
    }
  }

  lemma RangeFound(chain: seq<DataMigration>, c: string, t: string, lo: nat, hi: nat)
    requires IsChain(chain) && c != t
    requires lo < hi <= |chain| && Scanning(Versions(chain), c, t, lo, hi - 1)
    requires Versions(chain)[hi] == c || Versions(chain)[hi] == t
    ensures Needed(chain, c, t) == Some(if Compare(c, t) > 0 then Reversed(chain[lo..hi]) else chain[lo..hi])
  {
    var vs := Versions(chain);
    CompareAntisymmetric(c, t);
    ComparePlaces(chain, lo, hi);
    ComparePlaces(chain, hi, lo);
    ComparePlaces(chain, 0, hi);
  }

  method GetNeededMigrations(chain: seq<DataMigration>, current: string, target: string)
    returns (r: Option<seq<DataMigration>>)
    requires IsChain(chain)
    ensures r == Needed(chain, current, target)
  {
    if Compare(current, target) == 0 {
      RefusedExactly(chain, current, target);
      return None;
    }
    CompareAntisymmetric(current, target);
    PlacesSpanned(chain);
    ghost var vs := if chain == [] then [""] else Versions(chain);
    var migrations, inMigration, lo, hi := Scan(chain, current, target, vs);
    if |migrations| == 0 || inMigration {
      if inMigration {
        RangeUnfinished(chain, current, target, lo);
      }
      return None;
    }
    RangeFound(chain, current, target, lo, hi);
    if Compare(current, target) > 0 {
      migrations := ReverseMigrations(migrations);
    }
    return Some(migrations);
  }

  /** The reversing loop of GetNeededMigrations. */
  method ReverseMigrations(migrations: seq<DataMigration>) returns (r: seq<DataMigration>)
    requires migrations != []
    ensures r == Reversed(migrations)
  {
    var n := |migrations|;
    var down := new DataMigration[n](_ => migrations[0]);
    var k := n - 1;
    while k >= 0
      invariant -1 <= k < n
      invariant forall j :: 0 <= j < n - 1 - k ==> down[j] == migrations[n - 1 - j]
    {
      down[n - 1 - k] := migrations[k];
      k := k - 1;
    }
    return down[..];
  }

  // ---------------------------------------------------------------- running them

  function RunUps(ms: seq<DataMigration>, s: NodeState): NodeState
  {
    if ms == [] then s else RunUps(ms[1..], Up(ms[0].step, s))
  }

  predicate AllDown(ms: seq<DataMigration>)
  {
    forall i :: 0 <= i < |ms| ==> !ms[i].step.Reset?
  }

  function RunDowns(ms: seq<DataMigration>, s: NodeState): NodeState
    requires AllDown(ms)
  {
    if ms == [] then s else RunDowns(ms[1..], Down(ms[0].step, s))
  }

  /** What a range holds, told by its links: every migration is one of the chain, going up they lead from the
      current version to the target, each starting where the one before ends, and going down the other way. */
  lemma NeededLinks(chain: seq<DataMigration>, current: string, target: string)
    requires IsChain(chain) && Needed(chain, current, target).Some?
    ensures var ms := Needed(chain, current, target).value;
      && ms != [] && (forall m :: m in ms ==> m in chain)
      && (Compare(current, target) < 0 ==>
            && ms[0].downVersion == current && ms[|ms| - 1].upVersion == target
            && forall i :: 0 <= i < |ms| - 1 ==> ms[i].upVersion == ms[i + 1].downVersion)
      && (Compare(current, target) > 0 ==>
            && ms[0].upVersion == current && ms[|ms| - 1].downVersion == target
            && forall i :: 0 <= i < |ms| - 1 ==> ms[i].downVersion == ms[i + 1].upVersion)
      && Compare(current, target) != 0
  {
    hide IsChain;
    hide Versions;
    hide Reversed;
    hide Compare;
    var vs := Versions(chain);
    var a, b := Find(vs, current), Find(vs, target);
    assert a <= |chain| && b <= |chain|;
    ComparePlaces(chain, a, b);
    ComparePlaces(chain, b, a);
    CompareAntisymmetric(current, target);
    if a < b {
      UpLinks(chain, a, b);
    } else {
      DownLinks(chain, b, a);
    }
  }

  lemma UpLinks(chain: seq<DataMigration>, a: nat, b: nat)
    requires IsChain(chain) && a < b <= |chain|
    ensures var ms := chain[a..b];
      && ms != [] && (forall m :: m in ms ==> m in chain)
      && ms[0].downVersion == Versions(chain)[a] && ms[|ms| - 1].upVersion == Versions(chain)[b]
      && forall i :: 0 <= i < |ms| - 1 ==> ms[i].upVersion == ms[i + 1].downVersion
  {
    Linked(chain, a, b);
    hide IsChain;
    hide Versions;
  }

  lemma DownLinks(chain: seq<DataMigration>, a: nat, b: nat)
    requires IsChain(chain) && a < b <= |chain|
    ensures var ms := Reversed(chain[a..b]);
      && ms != [] && (forall m :: m in ms ==> m in chain)
      && ms[0].upVersion == Versions(chain)[b] && ms[|ms| - 1].downVersion == Versions(chain)[a]
      && forall i :: 0 <= i < |ms| - 1 ==> ms[i].downVersion == ms[i + 1].upVersion
  {
    hide Reversed;
    UpLinks(chain, a, b);
    hide IsChain;
    hide Versions;
    var s := chain[a..b];
    var ms := Reversed(s);
    forall m | m in ms
      ensures m in chain
    {
      var i :| 0 <= i < |ms| && ms[i] == m;
      assert m == s[|s| - 1 - i];
    }
    forall i | 0 <= i < |ms| - 1
      ensures ms[i].downVersion == ms[i + 1].upVersion
    {
      assert s[|s| - 2 - i].upVersion == s[|s| - 2 - i + 1].downVersion;
    }
  }

  lemma Linked(chain: seq<DataMigration>, a: nat, b: nat)
    requires IsChain(chain) && a < b <= |chain|
    ensures chain[a].downVersion == Versions(chain)[a] && chain[b - 1].upVersion == Versions(chain)[b]
    ensures forall i :: a <= i < b - 1 ==> chain[i].upVersion == chain[i + 1].downVersion
  {
    assert forall i :: 0 < i < |chain| ==> Follows(chain, i);
    assert a > 0 ==> Follows(chain, a);
    forall i | a <= i < b - 1
      ensures chain[i].upVersion == chain[i + 1].downVersion
    {
      assert Follows(chain, i + 1);
    }
  }

  /** Going down never asks for the first migration of the chain. */
  lemma FirstNeverDown(chain: seq<DataMigration>, a: nat, b: nat)
    requires IsChain(chain) && 0 < b <= a <= |chain|
    ensures AllDown(Between(chain, a, b))
  {
  }

  /** The state a migration leads to: the needed migrations in order, then the target version. */
  function Migrated(chain: seq<DataMigration>, s: NodeState, current: string, target: string): Option<NodeState>
    requires IsChain(chain)
  {
    if !Reachable(chain, current, target) then None
    else
      var vs := Versions(chain);
      Some(MigratedBetween(chain, s, Find(vs, current), Find(vs, target)).(schemaVersion := target))
  }

  function MigratedBetween(chain: seq<DataMigration>, s: NodeState, a: nat, b: nat): NodeState
    requires IsChain(chain) && a <= |chain| && 0 < b <= |chain|
  {
    if b < a then
      FirstNeverDown(chain, a, b);
      RunDowns(Between(chain, a, b), s)
    else
      RunUps(Between(chain, a, b), s)
  }

  lemma UpsEndAt(chain: seq<DataMigration>, k: nat, b: nat)
    requires IsChain(chain) && k < |chain| && b <= |chain|
    ensures chain[k].upVersion == Versions(chain)[b] <==> k + 1 == b
  {
    assert Versions(chain)[k + 1] == chain[k].upVersion;
    PlacesDistinct(chain, k + 1, b);
  }

  /** The early end of the loop in GetMigrationPatch is met at the last migration going up, and
      never going down. */
  lemma BreakIsLast(chain: seq<DataMigration>, a: nat, b: nat, i: nat)
    requires IsChain(chain) && a <= |chain| && 0 < b <= |chain| && i < |Between(chain, a, b)|
    ensures Between(chain, a, b)[i].upVersion == Versions(chain)[b] <==> a < b && i == b - a - 1
  {
    hide Reversed;
    hide Versions;
    hide IsChain;
    if a <= b {
      UpsEndAt(chain, a + i, b);
    } else {
      UpsEndAt(chain, a - 1 - i, b);
    }
  }

  method GetMigrationPatch(chain: seq<DataMigration>, current: string, target: string, start: NodeState)
    returns (patch: Option<seq<Op>>)
    requires IsChain(chain)
    ensures patch == MigrationPatch(chain, start, current, target)
  {
    var needed := GetNeededMigrations(chain, current, target);
    if needed.None? {
      return None;
    }
    var curState := RunNeeded(chain, current, target, needed.value, start);
    curState := curState.(schemaVersion := target);
    return Some(Diff(Encode(start), Encode(curState)));
  }

  /** The loop of GetMigrationPatch, which leaves early at a migration ending at the target. */
  method RunNeeded(chain: seq<DataMigration>, current: string, target: string, ms: seq<DataMigration>, start: NodeState)
    returns (curState: NodeState)
    requires IsChain(chain) && Reachable(chain, current, target)
    requires ms == Between(chain, Find(Versions(chain), current), Find(Versions(chain), target))
    ensures curState == MigratedBetween(chain, start, Find(Versions(chain), current), Find(Versions(chain), target))
  {
    hide IsChain;
    hide Versions;
    hide Reversed;
    hide Compare;
    ghost var a, b := Find(Versions(chain), current), Find(Versions(chain), target);
    assert b > 0 && a <= |chain| && b <= |chain|;
    ComparePlaces(chain, a, b);
    ComparePlaces(chain, b, a);
    CompareAntisymmetric(current, target);
    var up := Compare(current, target) < 0;
    if !up {
      FirstNeverDown(chain, a, b);
    }
    curState := start;
    var i := 0;
    while i < |ms|
      invariant 0 <= i <= |ms|
      invariant up ==> RunUps(ms[i..], curState) == RunUps(ms, start)
      invariant !up ==> AllDown(ms[i..]) && RunDowns(ms[i..], curState) == RunDowns(ms, start)
    {
      BreakIsLast(chain, a, b, i);
      assert ms[i..][1..] == ms[i + 1..];
      if up {
        curState := Up(ms[i].step, curState);
      } else {
        curState := Down(ms[i].step, curState);
      }
      i := i + 1;
      if ms[i - 1].upVersion == target {
        break;
      }
    }
  }

  function MigrationPatch(chain: seq<DataMigration>, s: NodeState, current: string, target: string): Option<seq<Op>>
    requires IsChain(chain)
  {
    var next :- Migrated(chain, s, current, target);
    Some(Diff(Encode(s), Encode(next)))
  }

  // ---------------------------------------------------------------- paths compose

  lemma {:induction false} RunUpsConcat(a: seq<DataMigration>, b: seq<DataMigration>, s: NodeState)
    ensures RunUps(a + b, s) == RunUps(b, RunUps(a, s))
  {
    if a == [] {
      assert a + b == b;
    } else {
      assert (a + b)[1..] == a[1..] + b;
      RunUpsConcat(a[1..], b, Up(a[0].step, s));
    }
  }

  lemma {:induction false} RunDownsConcat(a: seq<DataMigration>, b: seq<DataMigration>, s: NodeState)
    requires AllDown(a) && AllDown(b)
    ensures AllDown(a + b)
    ensures RunDowns(a + b, s) == RunDowns(b, RunDowns(a, s))
  {
    if a == [] {
      assert a + b == b;
    } else {
      assert (a + b)[1..] == a[1..] + b;
      RunDownsConcat(a[1..], b, Down(a[0].step, s));
    }
  }

  /** No migration looks at the version field of the state it is given. */
  lemma {:induction false} UpsIgnoreVersion(ms: seq<DataMigration>, s: NodeState, x: string, y: string)
    ensures RunUps(ms, s.(schemaVersion := x)).(schemaVersion := y) == RunUps(ms, s).(schemaVersion := y)
  {
    if ms != [] {
      var u, w := Up(ms[0].step, s), Up(ms[0].step, s.(schemaVersion := x));
      if ms[0].step.Reset? {
        assert u == w;
      } else {
        assert w == u.(schemaVersion := x);
        UpsIgnoreVersion(ms[1..], u, x, y);
      }
    }
  }

  lemma {:induction false} DownsIgnoreVersion(ms: seq<DataMigration>, s: NodeState, x: string, y: string)
    requires AllDown(ms)
    ensures RunDowns(ms, s.(schemaVersion := x)).(schemaVersion := y) == RunDowns(ms, s).(schemaVersion := y)
  {
    if ms != [] {
      var u := Down(ms[0].step, s);
      assert Down(ms[0].step, s.(schemaVersion := x)) == u.(schemaVersion := x);
      DownsIgnoreVersion(ms[1..], u, x, y);
    }
  }

  lemma {:induction false} ReversedConcat<T>(a: seq<T>, b: seq<T>)
    ensures Reversed(a + b) == Reversed(b) + Reversed(a)
  {
  }

  lemma PlacesCompose(chain: seq<DataMigration>, s: NodeState, a: nat, m: nat, b: nat, d: string, t: string)
    requires IsChain(chain) && 0 < m <= |chain| && 0 < b <= |chain| && a <= |chain|
    requires a < m < b || b < m < a
    ensures MigratedBetween(chain, MigratedBetween(chain, s, a, m).(schemaVersion := d), m, b).(schemaVersion := t)
         == MigratedBetween(chain, s, a, b).(schemaVersion := t)
  {
    hide Reversed;
    if a < b {
      assert chain[a..b] == chain[a..m] + chain[m..b];
      RunUpsConcat(chain[a..m], chain[m..b], s);
      UpsIgnoreVersion(chain[m..b], RunUps(chain[a..m], s), d, t);
    } else {
      assert chain[b..a] == chain[b..m] + chain[m..a];
      ReversedConcat(chain[b..m], chain[m..a]);
      var hi, lo := Reversed(chain[m..a]), Reversed(chain[b..m]);
      RunDownsConcat(hi, lo, s);
      DownsIgnoreVersion(lo, RunDowns(hi, s), d, t);
    }
  }

  /** Stopping over at a version strictly between changes nothing, in either direction. */
  lemma PathsCompose(chain: seq<DataMigration>, s: NodeState, c: string, d: string, t: string)
    requires IsChain(chain) && Migrated(chain, s, c, t).Some? && d in Versions(chain)
    requires (Compare(c, d) < 0 && Compare(d, t) < 0) || (Compare(c, d) > 0 && Compare(d, t) > 0)
    ensures Migrated(chain, s, c, d).Some?
    ensures Migrated(chain, Migrated(chain, s, c, d).value, d, t) == Migrated(chain, s, c, t)
  {
    var vs := Versions(chain);
    var a, m, b := Find(vs, c), Find(vs, d), Find(vs, t);
    StrictlyBetween(chain, a, m, b);
    ComparePlaces(chain, m, 0);
    ComparePlaces(chain, a, m);
    ComparePlaces(chain, m, b);
    PlacesCompose(chain, s, a, m, b, d, t);
  }

  lemma StrictlyBetween(chain: seq<DataMigration>, a: nat, m: nat, b: nat)
    requires IsChain(chain) && a < |Versions(chain)| && m < |Versions(chain)| && b < |Versions(chain)|
    requires var vs := Versions(chain);
      (Compare(vs[a], vs[m]) < 0 && Compare(vs[m], vs[b]) < 0) || (Compare(vs[a], vs[m]) > 0 && Compare(vs[m], vs[b]) > 0)
    ensures a < m < b || b < m < a
  {
    ComparePlaces(chain, a, m);
    ComparePlaces(chain, m, b);
    ComparePlaces(chain, m, a);
    ComparePlaces(chain, b, m);
  }
}

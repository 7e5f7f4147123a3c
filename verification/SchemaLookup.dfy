/** Building the schema of a version by folding the schema migration files. */
module SchemaLookup {
  import opened Options
  import opened Json
  import opened Semver
  import opened Schema
  import opened MigrationRoundTrip
  import opened StepTheorems

  datatype SchemaMigration = SchemaMigration(newVersion: string, up: seq<Op>, down: seq<Op>)

  /** The document after the up patches of a list, in order. */
  function Fold(migrations: seq<SchemaMigration>, doc: Json): Option<Json>
    decreases |migrations|
  {
    if migrations == [] then Some(doc)
    else
      var next :- Apply(migrations[0].up, doc);
      Fold(migrations[1..], next)
  }

  function Lookup(migrations: seq<SchemaMigration>, target: string, doc: Json): Option<Json>
    decreases |migrations|
  {
    if migrations == [] then None
    else
      var updated :- Apply(migrations[0].up, doc);
      if migrations[0].newVersion == target then Some(updated)
      else if Compare(migrations[0].newVersion, target) > 0 then None
      else Lookup(migrations[1..], target, updated)
  }

  method GetSchemaVersion(migrations: seq<SchemaMigration>, target: string) returns (r: Option<Json>)
    ensures r == Lookup(migrations, target, Obj(map[]))
  {
    var curSchema := Obj(map[]);
    for i := 0 to |migrations|
      invariant Lookup(migrations[i..], target, curSchema) == Lookup(migrations, target, Obj(map[]))
    {
      var mig := migrations[i];
      assert migrations[i..][1..] == migrations[i + 1..];
      var updated := Apply(mig.up, curSchema);
      if updated.None? {
        return None;
      }
      curSchema := updated.value;
      if mig.newVersion == target {
        return updated;
      } else if Compare(mig.newVersion, target) > 0 {
        return None;
      }
    }
    return None;
  }

  ghost predicate Older(migrations: seq<SchemaMigration>, i: nat, j: nat)
    requires i < |migrations| && j < |migrations|
  {
    Compare(migrations[i].newVersion, migrations[j].newVersion) < 0
  }

  ghost predicate Ascends(migrations: seq<SchemaMigration>)
  {
    forall i, j :: 0 <= i < j < |migrations| ==> Older(migrations, i, j)
  }

  /** On an ascending list the lookup of a version at place `k` is the fold through that place: the
      early exit never turns away a version that comes later. */
  lemma {:induction false} LookupFinds(migrations: seq<SchemaMigration>, k: nat, doc: Json)
    requires Ascends(migrations) && k < |migrations|
    ensures Lookup(migrations, migrations[k].newVersion, doc) == Fold(migrations[..k + 1], doc)
    decreases |migrations|
  {
    var target := migrations[k].newVersion;
    var upto, rest := migrations[..k + 1], migrations[1..];
    var next := Apply(migrations[0].up, doc);
    assert upto[0] == migrations[0];
    if next.Some? {
      if k == 0 {
        assert upto[1..] == [];
      } else {
        assert Older(migrations, 0, k);
        CompareAntisymmetric(migrations[0].newVersion, target);
        RestAscends(migrations);
        assert upto[1..] == rest[..k] && rest[k - 1] == migrations[k];
        LookupFinds(rest, k - 1, next.value);
      }
    }
  }

  lemma RestAscends(migrations: seq<SchemaMigration>)
    requires Ascends(migrations) && migrations != []
    ensures Ascends(migrations[1..])
  {
    var rest := migrations[1..];
    forall i, j | 0 <= i < j < |rest|
      ensures Older(rest, i, j)
    {
      assert Older(migrations, i + 1, j + 1);
    }
  }

  /** A version that no migration ends at is not found. */
  lemma {:induction false} LookupMisses(migrations: seq<SchemaMigration>, target: string, doc: Json)
    requires forall i :: 0 <= i < |migrations| ==> migrations[i].newVersion != target
    ensures Lookup(migrations, target, doc) == None
    decreases |migrations|
  {
    if migrations != [] && Apply(migrations[0].up, doc).Some? {
      LookupMisses(migrations[1..], target, Apply(migrations[0].up, doc).value);
    }
  }

  /** For the eight migration files of the node, when their patches apply, exactly the versions with
      a schema index have a schema. */
  lemma NodeSchemasFound(migrations: seq<SchemaMigration>, target: string)
    requires |migrations| == 8 && forall i :: 0 <= i < 8 ==> migrations[i].newVersion == NAMES[i + 1]
    requires forall k :: 0 <= k <= 8 ==> Fold(migrations[..k], Obj(map[])).Some?
    ensures Lookup(migrations, target, Obj(map[])).Some? <==> SchemaIndex(target) > 0
  {
    var k := SchemaIndex(target);
    IndexIsPlace(target);
    if k > 0 {
      NodeFilesAscend(migrations);
      LookupFinds(migrations, k - 1, Obj(map[]));
      assert migrations[k - 1].newVersion == target;
    } else {
      forall i | 0 <= i < 8
        ensures migrations[i].newVersion != target
      {
        IndexIsPlace(NAMES[i + 1]);
      }
      LookupMisses(migrations, target, Obj(map[]));
    }
  }

  lemma NodeFilesAscend(migrations: seq<SchemaMigration>)
    requires |migrations| == 8 && forall i :: 0 <= i < 8 ==> migrations[i].newVersion == NAMES[i + 1]
    ensures Ascends(migrations)
  {
    forall i, j | 0 <= i < j < |migrations|
      ensures Older(migrations, i, j)
    {
      NameParses(i + 1);
      NameParses(j + 1);
    }
  }
}

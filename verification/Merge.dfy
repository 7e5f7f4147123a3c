/** Applying the diff of two documents to a third one: when every edit finds its place, and what the
    third document then becomes. */
module Merge {
  import opened Options
  import opened Text
  import opened Json

  /** What the document becomes: members that differ follow the diff, the others stay. */
  function Merged(a: Json, b: Json, doc: Json): Json
    decreases a
  {
    if a == b then doc
    else if a.Obj? && b.Obj? && doc.Obj? then
      var f := doc.fields;
      Obj(map k | k in (f.Keys - (a.fields.Keys - b.fields.Keys)) + (b.fields.Keys - a.fields.Keys) ::
            if k in a.fields && k in b.fields then Merged(a.fields[k], b.fields[k], f[k])
            else if k in b.fields then b.fields[k]
            else f[k])
    else b
  }

  /** Every member that is changed or removed is there, at every depth. */
  ghost predicate Fits(a: Json, b: Json, doc: Json)
    decreases a
  {
    a == b || !a.Obj? || !b.Obj? ||
    (doc.Obj? && forall k :: k in a.fields && (k in b.fields ==> a.fields[k] != b.fields[k]) ==>
                   k in doc.fields && (k in b.fields ==> Fits(a.fields[k], b.fields[k], doc.fields[k])))
  }

  lemma {:induction false} MemberEditsMerge(a: Json, b: Json, doc: Json, keys: seq<string>, f: map<string, Json>)
    requires a.Obj? && b.Obj? && doc.Obj? && a != b && Fits(a, b, doc)
    requires forall k :: k in keys ==> k in a.fields || k in b.fields
    requires forall i, j :: 0 <= i < j < |keys| ==> keys[i] != keys[j]
    requires forall k :: k in keys ==> (k in f <==> k in doc.fields) && (k in f ==> f[k] == doc.fields[k])
    requires var g := Merged(a, b, doc).fields; forall k :: k !in keys ==> (k in f <==> k in g) && (k in f ==> f[k] == g[k])
    ensures ApplyEdits(MemberEdits(a, b, keys), Obj(f)) == Some(Merged(a, b, doc))
    decreases a, 0, |keys|
  {
    var g := Merged(a, b, doc).fields;
    if keys == [] {
      assert f == g;
    } else {
      var k := keys[0];
      var first :=
        if k !in a.fields then [Located([k], Add(b.fields[k]))]
        else if k !in b.fields then [Located([k], Remove)]
        else Under(k, Edits(a.fields[k], b.fields[k]));
      var f' := if k in g then f[k := g[k]] else f - {k};
      assert ApplyEdits(first, Obj(f)) == Some(Obj(f')) by {
        KeyMerges(a, b, doc, k, f);
      }
      ApplyEditsConcat(first, MemberEdits(a, b, keys[1..]), Obj(f));
      assert forall x :: x in keys <==> x == k || x in keys[1..];
      MemberEditsMerge(a, b, doc, keys[1..], f');
    }
  }

  lemma {:induction false} KeyMerges(a: Json, b: Json, doc: Json, k: string, f: map<string, Json>)
    requires a.Obj? && b.Obj? && doc.Obj? && a != b && Fits(a, b, doc) && (k in a.fields || k in b.fields)
    requires (k in f <==> k in doc.fields) && (k in f ==> f[k] == doc.fields[k])
    ensures var g := Merged(a, b, doc).fields;
      ApplyEdits(if k !in a.fields then [Located([k], Add(b.fields[k]))]
                 else if k !in b.fields then [Located([k], Remove)]
                 else Under(k, Edits(a.fields[k], b.fields[k])), Obj(f)) ==
      Some(Obj(if k in g then f[k := g[k]] else f - {k}))
    decreases a, 0, 0
  {
    if k in a.fields && k in b.fields {
      if a.fields[k] == b.fields[k] {
        assert Under(k, []) == [];
        assert k in f ==> f[k := f[k]] == f;
        assert k !in f ==> f - {k} == f;
      } else {
        MergeApplies(a.fields[k], b.fields[k], f[k]);
        UnderApplies(k, Edits(a.fields[k], b.fields[k]), f);
      }
    }
  }

  /** A diff whose edits all find their place turns the document into the merged one. */
  lemma {:induction false} MergeApplies(a: Json, b: Json, doc: Json)
    requires Fits(a, b, doc)
    ensures ApplyEdits(Edits(a, b), doc) == Some(Merged(a, b, doc))
    decreases a, 1, 0
  {
    if a != b && a.Obj? && b.Obj? {
      var keys := Sorted(a.fields.Keys + b.fields.Keys);
      forall i, j | 0 <= i < j < |keys|
        ensures keys[i] != keys[j]
      {
        LessTrichotomy(keys[i], keys[j]);
      }
      MemberEditsMerge(a, b, doc, keys, doc.fields);
    }
  }
}

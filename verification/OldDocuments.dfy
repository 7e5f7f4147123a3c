/** Migrating documents that an older program wrote. The migration patch is computed between two
    records but applied to the document, and a document may lack members the record writes. */
module OldDocuments {
  import opened Options
  import opened Text
  import opened Json
  import opened State
  import opened Schema
  import opened MigrationRoundTrip
  import opened Transitions
  import opened Refinement
  import opened StepTheorems

  /** The diff from `a` to `b` changes a member, at some depth, that `doc` does not have. */
  ghost predicate Blocked(a: Json, b: Json, doc: Json)
    decreases a
  {
    && a.Obj? && b.Obj? && doc.Obj?
    && exists k :: BlockedAt(a, b, doc, k)
  }

  ghost predicate BlockedAt(a: Json, b: Json, doc: Json, k: string)
    requires a.Obj? && b.Obj? && doc.Obj?
    decreases a, k
  {
    && k in a.fields && k in b.fields && a.fields[k] != b.fields[k]
    && (k in doc.fields ==> Blocked(a.fields[k], b.fields[k], doc.fields[k]))
  }

  /** Edits at the root of what they are applied to only replace. */
  ghost predicate Rooted(es: seq<Located>)
  {
    forall i :: 0 <= i < |es| && es[i].tokens == [] ==> es[i].edit.Replace?
  }

  lemma {:induction false} UnderHasTokens(k: string, es: seq<Located>)
    ensures forall i :: 0 <= i < |es| ==> Under(k, es)[i].tokens != []
  {
    if es != [] {
      UnderHasTokens(k, es[1..]);
    }
  }

  lemma {:induction false} MemberEditsHaveTokens(a: Json, b: Json, keys: seq<string>)
    requires a.Obj? && b.Obj?
    requires forall k :: k in keys ==> k in a.fields || k in b.fields
    ensures forall i :: 0 <= i < |MemberEdits(a, b, keys)| ==> MemberEdits(a, b, keys)[i].tokens != []
    decreases |keys|
  {
    if keys != [] {
      var k := keys[0];
      if k in a.fields && k in b.fields {
        UnderHasTokens(k, Edits(a.fields[k], b.fields[k]));
      }
      MemberEditsHaveTokens(a, b, keys[1..]);
    }
  }

  lemma EditsRooted(a: Json, b: Json)
    ensures Rooted(Edits(a, b))
    ensures a != b && !(a.Obj? && b.Obj?) ==> Edits(a, b) != []
  {
    if a != b && a.Obj? && b.Obj? {
      MemberEditsHaveTokens(a, b, Sorted(a.fields.Keys + b.fields.Keys));
    }
  }

  lemma {:induction false} UnderFails(k: string, es: seq<Located>, f: map<string, Json>)
    requires k in f && Rooted(es) && ApplyEdits(es, f[k]).None?
    ensures ApplyEdits(Under(k, es), Obj(f)).None?
  {
    var tokens := [k] + es[0].tokens;
    assert tokens[1..] == es[0].tokens;
    assert Under(k, es)[1..] == Under(k, es[1..]);
    var r := ApplyAt(es[0].tokens, es[0].edit, f[k]);
    if r.Some? {
      assert ApplyAt(tokens, es[0].edit, Obj(f)) == Some(Obj(f[k := r.value]));
      UnderFails(k, es[1..], f[k := r.value]);
    }
  }

  lemma UnderMissing(k: string, es: seq<Located>, f: map<string, Json>)
    requires k !in f && Rooted(es) && es != []
    ensures ApplyEdits(Under(k, es), Obj(f)).None?
  {
    assert ([k] + es[0].tokens)[0] == k;
  }

  lemma {:induction false} UnderKeepsOthers(k: string, es: seq<Located>, f: map<string, Json>, other: string)
    requires other != k
    ensures var r := ApplyEdits(Under(k, es), Obj(f));
      r.Some? ==> r.value.Obj? && (other in r.value.fields <==> other in f) && (other in f ==> r.value.fields[other] == f[other])
  {
    if es != [] {
      var tokens := [k] + es[0].tokens;
      var r := ApplyAt(tokens, es[0].edit, Obj(f));
      assert Under(k, es)[1..] == Under(k, es[1..]);
      if r.Some? {
        UnderKeepsOthers(k, es[1..], r.value.fields, other);
      }
    }
  }

  lemma {:induction false} MemberEditsBlocked(a: Json, b: Json, keys: seq<string>, doc: Json, k: string)
    requires a.Obj? && b.Obj? && doc.Obj?
    requires forall x :: x in keys ==> x in a.fields || x in b.fields
    requires k in keys && BlockedAt(a, b, doc, k)
    ensures ApplyEdits(MemberEdits(a, b, keys), doc).None?
    decreases a, 0, |keys|
  {
    var x, f := keys[0], doc.fields;
    var first :=
      if x !in a.fields then [Located([x], Add(b.fields[x]))]
      else if x !in b.fields then [Located([x], Remove)]
      else Under(x, Edits(a.fields[x], b.fields[x]));
    ApplyEditsConcat(first, MemberEdits(a, b, keys[1..]), doc);
    var r := ApplyEdits(first, doc);
    if x == k {
      var es := Edits(a.fields[k], b.fields[k]);
      EditsRooted(a.fields[k], b.fields[k]);
      if k in f {
        BlockedFails(a.fields[k], b.fields[k], f[k]);
        UnderFails(k, es, f);
      } else {
        ChangedHasEdits(a.fields[k], b.fields[k]);
        UnderMissing(k, es, f);
      }
    } else if r.Some? {
      if x in a.fields && x in b.fields {
        UnderKeepsOthers(x, Edits(a.fields[x], b.fields[x]), f, k);
      }
      assert BlockedAt(a, b, r.value, k);
      MemberEditsBlocked(a, b, keys[1..], r.value, k);
    }
  }

  /** Two different documents have edits between them. */
  lemma ChangedHasEdits(a: Json, b: Json)
    requires a != b
    ensures Edits(a, b) != []
  {
    EditsApply(a, b);
    assert ApplyEdits([], a) == Some(a);
  }

  lemma {:induction false} BlockedFails(a: Json, b: Json, doc: Json)
    requires Blocked(a, b, doc)
    ensures ApplyEdits(Edits(a, b), doc).None?
    decreases a, 1, 0
  {
    var k :| BlockedAt(a, b, doc, k);
    MemberEditsBlocked(a, b, Sorted(a.fields.Keys + b.fields.Keys), doc, k);
  }

  /** The patch of a migration across v0.0.4 changes members that an older document need not have. */
  lemma CrossingBlocked(doc: Json, s: NodeState, next: NodeState, v: nat, b: nat)
    requires doc.Obj? && DocOk(v, doc) && Decode(doc) == Some(s) && v < 4 <= b
    requires Carries(v, b, s, next)
    requires Entries(s.apps) != map[] || "reverse_proxy_rules" !in doc.fields
    ensures Blocked(Encode(s), Encode(next), doc)
  {
    if "reverse_proxy_rules" !in doc.fields {
      MissingRulesBlock(doc, s, next);
    } else {
      var x :| x in Entries(s.apps);
      assert Entries(next.apps)[x] == CarriedApp(v, b, Entries(s.apps)[x]);
      InstallationBlocks(doc, s, next, v, x);
    }
  }

  lemma MissingRulesBlock(doc: Json, s: NodeState, next: NodeState)
    requires doc.Obj? && Decode(doc) == Some(s) && "reverse_proxy_rules" !in doc.fields
    requires next.rules.Some?
    ensures Blocked(Encode(s), Encode(next), doc)
  {
    RootMembers(s);
    RootMembers(next);
    assert s.rules == None by {
      DecodedMaps(doc);
    }
    assert BlockedAt(Encode(s), Encode(next), doc, "reverse_proxy_rules");
  }

  lemma InstallationBlocks(doc: Json, s: NodeState, next: NodeState, v: nat, x: string)
    requires doc.Obj? && DocOk(v, doc) && Decode(doc) == Some(s) && v < 4
    requires x in Entries(s.apps) && x in Entries(next.apps) && Entries(next.apps)[x].driverConfig == Some(map[])
    ensures Blocked(Encode(s), Encode(next), doc)
  {
    OldApps(doc, s, v);
    var d := doc.fields["app_installations"];
    EntryLacksConfig(v, d.fields[x]);
    AppsBlocked(EncodeMap(s.apps, EncodeApp), EncodeMap(next.apps, EncodeApp), d, x, s.apps.value[x], next.apps.value[x]);
    AppMemberBlocked(doc, s, next);
  }

  lemma OldApps(doc: Json, s: NodeState, v: nat)
    requires doc.Obj? && DocOk(v, doc) && Decode(doc) == Some(s) && s.apps.Some?
    ensures "app_installations" in doc.fields && EntriesOk(AppFields(v), AppRequired(v), doc.fields["app_installations"])
    ensures DecodeEntries(doc.fields["app_installations"].fields, DecodeApp) == s.apps
  {
    DecodedMaps(doc);
  }

  lemma AppMemberBlocked(doc: Json, s: NodeState, next: NodeState)
    requires doc.Obj? && "app_installations" in doc.fields
    requires var a, c := EncodeMap(s.apps, EncodeApp), EncodeMap(next.apps, EncodeApp);
      a != c && Blocked(a, c, doc.fields["app_installations"])
    ensures Blocked(Encode(s), Encode(next), doc)
  {
    RootMembers(s);
    RootMembers(next);
    assert BlockedAt(Encode(s), Encode(next), doc, "app_installations");
  }

  lemma NoConfigBelow4(v: nat)
    requires v < 4
    ensures "driver_config" !in AppFields(v)
  {
  }

  lemma EntryLacksConfig(v: nat, j: Json)
    requires v < 4 && EntryOk(AppFields(v), AppRequired(v), j) && DecodeApp(j).Some?
    ensures "driver_config" !in j.fields
    ensures DecodeApp(j).value.driverConfig == None
  {
    NoConfigBelow4(v);
    assert ObjectMember(j.fields, "driver_config") == Some(None);
  }

  lemma AppsBlocked(a: Json, c: Json, d: Json, x: string, p: Installation, q: Installation)
    requires a.Obj? && c.Obj? && d.Obj? && x in a.fields && x in c.fields && x in d.fields
    requires a.fields[x] == EncodeApp(p) && c.fields[x] == EncodeApp(q)
    requires d.fields[x].Obj? && "driver_config" !in d.fields[x].fields
    requires p.driverConfig == None && q.driverConfig == Some(map[])
    ensures Blocked(a, c, d) && a != c
  {
    AppFieldValues(p);
    AppFieldValues(q);
    assert BlockedAt(EncodeApp(p), EncodeApp(q), d.fields[x], "driver_config");
    assert EncodeApp(p) != EncodeApp(q);
    assert BlockedAt(a, c, d, x);
  }

  /** A valid document below v0.0.4 that holds an installation, or that lacks the rule member, cannot
      be migrated to v0.0.4 or later: the patch fails on it, whatever the target. */
  lemma OldDocumentStuck(doc: Json, target: string)
    requires ValidateState(doc) && Version(Decode(doc).value) < 4 && SchemaIndex(target) >= 4
    requires doc.Obj?
    requires Entries(Decode(doc).value.apps) != map[] || "reverse_proxy_rules" !in doc.fields
    ensures ProposeOne(Migrate(target), doc) == None
  {
    var s := Decode(doc).value;
    var v, b := Version(s), SchemaIndex(target);
    IndexIsPlace(s.schemaVersion);
    IndexIsPlace(target);
    TargetOnChain(s, v, b);
    MigrationCarries(s, v, b);
    var next := NodeMigrated(s, v, b);
    CrossingBlocked(doc, s, next, v, b);
    BlockedFails(Encode(s), Encode(next), doc);
    FormatApplies(Edits(Encode(s), Encode(next)), doc);
    FailedDiff(doc, s, target, next);
  }

  lemma FailedDiff(doc: Json, s: NodeState, target: string, next: NodeState)
    requires Decode(doc) == Some(s) && MigrationTarget(s, target) == Some(next)
    requires Apply(Diff(Encode(s), Encode(next)), doc) == None
    ensures ProposeOne(Migrate(target), doc) == None
  {
  }
}

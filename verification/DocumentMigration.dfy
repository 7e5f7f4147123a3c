/** When a migration goes through on a valid document of any origin. The patch is computed between
    two records but applied to the document, which may lack members the record writes, or hold
    members the record does not keep. */
module DocumentMigration {
  import opened Options
  import opened Json
  import opened Merge
  import opened State
  import opened Schema
  import opened MigrationRoundTrip
  import opened Documents
  import opened Transitions
  import opened Refinement
  import opened StepTheorems
  import opened OldDocuments

  /** The document writes out a DID that is empty. */
  ghost predicate WritesEmptyDid(entry: Json)
  {
    entry.Obj? && "atproto_did" in entry.fields && entry.fields["atproto_did"] == Str("")
  }

  /** What a document needs besides an acceptable record: across v0.0.4 upwards no installation and
      the rule member, across v0.0.5 downwards no user with an empty DID written out, and no process. */
  ghost predicate Portable(doc: Json, a: nat, b: nat)
  {
    && MemberFields(doc, "processes") == map[]
    && (a < 4 <= b ==> MemberFields(doc, "app_installations") == map[] && doc.Obj? && "reverse_proxy_rules" in doc.fields)
    && (b < 5 <= a ==> var users := MemberFields(doc, "users"); forall k :: k in users ==> !WritesEmptyDid(users[k]))
  }

  ghost predicate SameAt(f: map<string, Json>, g: map<string, Json>, k: string)
  {
    (k in f <==> k in g) && (k in f ==> f[k] == g[k])
  }

  lemma MergedMember(a: Json, b: Json, doc: Json, k: string)
    requires a.Obj? && b.Obj? && doc.Obj? && a != b
    ensures Merged(a, b, doc).Obj?
    ensures var g := Merged(a, b, doc).fields;
      && (k in a.fields && k in b.fields ==>
            (k in g <==> k in doc.fields) && (k in g ==> g[k] == Merged(a.fields[k], b.fields[k], doc.fields[k])))
      && (k !in a.fields && k in b.fields ==> k in g && g[k] == b.fields[k])
      && (k in a.fields && k !in b.fields ==> k !in g)
      && (k !in a.fields && k !in b.fields ==> SameAt(g, doc.fields, k))
  {
  }

  // ---------------------------------------------------------------- users

  lemma UserMerged(a: nat, b: nat, u: User, e: Json)
    requires 1 <= a <= 8 && 1 <= b <= 8 && DecodeUser(e) == Some(u) && EntryOk(UserFields(a), USER_REQUIRED, e)
    ensures var x, y := EncodeUser(u), EncodeUser(CarriedUser(a, b, u));
      && Fits(x, y, e)
      && DecodeUser(Merged(x, y, e)) == Some(CarriedUser(a, b, u))
      && (EntryOk(UserFields(b), USER_REQUIRED, Merged(x, y, e)) <==> (b < 5 <= a ==> !WritesEmptyDid(e)))
  {
    var x, y := EncodeUser(u), EncodeUser(CarriedUser(a, b, u));
    if x != y {
      assert "atproto_did" in x.fields && x.fields.Keys == {"id", "username", "atproto_did"};
      assert y.fields.Keys == {"id", "username"};
      MergedMember(x, y, e, "id");
      MergedMember(x, y, e, "username");
      MergedMember(x, y, e, "atproto_did");
      assert Merged(x, y, e).fields.Keys == e.fields.Keys - {"atproto_did"};
    } else {
      assert "atproto_did" in e.fields && a >= 5 ==> e.fields["atproto_did"].Str?;
    }
  }

  lemma EntriesMerged<T(!new)>(su: map<string, T>, nu: map<string, T>, encode: T -> Json, d: Json)
    requires d.Obj? && d.fields.Keys == su.Keys == nu.Keys
    ensures var m := Merged(Obj(EncodeEntries(su, encode)), Obj(EncodeEntries(nu, encode)), d);
      && m.Obj? && m.fields.Keys == su.Keys
      && forall k :: k in su ==> m.fields[k] == Merged(encode(su[k]), encode(nu[k]), d.fields[k])
  {
    var x, y := Obj(EncodeEntries(su, encode)), Obj(EncodeEntries(nu, encode));
    forall k | k in su && x == y
      ensures encode(su[k]) == encode(nu[k])
    {
      assert x.fields[k] == y.fields[k];
    }
  }

  lemma EntriesFit<T(!new)>(su: map<string, T>, nu: map<string, T>, encode: T -> Json, d: Json)
    requires d.Obj? && d.fields.Keys == su.Keys == nu.Keys
    requires forall k :: k in su ==> Fits(encode(su[k]), encode(nu[k]), d.fields[k])
    ensures Fits(Obj(EncodeEntries(su, encode)), Obj(EncodeEntries(nu, encode)), d)
  {
  }

  lemma UsersMerged(a: nat, b: nat, su: map<string, User>, nu: map<string, User>, d: Json)
    requires 1 <= a <= 8 && 1 <= b <= 8 && d.Obj? && DecodeEntries(d.fields, DecodeUser) == Some(su)
    requires EntriesOk(UserFields(a), USER_REQUIRED, d)
    requires nu.Keys == su.Keys && forall k :: k in nu ==> nu[k] == CarriedUser(a, b, su[k])
    ensures var x, y := Obj(EncodeEntries(su, EncodeUser)), Obj(EncodeEntries(nu, EncodeUser)); var m := Merged(x, y, d);
      && Fits(x, y, d)
      && m.Obj? && DecodeEntries(m.fields, DecodeUser) == Some(nu)
      && (EntriesOk(UserFields(b), USER_REQUIRED, m) <==> (b < 5 <= a ==> forall k :: k in d.fields ==> !WritesEmptyDid(d.fields[k])))
  {
    hide Merged;
    hide Fits;
    hide EntryOk;
    hide EncodeUser;
    hide DecodeUser;
    hide CarriedUser;
    hide WritesEmptyDid;
    hide UserFields;
    hide USER_REQUIRED;
    assert d.fields.Keys == su.Keys;
    EntriesMerged(su, nu, EncodeUser, d);
    var m := Merged(Obj(EncodeEntries(su, EncodeUser)), Obj(EncodeEntries(nu, EncodeUser)), d);
    forall k | k in su
      ensures Fits(EncodeUser(su[k]), EncodeUser(nu[k]), d.fields[k])
      ensures DecodeUser(m.fields[k]) == Some(nu[k])
      ensures EntryOk(UserFields(b), USER_REQUIRED, m.fields[k]) <==> (b < 5 <= a ==> !WritesEmptyDid(d.fields[k]))
    {
      UserMerged(a, b, su[k], d.fields[k]);
    }
    EntriesFit(su, nu, EncodeUser, d);
    assert DecodeEntries(m.fields, DecodeUser).value == nu;
  }

  // ---------------------------------------------------------------- the other members

  /** A valid document, its record, and the valid record a migration from place `a` to `b` makes of it. */
  ghost predicate Moving(doc: Json, s: NodeState, a: nat, b: nat, next: NodeState)
  {
    && doc.Obj? && DocOk(a, doc) && Decode(doc) == Some(s)
    && 1 <= a <= 8 && 1 <= b <= 8 && a != b
    && s.schemaVersion == NAMES[a] && next == NodeMigrated(s, a, b) && Carries(a, b, s, next)
    && next.schemaVersion == NAMES[b] && SchemaIndex(NAMES[b]) == b && Valid(next)
  }

  lemma WrittenTestField(s: NodeState)
    ensures "test_field" in Encode(s).fields <==> s.testField != ""
  {
  }

  lemma VersionsDiffer(s: NodeState, next: NodeState)
    requires s.schemaVersion != next.schemaVersion
    ensures Encode(s) != Encode(next)
  {
    RootMembers(s);
    RootMembers(next);
    assert Encode(s).fields["schema_version"] != Encode(next).fields["schema_version"];
  }

  lemma NamesDiffer(a: nat, b: nat)
    requires a < 10 && b < 10 && a != b
    ensures NAMES[a] != NAMES[b]
  {
    NodeChain();
  }

  lemma DecodedScalars(doc: Json)
    requires doc.Obj? && Decode(doc).Some?
    ensures var s, f := Decode(doc).value, doc.fields;
      && TextMember(f, "node_id") == Some(s.nodeID) && TextMember(f, "name") == Some(s.name)
      && TextMember(f, "certificate") == Some(s.certificate) && TextMember(f, "schema_version") == Some(s.schemaVersion)
      && TextMember(f, "test_field") == Some(s.testField)
  {
  }

  lemma DecodeFrom(g: map<string, Json>, s: NodeState)
    requires TextMember(g, "node_id") == Some(s.nodeID) && TextMember(g, "name") == Some(s.name)
    requires TextMember(g, "certificate") == Some(s.certificate) && TextMember(g, "schema_version") == Some(s.schemaVersion)
    requires TextMember(g, "test_field") == Some(s.testField)
    requires MapMember(g, "users", DecodeUser) == Some(s.users) && MapMember(g, "processes", DecodeProcess) == Some(s.processes)
    requires MapMember(g, "app_installations", DecodeApp) == Some(s.apps)
    requires MapMember(g, "reverse_proxy_rules", DecodeRule) == Some(s.rules)
    ensures Decode(Obj(g)) == Some(s)
  {
  }

  /** A text member that is written only when it is not empty. */
  ghost predicate WrittenText(x: Json, k: string, text: string)
  {
    x.Obj? && (k in x.fields <==> text != "") && TextMember(x.fields, k) == Some(text)
  }

  lemma TextMerged(x: Json, y: Json, doc: Json, k: string, before: string, after: string)
    requires x != y && WrittenText(x, k, before) && WrittenText(y, k, after)
    requires doc.Obj? && TextMember(doc.fields, k) == Some(before)
    ensures Merged(x, y, doc).Obj?
    ensures var g := Merged(x, y, doc).fields; TextMember(g, k) == Some(after) && (after != "" ==> TextIfPresent(g, k))
    ensures before != "" ==> k in doc.fields
  {
    MergedMember(x, y, doc, k);
  }

  lemma WrittenTexts(s: NodeState)
    ensures WrittenText(Encode(s), "test_field", s.testField)
    ensures s.schemaVersion != "" ==> WrittenText(Encode(s), "schema_version", s.schemaVersion)
  {
    RootMembers(s);
    WrittenTestField(s);
  }

  /** The version and the test field of the merged document are those of the new record. */
  lemma TextsMerged(doc: Json, s: NodeState, a: nat, b: nat, next: NodeState)
    requires Moving(doc, s, a, b, next)
    ensures Encode(s) != Encode(next)
    ensures var g := Merged(Encode(s), Encode(next), doc);
      && g.Obj?
      && TextMember(g.fields, "schema_version") == Some(next.schemaVersion) && TextIfPresent(g.fields, "schema_version")
      && TextMember(g.fields, "test_field") == Some(next.testField) && (b == 2 ==> TextIfPresent(g.fields, "test_field"))
    ensures "schema_version" in doc.fields && (s.testField != "" ==> "test_field" in doc.fields)
  {
    hide Valid;
    hide DocOk;
    hide NodeMigrated;
    hide Merged;
    hide Encode;
    hide Decode;
    hide TextMember;
    NamesDiffer(a, b);
    VersionsDiffer(s, next);
    DecodedScalars(doc);
    WrittenTexts(s);
    WrittenTexts(next);
    assert b == 2 ==> next.testField == "test";
    TextMerged(Encode(s), Encode(next), doc, "schema_version", s.schemaVersion, next.schemaVersion);
    TextMerged(Encode(s), Encode(next), doc, "test_field", s.testField, next.testField);
  }

  /** A member with the same written form on both sides stays as the document has it. */
  lemma SameMerged(x: Json, y: Json, doc: Json, k: string)
    requires x.Obj? && y.Obj? && doc.Obj? && x != y && k in x.fields && k in y.fields && x.fields[k] == y.fields[k]
    ensures Merged(x, y, doc).Obj? && SameAt(Merged(x, y, doc).fields, doc.fields, k)
  {
    MergedMember(x, y, doc, k);
  }

  /** An accepted migration leaves the installations as they are, unless it crosses v0.0.4 upwards. */
  lemma AppsUnchanged(doc: Json, s: NodeState, a: nat, b: nat, next: NodeState)
    requires Moving(doc, s, a, b, next) && (a < 4 <= b ==> Entries(s.apps) == map[])
    ensures next.apps == s.apps && s.apps.Some?
  {
    assert next.apps.value.Keys == s.apps.value.Keys;
    assert b < 4 ==> forall k :: k !in next.apps.value;
    assert forall k :: k in s.apps.value ==> next.apps.value[k] == CarriedApp(a, b, s.apps.value[k]);
    assert next.apps.value == s.apps.value;
  }

  lemma RestMerged(doc: Json, s: NodeState, a: nat, b: nat, next: NodeState)
    requires Moving(doc, s, a, b, next) && (a < 4 <= b ==> Entries(s.apps) == map[])
    ensures var g := Merged(Encode(s), Encode(next), doc);
      && g.Obj?
      && SameAt(g.fields, doc.fields, "node_id") && SameAt(g.fields, doc.fields, "name") && SameAt(g.fields, doc.fields, "certificate")
      && SameAt(g.fields, doc.fields, "processes") && SameAt(g.fields, doc.fields, "app_installations")
  {
    hide Valid;
    hide DocOk;
    hide NodeMigrated;
    hide Merged;
    AppsUnchanged(doc, s, a, b, next);
    NamesDiffer(a, b);
    VersionsDiffer(s, next);
    RootMembers(s);
    RootMembers(next);
    SameMerged(Encode(s), Encode(next), doc, "node_id");
    SameMerged(Encode(s), Encode(next), doc, "name");
    SameMerged(Encode(s), Encode(next), doc, "certificate");
    SameMerged(Encode(s), Encode(next), doc, "processes");
    SameMerged(Encode(s), Encode(next), doc, "app_installations");
  }

  // ---------------------------------------------------------------- rules

  lemma NoneLeft(m: map<string, Rule>, d: Json)
    requires d.Obj? && d.fields.Keys == m.Keys
    ensures Fits(Obj(EncodeEntries(m, EncodeRule)), Obj(map[]), d)
    ensures Merged(Obj(EncodeEntries(m, EncodeRule)), Obj(map[]), d) == Obj(map[])
  {
    var x := Obj(EncodeEntries(m, EncodeRule));
    if x == Obj(map[]) {
      assert m.Keys == x.fields.Keys == {};
      assert d.fields == map[];
    } else {
      assert Merged(x, Obj(map[]), d).fields == map[];
    }
  }

  /** The rule member: emptied going up across v0.0.4, nil going down, otherwise as it was. */
  lemma RulesMerged(a: nat, b: nat, sr: Option<map<string, Rule>>, nr: Option<map<string, Rule>>, d: Json)
    requires nr == if a < 4 <= b then Some(map[]) else if b < 4 <= a then None else sr
    requires if sr.None? then d.Null? else d.Obj? && DecodeEntries(d.fields, DecodeRule) == sr
    ensures var x, y := EncodeMap(sr, EncodeRule), EncodeMap(nr, EncodeRule);
      && Fits(x, y, d)
      && Merged(x, y, d) == if a < 4 <= b then Obj(map[]) else if b < 4 <= a then Null else d
  {
    assert EncodeEntries(map[], EncodeRule) == map[];
    if sr.Some? && a < 4 <= b {
      NoneLeft(sr.value, d);
    }
  }

  /** What the merge makes of the rule member. */
  ghost predicate RuleMember(a: nat, b: nat, x: Json, y: Json, doc: Json, g: map<string, Json>, rules: Option<map<string, Rule>>)
    requires x.Obj? && y.Obj? && doc.Obj?
    requires "reverse_proxy_rules" in x.fields && "reverse_proxy_rules" in y.fields
  {
    var k := "reverse_proxy_rules";
    && (k in g <==> k in doc.fields)
    && (k in doc.fields ==>
          && Fits(x.fields[k], y.fields[k], doc.fields[k])
          && g[k] == if a < 4 <= b then Obj(map[]) else if b < 4 <= a then Null else doc.fields[k])
    && (k !in doc.fields ==> x.fields[k] == y.fields[k])
    && MapMember(g, k, DecodeRule) == Some(rules)
  }

  lemma RuleMemberMerges(a: nat, b: nat, sr: Option<map<string, Rule>>, nr: Option<map<string, Rule>>, x: Json, y: Json, doc: Json)
    requires x.Obj? && y.Obj? && doc.Obj? && x != y
    requires "reverse_proxy_rules" in x.fields && "reverse_proxy_rules" in y.fields
    requires x.fields["reverse_proxy_rules"] == EncodeMap(sr, EncodeRule)
    requires y.fields["reverse_proxy_rules"] == EncodeMap(nr, EncodeRule)
    requires nr == if a < 4 <= b then Some(map[]) else if b < 4 <= a then None else sr
    requires MapMember(doc.fields, "reverse_proxy_rules", DecodeRule) == Some(sr)
    requires a < 4 <= b ==> "reverse_proxy_rules" in doc.fields
    ensures Merged(x, y, doc).Obj? && RuleMember(a, b, x, y, doc, Merged(x, y, doc).fields, nr)
  {
    hide Merged;
    hide Fits;
    MergedMember(x, y, doc, "reverse_proxy_rules");
    if "reverse_proxy_rules" in doc.fields {
      RulesMerged(a, b, sr, nr, doc.fields["reverse_proxy_rules"]);
      assert DecodeEntries(map[], DecodeRule) == Some(map[]);
    }
  }

  lemma RuleMemberMerged(doc: Json, s: NodeState, a: nat, b: nat, next: NodeState)
    requires Moving(doc, s, a, b, next) && (a < 4 <= b ==> "reverse_proxy_rules" in doc.fields)
    ensures var x, y := Encode(s), Encode(next);
      && x.Obj? && y.Obj? && "reverse_proxy_rules" in x.fields && "reverse_proxy_rules" in y.fields
      && Merged(x, y, doc).Obj?
      && RuleMember(a, b, x, y, doc, Merged(x, y, doc).fields, next.rules)
  {
    hide Valid;
    hide DocOk;
    hide NodeMigrated;
    hide Merged;
    hide MapMember;
    hide EncodeMap;
    hide RuleMember;
    NamesDiffer(a, b);
    VersionsDiffer(s, next);
    RootMembers(s);
    RootMembers(next);
    DecodedMaps(doc);
    RuleMemberMerges(a, b, s.rules, next.rules, Encode(s), Encode(next), doc);
  }

  /** What the merge makes of the user member. */
  ghost predicate UserMember(a: nat, b: nat, x: Json, y: Json, doc: Json, g: map<string, Json>, users: Option<map<string, User>>)
    requires x.Obj? && y.Obj? && doc.Obj?
    requires "users" in x.fields && "users" in y.fields
  {
    && "users" in doc.fields && doc.fields["users"].Obj? && "users" in g
    && Fits(x.fields["users"], y.fields["users"], doc.fields["users"])
    && MapMember(g, "users", DecodeUser) == Some(users)
    && var d := doc.fields["users"].fields;
    && (EntriesOk(UserFields(b), USER_REQUIRED, g["users"]) <==> (b < 5 <= a ==> forall k :: k in d ==> !WritesEmptyDid(d[k])))
  }

  lemma UserMemberMerges(a: nat, b: nat, su: map<string, User>, nu: map<string, User>, x: Json, y: Json, doc: Json)
    requires 1 <= a <= 8 && 1 <= b <= 8
    requires x.Obj? && y.Obj? && doc.Obj? && x != y
    requires "users" in x.fields && "users" in y.fields && "users" in doc.fields
    requires x.fields["users"] == Obj(EncodeEntries(su, EncodeUser)) && y.fields["users"] == Obj(EncodeEntries(nu, EncodeUser))
    requires nu.Keys == su.Keys && forall k :: k in nu ==> nu[k] == CarriedUser(a, b, su[k])
    requires MapMember(doc.fields, "users", DecodeUser) == Some(Some(su))
    requires EntriesOk(UserFields(a), USER_REQUIRED, doc.fields["users"])
    ensures Merged(x, y, doc).Obj? && UserMember(a, b, x, y, doc, Merged(x, y, doc).fields, Some(nu))
  {
    hide Merged;
    hide Fits;
    hide WritesEmptyDid;
    hide CarriedUser;
    hide EntryOk;
    hide EncodeUser;
    hide DecodeUser;
    MergedMember(x, y, doc, "users");
    UsersMerged(a, b, su, nu, doc.fields["users"]);
  }

  lemma UserMemberMerged(doc: Json, s: NodeState, a: nat, b: nat, next: NodeState)
    requires Moving(doc, s, a, b, next)
    ensures var x, y := Encode(s), Encode(next);
      && x.Obj? && y.Obj? && "users" in x.fields && "users" in y.fields
      && Merged(x, y, doc).Obj?
      && UserMember(a, b, x, y, doc, Merged(x, y, doc).fields, next.users)
  {
    hide NodeMigrated;
    hide Merged;
    hide MapMember;
    hide UserMember;
    hide EntriesOk;
    hide CarriedUser;
    NamesDiffer(a, b);
    VersionsDiffer(s, next);
    RootMembers(s);
    RootMembers(next);
    DecodedMaps(doc);
    UserMemberMerges(a, b, s.users.value, next.users.value, Encode(s), Encode(next), doc);
  }

  const SCALARS_KEPT := {"node_id", "name", "certificate", "processes", "app_installations"}
  const TEXTS_CHANGED := {"schema_version", "test_field"}
  const MAPS_CHANGED := {"users", "reverse_proxy_rules"}

  lemma RootKeys(s: NodeState)
    ensures Encode(s).fields.Keys <= SCALARS_KEPT + TEXTS_CHANGED + MAPS_CHANGED
  {
  }

  lemma KeptMembers(s: NodeState, next: NodeState, k: string)
    requires next.processes == s.processes && next.apps == s.apps && k in SCALARS_KEPT
    requires (next.nodeID, next.name, next.certificate) == (s.nodeID, s.name, s.certificate)
    ensures k in Encode(s).fields && k in Encode(next).fields && Encode(s).fields[k] == Encode(next).fields[k]
  {
    hide EncodeMap;
    hide Encode;
    RootMembers(s);
    RootMembers(next);
  }

  /** The edits of an accepted migration all find their place. */
  lemma MigrationFits(doc: Json, s: NodeState, a: nat, b: nat, next: NodeState)
    requires Moving(doc, s, a, b, next)
    requires a < 4 <= b ==> Entries(s.apps) == map[] && "reverse_proxy_rules" in doc.fields
    ensures Fits(Encode(s), Encode(next), doc)
  {
    hide Valid;
    hide DocOk;
    hide Carries;
    hide NodeMigrated;
    var x, y := Encode(s), Encode(next);
    forall k | k in x.fields && (k in y.fields ==> x.fields[k] != y.fields[k])
      ensures k in doc.fields && (k in y.fields ==> Fits(x.fields[k], y.fields[k], doc.fields[k]))
    {
      hide Moving;
      hide Encode;
      RootKeys(s);
      if k in SCALARS_KEPT {
        AppsUnchanged(doc, s, a, b, next);
        SameElsewhere(doc, s, a, b, next);
        KeptMembers(s, next, k);
      } else if k in TEXTS_CHANGED {
        ChangedText(doc, s, a, b, next, k);
      } else {
        ChangedMap(doc, s, a, b, next, k);
      }
    }
  }

  lemma ChangedText(doc: Json, s: NodeState, a: nat, b: nat, next: NodeState, k: string)
    requires Moving(doc, s, a, b, next) && k in TEXTS_CHANGED && k in Encode(s).fields
    ensures k in doc.fields && (k in Encode(next).fields ==> Fits(Encode(s).fields[k], Encode(next).fields[k], doc.fields[k]))
  {
    hide Moving;
    hide Merged;
    TextsMerged(doc, s, a, b, next);
    WrittenTestField(s);
    assert Encode(s).fields[k].Str? by {
      RootMembers(s);
    }
  }

  lemma ChangedMap(doc: Json, s: NodeState, a: nat, b: nat, next: NodeState, k: string)
    requires Moving(doc, s, a, b, next) && k in MAPS_CHANGED
    requires a < 4 <= b ==> "reverse_proxy_rules" in doc.fields
    ensures k in Encode(s).fields && k in Encode(next).fields
    ensures Encode(s).fields[k] != Encode(next).fields[k] ==> k in doc.fields
    ensures k in doc.fields ==> Fits(Encode(s).fields[k], Encode(next).fields[k], doc.fields[k])
  {
    hide Fits;
    hide Merged;
    hide Valid;
    RootMembers(s);
    RootMembers(next);
    UserMemberMerged(doc, s, a, b, next);
    RuleMemberMerged(doc, s, a, b, next);
  }

  lemma SameElsewhere(doc: Json, s: NodeState, a: nat, b: nat, next: NodeState)
    requires Moving(doc, s, a, b, next)
    ensures next.processes == s.processes && (next.nodeID, next.name, next.certificate) == (s.nodeID, s.name, s.certificate)
  {
  }

  // ---------------------------------------------------------------- the schema of the new version

  lemma AppsPort(a: nat, b: nat, m: map<string, Installation>, d: Json)
    requires d.Obj? && DecodeEntries(d.fields, DecodeApp) == Some(m) && EntriesOk(AppFields(a), AppRequired(a), d)
    requires m != map[] ==> a >= 4 && b >= 4
    requires forall k :: k in m ==> m[k].driver in Drivers(b)
    ensures EntriesOk(AppFields(b), AppRequired(b), d)
  {
    forall k | k in d.fields
      ensures EntryOk(AppFields(b), AppRequired(b), d.fields[k])
    {
      assert k in m && m[k] == DecodeApp(d.fields[k]).value;
      AppPorts(a, b, m[k], d.fields[k]);
    }
  }

  lemma EntryPorts(t: map<string, FieldType>, u: map<string, FieldType>, e: Json)
    requires EntryOk(t, t.Keys, e) && t.Keys == u.Keys && "driver" in t
    requires forall k :: k in t && k != "driver" ==> t[k] == u[k]
    requires FieldOk(u["driver"], e.fields["driver"])
    ensures EntryOk(u, u.Keys, e)
  {
  }

  lemma SameAppTypes(a: nat, b: nat, k: string)
    requires a >= 4 && b >= 4 && k in AppFields(a) && k != "driver"
    ensures k in AppFields(b) && AppFields(a)[k] == AppFields(b)[k]
  {
  }

  /** The field types of two versions differ at most in the drivers. */
  lemma SameAppFields(a: nat, b: nat)
    requires a >= 4 && b >= 4
    ensures AppFields(a).Keys == AppFields(b).Keys == AppRequired(a) == AppRequired(b)
    ensures "driver" in AppFields(b) && AppFields(b)["driver"] == Enum(Drivers(b))
    ensures forall k :: k in AppFields(a) && k != "driver" ==> AppFields(a)[k] == AppFields(b)[k]
  {
    AppFieldTypes(a);
    AppFieldTypes(b);
    hide AppFields;
    hide Drivers;
    forall k | k in AppFields(a) && k != "driver"
      ensures AppFields(a)[k] == AppFields(b)[k]
    {
      SameAppTypes(a, b, k);
    }
  }

  lemma AppPorts(a: nat, b: nat, x: Installation, e: Json)
    requires a >= 4 && b >= 4 && DecodeApp(e) == Some(x) && EntryOk(AppFields(a), AppRequired(a), e) && x.driver in Drivers(b)
    ensures EntryOk(AppFields(b), AppRequired(b), e)
  {
    hide AppFields;
    hide AppRequired;
    hide Drivers;
    SameAppFields(a, b);
    SameAppFields(b, a);
    DriverRead(e);
    hide DecodeApp;
    EntryPorts(AppFields(a), AppFields(b), e);
  }

  lemma DriverRead(e: Json)
    requires DecodeApp(e).Some?
    ensures e.Obj? && TextMember(e.fields, "driver") == Some(DecodeApp(e).value.driver)
  {
  }

  /** A recorded process fits no other version: v0.0.8 drops a field that earlier versions require. */
  lemma ProcessesPort(a: nat, b: nat, d: Json)
    requires a != b && (a == 8 || b == 8) && 1 <= a <= 8 && 1 <= b <= 8 && EntriesOk(ProcessFields(a), ProcessRequired(a), d)
    ensures EntriesOk(ProcessFields(b), ProcessRequired(b), d) <==> d.fields == map[]
  {
    if d.fields != map[] {
      var k :| k in d.fields;
      assert EntryOk(ProcessFields(a), ProcessRequired(a), d.fields[k]);
      assert !EntryOk(ProcessFields(b), ProcessRequired(b), d.fields[k]) by {
        assert "driver" in ProcessFields(b) <==> b < 8;
        assert "driver" in ProcessRequired(b) <==> b < 8;
        assert "driver" in ProcessFields(a) <==> a < 8;
      }
    }
  }

  // ---------------------------------------------------------------- the whole document

  lemma SameRead(f: map<string, Json>, g: map<string, Json>)
    requires SameAt(g, f, "node_id") && SameAt(g, f, "name") && SameAt(g, f, "certificate")
    requires SameAt(g, f, "processes") && SameAt(g, f, "app_installations")
    ensures TextMember(g, "node_id") == TextMember(f, "node_id") && TextMember(g, "name") == TextMember(f, "name")
    ensures TextMember(g, "certificate") == TextMember(f, "certificate")
    ensures MapMember(g, "processes", DecodeProcess) == MapMember(f, "processes", DecodeProcess)
    ensures MapMember(g, "app_installations", DecodeApp) == MapMember(f, "app_installations", DecodeApp)
  {
    hide DecodeProcess;
    hide DecodeApp;
  }

  /** The merged document decodes to the migrated record. */
  lemma MergedDecodes(doc: Json, s: NodeState, a: nat, b: nat, next: NodeState)
    requires Moving(doc, s, a, b, next)
    requires a < 4 <= b ==> Entries(s.apps) == map[] && "reverse_proxy_rules" in doc.fields
    ensures Decode(Merged(Encode(s), Encode(next), doc)) == Some(next)
  {
    var m := Merged(Encode(s), Encode(next), doc);
    SameElsewhere(doc, s, a, b, next);
    AppsUnchanged(doc, s, a, b, next);
    DecodedScalars(doc);
    DecodedMaps(doc);
    RestMerged(doc, s, a, b, next);
    TextsMerged(doc, s, a, b, next);
    UserMemberMerged(doc, s, a, b, next);
    RuleMemberMerged(doc, s, a, b, next);
    assert Decode(doc) == Some(s);
    hide Moving;
    hide Encode;
    hide Decode;
    hide Merged;
    hide SameAt;
    hide MapMember;
    hide TextMember;
    SameRead(doc.fields, m.fields);
    DecodeFrom(m.fields, next);
  }

  /** The installations and processes of the document, and what the new version allows of them. */
  lemma Held(doc: Json, s: NodeState, a: nat, b: nat, next: NodeState)
    requires Moving(doc, s, a, b, next)
    ensures doc.Obj? && s.apps.Some? && s.processes.Some?
    ensures "app_installations" in doc.fields && "processes" in doc.fields
    ensures EntriesOk(AppFields(a), AppRequired(a), doc.fields["app_installations"])
    ensures EntriesOk(ProcessFields(a), ProcessRequired(a), doc.fields["processes"])
    ensures doc.fields["app_installations"].Obj? && doc.fields["processes"].Obj?
    ensures DecodeEntries(doc.fields["app_installations"].fields, DecodeApp) == s.apps
    ensures DecodeEntries(doc.fields["processes"].fields, DecodeProcess) == s.processes
  {
    hide NodeMigrated;
    DecodedMaps(doc);
  }

  lemma Allowed(doc: Json, s: NodeState, a: nat, b: nat, next: NodeState)
    requires Moving(doc, s, a, b, next)
    ensures s.apps.Some? && s.processes.Some?
    ensures forall k :: k in s.apps.value ==> b >= 4 && s.apps.value[k].driver in Drivers(b)
    ensures forall k :: k in s.processes.value ==> b == 8
  {
    hide NodeMigrated;
    hide DocOk;
    hide Decode;
    hide Drivers;
    forall k | k in s.apps.value
      ensures b >= 4 && s.apps.value[k].driver in Drivers(b)
    {
      assert AppFits(b, next.apps.value[k]);
    }
  }

  lemma AppsMemberOk(doc: Json, s: NodeState, a: nat, b: nat, next: NodeState)
    requires Moving(doc, s, a, b, next) && (a < 4 <= b ==> Entries(s.apps) == map[])
    ensures "app_installations" in doc.fields
    ensures EntriesOk(AppFields(b), AppRequired(b), doc.fields["app_installations"])
    ensures a < 4 <= b ==> MemberFields(doc, "app_installations") == map[]
  {
    hide Moving;
    hide AppFields;
    hide AppRequired;
    hide EntriesOk;
    hide Drivers;
    hide DecodeApp;
    Held(doc, s, a, b, next);
    Allowed(doc, s, a, b, next);
    AppsPort(a, b, s.apps.value, doc.fields["app_installations"]);
  }

  lemma ProcessesMemberOk(doc: Json, s: NodeState, a: nat, b: nat, next: NodeState)
    requires Moving(doc, s, a, b, next)
    ensures "processes" in doc.fields
    ensures EntriesOk(ProcessFields(b), ProcessRequired(b), doc.fields["processes"]) <==> MemberFields(doc, "processes") == map[]
  {
    Held(doc, s, a, b, next);
    Allowed(doc, s, a, b, next);
    assert 1 <= a <= 8 && 1 <= b <= 8 && a != b;
    hide Moving;
    hide ProcessFields;
    hide ProcessRequired;
    hide EntryOk;
    hide DecodeProcess;
    var d := doc.fields["processes"];
    assert d.fields.Keys == s.processes.value.Keys;
    if b == 8 {
      ProcessesPort(a, b, d);
    } else {
      assert d.fields == map[];
    }
  }

  lemma RulesMemberOk(doc: Json, s: NodeState, a: nat, b: nat, next: NodeState, g: map<string, Json>)
    requires Moving(doc, s, a, b, next) && Encode(s).Obj? && Encode(next).Obj?
    requires "reverse_proxy_rules" in Encode(s).fields && "reverse_proxy_rules" in Encode(next).fields
    requires RuleMember(a, b, Encode(s), Encode(next), doc, g, next.rules)
    ensures b >= 4 && "reverse_proxy_rules" in g ==> EntriesOk(RULE_FIELDS, RULE_REQUIRED, g["reverse_proxy_rules"])
  {
    hide Valid;
    hide NodeMigrated;
    hide Encode;
    hide Decode;
  }

  lemma MergedFits(a: nat, b: nat, f: map<string, Json>, g: map<string, Json>, usersOk: bool, processesOk: bool)
    requires DocOk(a, Obj(f))
    requires SameAt(g, f, "node_id") && SameAt(g, f, "name") && SameAt(g, f, "certificate")
    requires SameAt(g, f, "processes") && SameAt(g, f, "app_installations")
    requires TextIfPresent(g, "schema_version") && (b == 2 ==> TextIfPresent(g, "test_field"))
    requires "users" in g && (EntriesOk(UserFields(b), USER_REQUIRED, g["users"]) <==> usersOk)
    requires "app_installations" in f && EntriesOk(AppFields(b), AppRequired(b), f["app_installations"])
    requires "processes" in f && (EntriesOk(ProcessFields(b), ProcessRequired(b), f["processes"]) <==> processesOk)
    requires b >= 4 && "reverse_proxy_rules" in g ==> EntriesOk(RULE_FIELDS, RULE_REQUIRED, g["reverse_proxy_rules"])
    ensures DocOk(b, Obj(g)) <==> usersOk && processesOk
  {
    hide EntriesOk;
  }

  /** The merged document fits the schema of the new version exactly when the document was portable. */
  lemma MergedOk(doc: Json, s: NodeState, a: nat, b: nat, next: NodeState)
    requires Moving(doc, s, a, b, next)
    requires a < 4 <= b ==> Entries(s.apps) == map[] && "reverse_proxy_rules" in doc.fields
    ensures DocOk(b, Merged(Encode(s), Encode(next), doc)) <==> Portable(doc, a, b)
  {
    var m := Merged(Encode(s), Encode(next), doc);
    var users := MemberFields(doc, "users");
    var usersOk := b < 5 <= a ==> forall k :: k in users ==> !WritesEmptyDid(users[k]);
    var processesOk := MemberFields(doc, "processes") == map[];
    RestMerged(doc, s, a, b, next);
    TextsMerged(doc, s, a, b, next);
    UserMemberMerged(doc, s, a, b, next);
    RuleMemberMerged(doc, s, a, b, next);
    AppsMemberOk(doc, s, a, b, next);
    ProcessesMemberOk(doc, s, a, b, next);
    RulesMemberOk(doc, s, a, b, next, m.fields);
    assert DocOk(a, Obj(doc.fields));
    hide Moving;
    hide DocOk;
    hide EntriesOk;
    hide WritesEmptyDid;
    hide SameAt;
    hide Encode;
    hide Merged;
    hide MapMember;
    MergedFits(a, b, doc.fields, m.fields, usersOk, processesOk);
  }

  /** A valid document of any origin is migrated exactly when its record accepts the migration and the
      document is portable; the new document then decodes to the migrated record. */
  lemma MigrateDocument(doc: Json, target: string)
    requires ValidateState(doc)
    ensures var s := Decode(doc).value; var r := ProposeOne(Migrate(target), doc);
      && (r.Some? <==> Accepts(Migrate(target), s) && Portable(doc, Version(s), SchemaIndex(target)))
      && (r.Some? ==> Decode(r.value) == Some(Update(Migrate(target), s)))
  {
    hide Portable;
    hide Moving;
    hide NodeMigrated;
    var s := Decode(doc).value;
    MigrateChecks(s, target);
    if Accepts(Migrate(target), s) {
      var a, b, next := Version(s), SchemaIndex(target), Update(Migrate(target), s);
      MovingFrom(doc, s, target, next);
      if a < 4 <= b && (Entries(s.apps) != map[] || "reverse_proxy_rules" !in doc.fields) {
        OldDocumentStuck(doc, target);
        NotPortable(doc, s, a, b, next);
      } else {
        MovesOrFails(doc, s, target, a, b, next);
      }
    }
  }

  lemma MovingFrom(doc: Json, s: NodeState, target: string, next: NodeState)
    requires ValidateState(doc) && Decode(doc) == Some(s) && Accepts(Migrate(target), s) && next == Update(Migrate(target), s)
    ensures doc.Obj? && Moving(doc, s, Version(s), SchemaIndex(target), next) && target == NAMES[SchemaIndex(target)]
  {
    AcceptedCarries(s, target);
    IndexIsPlace(s.schemaVersion);
    IndexIsPlace(target);
    Shape(doc);
  }

  lemma NotPortable(doc: Json, s: NodeState, a: nat, b: nat, next: NodeState)
    requires Moving(doc, s, a, b, next) && a < 4 <= b
    requires Entries(s.apps) != map[] || "reverse_proxy_rules" !in doc.fields
    ensures !Portable(doc, a, b)
  {
    DecodedMaps(doc);
  }

  lemma MovesOrFails(doc: Json, s: NodeState, target: string, a: nat, b: nat, next: NodeState)
    requires ValidateState(doc) && Moving(doc, s, a, b, next) && target == NAMES[b]
    requires Accepts(Migrate(target), s) && next == Update(Migrate(target), s)
    requires a < 4 <= b ==> Entries(s.apps) == map[] && "reverse_proxy_rules" in doc.fields
    ensures ProposeOne(Migrate(target), doc) ==
            if Portable(doc, a, b) then Some(Merged(Encode(s), Encode(next), doc)) else None
    ensures Decode(Merged(Encode(s), Encode(next), doc)) == Some(next)
  {
    MigrationFits(doc, s, a, b, next);
    MergeApplies(Encode(s), Encode(next), doc);
    FormatApplies(Edits(Encode(s), Encode(next)), doc);
    MergedDecodes(doc, s, a, b, next);
    MergedOk(doc, s, a, b, next);
    MigrateChecks(s, target);
    var m := Merged(Encode(s), Encode(next), doc);
    assert ValidateState(m) <==> DocOk(b, m) by {
      hide DocOk;
      hide Merged;
    }
    AppliedDiff(doc, s, target, next, m);
  }

  lemma AppliedDiff(doc: Json, s: NodeState, target: string, next: NodeState, m: Json)
    requires Decode(doc) == Some(s) && Accepts(Migrate(target), s) && next == Update(Migrate(target), s)
    requires Check(Migrate(target), s) && Apply(Diff(Encode(s), Encode(next)), doc) == Some(m)
    ensures ProposeOne(Migrate(target), doc) == if ValidateState(m) then Some(m) else None
  {
    hide ValidateState;
  }

  /** A migration leaves every other root member of the document, known or not, as it was. */
  lemma MigrationKeepsOthers(doc: Json, target: string, k: string)
    requires ValidateState(doc) && ProposeOne(Migrate(target), doc).Some?
    requires k !in TEXTS_CHANGED + MAPS_CHANGED
    ensures doc.Obj? && ProposeOne(Migrate(target), doc).value.Obj?
    ensures SameAt(ProposeOne(Migrate(target), doc).value.fields, doc.fields, k)
  {
    hide TEXTS_CHANGED;
    hide MAPS_CHANGED;
    hide ProposeOne;
    hide Portable;
    hide Moving;
    hide SameAt;
    var s := Decode(doc).value;
    MigrateDocument(doc, target);
    hide ValidateState;
    hide Accepts;
    hide Update;
    hide Decode;
    hide SchemaIndex;
    MovingFrom(doc, s, target, Update(Migrate(target), s));
    KeepsOthers(doc, s, target, Version(s), SchemaIndex(target), Update(Migrate(target), s), k);
  }

  lemma KeepsOthers(doc: Json, s: NodeState, target: string, a: nat, b: nat, next: NodeState, k: string)
    requires ValidateState(doc) && Moving(doc, s, a, b, next) && target == NAMES[b] && Portable(doc, a, b)
    requires Accepts(Migrate(target), s) && next == Update(Migrate(target), s)
    requires k !in TEXTS_CHANGED + MAPS_CHANGED
    ensures ProposeOne(Migrate(target), doc).Some? && ProposeOne(Migrate(target), doc).value.Obj?
    ensures SameAt(ProposeOne(Migrate(target), doc).value.fields, doc.fields, k)
  {
    hide ValidateState;
    hide ProposeOne;
    hide Portable;
    hide Accepts;
    hide Update;
    hide Merged;
    hide Encode;
    hide Decode;
    hide Carries;
    hide Valid;
    hide NodeMigrated;
    hide DocOk;
    PortableApps(doc, s, a, b, next);
    MovesOrFails(doc, s, target, a, b, next);
    OtherMerged(doc, s, a, b, next, k);
  }

  lemma PortableApps(doc: Json, s: NodeState, a: nat, b: nat, next: NodeState)
    requires Moving(doc, s, a, b, next) && Portable(doc, a, b)
    ensures a < 4 <= b ==> Entries(s.apps) == map[] && "reverse_proxy_rules" in doc.fields
  {
    if a < 4 <= b && Entries(s.apps) != map[] {
      NotPortable(doc, s, a, b, next);
    }
  }

  lemma OtherMerged(doc: Json, s: NodeState, a: nat, b: nat, next: NodeState, k: string)
    requires Moving(doc, s, a, b, next) && (a < 4 <= b ==> Entries(s.apps) == map[])
    requires k !in TEXTS_CHANGED + MAPS_CHANGED
    ensures Merged(Encode(s), Encode(next), doc).Obj? && SameAt(Merged(Encode(s), Encode(next), doc).fields, doc.fields, k)
  {
    hide Merged;
    if k in SCALARS_KEPT {
      RestMerged(doc, s, a, b, next);
    } else {
      NamesDiffer(a, b);
      VersionsDiffer(s, next);
      RootKeys(s);
      RootKeys(next);
      MergedMember(Encode(s), Encode(next), doc, k);
    }
  }
}

/** What replacing one of the four entry maps of a state document does: to its decoded record, to
    its schema, and to the written form of a record. */
module Documents {
  import opened Options
  import opened Json
  import opened State
  import opened Schema

  function MemberFields(doc: Json, member: string): map<string, Json>
  {
    if doc.Obj? && member in doc.fields && doc.fields[member].Obj? then doc.fields[member].fields else map[]
  }

  function SetMember(doc: Json, member: string, g: map<string, Json>): Json
    requires doc.Obj?
  {
    Obj(doc.fields[member := Obj(g)])
  }

  function MemberPath(member: string, id: string): string
  {
    "/" + member + "/" + id
  }

  const MEMBERS := {"users", "processes", "app_installations", "reverse_proxy_rules"}

  lemma MembersPlain()
    ensures forall m :: m in MEMBERS ==> Plain(m)
    ensures Plain("state")
  {
    assert Plain("users");
    assert Plain("processes");
    assert Plain("app_installations");
    assert Plain("reverse_proxy_rules");
  }

  // ---------------------------------------------------------------- one patch operation

  lemma ApplyOne(op: Op, doc: Json)
    ensures Apply([op], doc) == ApplyOp(op, doc)
  {
    assert [op][1..] == [];
    if ApplyOp(op, doc).Some? {
      assert Apply([], ApplyOp(op, doc).value) == ApplyOp(op, doc);
    }
  }

  lemma ApplyTwoTokens(a: string, b: string, e: Edit, doc: Json)
    requires doc.Obj? && (a in doc.fields ==> doc.fields[a].Obj? || doc.fields[a].Null?)
    ensures var g := MemberFields(doc, a);
      ApplyAt([a, b], e, doc) ==
      if a !in doc.fields || doc.fields[a].Null? || (!e.Add? && b !in g) then None
      else Some(SetMember(doc, a, if e.Remove? then g - {b} else g[b := e.value]))
  {
    assert [a, b][1..] == [b];
  }

  /** An operation at "/member/id": the member must be an object, and so must the entry exist unless
      it is added. */
  lemma ApplyEntryOp(doc: Json, member: string, id: string, e: Edit)
    requires doc.Obj? && (member in doc.fields ==> doc.fields[member].Obj? || doc.fields[member].Null?)
    requires member in MEMBERS && Plain(id)
    ensures var g := MemberFields(doc, member);
      Apply([Op(MemberPath(member, id), e)], doc) ==
      if member !in doc.fields || doc.fields[member].Null? || (!e.Add? && id !in g) then None
      else Some(SetMember(doc, member, if e.Remove? then g - {id} else g[id := e.value]))
  {
    MembersPlain();
    ApplyOne(Op(MemberPath(member, id), e), doc);
    MemberPointer(member, id);
    ApplyTwoTokens(member, id, e, doc);
  }

  lemma ReplaceEntryField(doc: Json, member: string, id: string, field: string, j: Json)
    requires doc.Obj? && member in doc.fields && doc.fields[member].Obj?
    requires member in MEMBERS && Plain(id) && field == "state"
    requires id in MemberFields(doc, member) && MemberFields(doc, member)[id].Obj?
    requires field in MemberFields(doc, member)[id].fields
    ensures var g := MemberFields(doc, member);
      Apply([Op("/" + member + "/" + id + "/" + field, Replace(j))], doc) ==
      Some(SetMember(doc, member, g[id := Obj(g[id].fields[field := j])]))
  {
    MembersPlain();
    ApplyOne(Op("/" + member + "/" + id + "/" + field, Replace(j)), doc);
    MemberFieldPointer(member, id, field);
    assert [member, id, field][1..] == [id, field];
    ApplyTwoTokens(id, field, Replace(j), doc.fields[member]);
  }

  // ---------------------------------------------------------------- decoding

  lemma DecodeEntriesSet<T(!new)>(g: map<string, Json>, id: string, j: Json, decode: Json -> Option<T>)
    requires DecodeEntries(g, decode).Some? && decode(j).Some?
    ensures DecodeEntries(g[id := j], decode) == Some(DecodeEntries(g, decode).value[id := decode(j).value])
  {
    assert DecodeEntries(g[id := j], decode).value == DecodeEntries(g, decode).value[id := decode(j).value];
  }

  lemma DecodeEntriesDrop<T(!new)>(g: map<string, Json>, id: string, decode: Json -> Option<T>)
    requires DecodeEntries(g, decode).Some?
    ensures DecodeEntries(g - {id}, decode) == Some(DecodeEntries(g, decode).value - {id})
  {
    assert DecodeEntries(g - {id}, decode).value == DecodeEntries(g, decode).value - {id};
  }

  /** Two objects that agree on every member a record is read from, except the entry maps. */
  lemma SameScalars(f: map<string, Json>, member: string, g: map<string, Json>)
    requires member in MEMBERS
    ensures var f' := f[member := Obj(g)];
      && TextMember(f', "node_id") == TextMember(f, "node_id")
      && TextMember(f', "name") == TextMember(f, "name")
      && TextMember(f', "certificate") == TextMember(f, "certificate")
      && TextMember(f', "schema_version") == TextMember(f, "schema_version")
      && TextMember(f', "test_field") == TextMember(f, "test_field")
  {
  }

  lemma DecodeSetUsers(doc: Json, g: map<string, Json>)
    requires doc.Obj? && Decode(doc).Some? && DecodeEntries(g, DecodeUser).Some?
    ensures Decode(SetMember(doc, "users", g)) ==
            Some(Decode(doc).value.(users := Some(DecodeEntries(g, DecodeUser).value)))
  {
    SameScalars(doc.fields, "users", g);
  }

  lemma DecodeSetProcesses(doc: Json, g: map<string, Json>)
    requires doc.Obj? && Decode(doc).Some? && DecodeEntries(g, DecodeProcess).Some?
    ensures Decode(SetMember(doc, "processes", g)) ==
            Some(Decode(doc).value.(processes := Some(DecodeEntries(g, DecodeProcess).value)))
  {
    SameScalars(doc.fields, "processes", g);
  }

  lemma DecodeSetApps(doc: Json, g: map<string, Json>)
    requires doc.Obj? && Decode(doc).Some? && DecodeEntries(g, DecodeApp).Some?
    ensures Decode(SetMember(doc, "app_installations", g)) ==
            Some(Decode(doc).value.(apps := Some(DecodeEntries(g, DecodeApp).value)))
  {
    SameScalars(doc.fields, "app_installations", g);
  }

  lemma DecodeSetRules(doc: Json, g: map<string, Json>)
    requires doc.Obj? && Decode(doc).Some? && DecodeEntries(g, DecodeRule).Some?
    ensures Decode(SetMember(doc, "reverse_proxy_rules", g)) ==
            Some(Decode(doc).value.(rules := Some(DecodeEntries(g, DecodeRule).value)))
  {
    SameScalars(doc.fields, "reverse_proxy_rules", g);
  }

  // ---------------------------------------------------------------- schema

  lemma DocOkSetUsers(v: nat, doc: Json, g: map<string, Json>)
    requires DocOk(v, doc)
    ensures DocOk(v, SetMember(doc, "users", g)) <==> EntriesOk(UserFields(v), USER_REQUIRED, Obj(g))
  {
  }

  lemma DocOkSetProcesses(v: nat, doc: Json, g: map<string, Json>)
    requires DocOk(v, doc)
    ensures DocOk(v, SetMember(doc, "processes", g)) <==> EntriesOk(ProcessFields(v), ProcessRequired(v), Obj(g))
  {
  }

  lemma DocOkSetApps(v: nat, doc: Json, g: map<string, Json>)
    requires DocOk(v, doc)
    ensures DocOk(v, SetMember(doc, "app_installations", g)) <==> EntriesOk(AppFields(v), AppRequired(v), Obj(g))
  {
  }

  lemma DocOkSetRules(v: nat, doc: Json, g: map<string, Json>)
    requires DocOk(v, doc)
    ensures DocOk(v, SetMember(doc, "reverse_proxy_rules", g)) <==>
            (v >= 4 ==> EntriesOk(RULE_FIELDS, RULE_REQUIRED, Obj(g)))
  {
  }

  lemma EntriesOkSet(fields: map<string, FieldType>, required: set<string>, g: map<string, Json>, id: string, j: Json)
    requires EntriesOk(fields, required, Obj(g))
    ensures EntriesOk(fields, required, Obj(g[id := j])) <==> EntryOk(fields, required, j)
    ensures EntriesOk(fields, required, Obj(g - {id}))
  {
    assert g[id := j][id] == j;
  }

  // ---------------------------------------------------------------- written records

  lemma EncodeEntriesSet<T(!new)>(m: map<string, T>, id: string, x: T, encode: T -> Json)
    ensures EncodeEntries(m, encode)[id := encode(x)] == EncodeEntries(m[id := x], encode)
    ensures EncodeEntries(m, encode) - {id} == EncodeEntries(m - {id}, encode)
  {
  }

  lemma SetRight(a: map<string, Json>, c: map<string, Json>, k: string, x: Json)
    ensures (a + c)[k := x] == a + c[k := x]
  {
  }

  lemma SetContainer(u: Json, p: Json, i: Json, r: Json, x: Json)
    ensures Containers(u, p, i, r)["users" := x] == Containers(x, p, i, r)
    ensures Containers(u, p, i, r)["processes" := x] == Containers(u, x, i, r)
    ensures Containers(u, p, i, r)["app_installations" := x] == Containers(u, p, x, r)
    ensures Containers(u, p, i, r)["reverse_proxy_rules" := x] == Containers(u, p, i, x)
  {
    var c := Containers(u, p, i, r);
    SameContainers(c["users" := x], Containers(x, p, i, r));
    SameContainers(c["processes" := x], Containers(u, x, i, r));
    SameContainers(c["app_installations" := x], Containers(u, p, x, r));
    SameContainers(c["reverse_proxy_rules" := x], Containers(u, p, i, x));
  }

  lemma SameContainers(m: map<string, Json>, n: map<string, Json>)
    requires m.Keys == {"users", "processes", "app_installations", "reverse_proxy_rules"} == n.Keys
    requires m["users"] == n["users"] && m["processes"] == n["processes"]
    requires m["app_installations"] == n["app_installations"] && m["reverse_proxy_rules"] == n["reverse_proxy_rules"]
    ensures m == n
  {
  }

  /** Setting an entry map in a written record writes the record with that map. */
  lemma SetEncoded(s: NodeState, users: map<string, User>, processes: map<string, Process>,
                   apps: map<string, Installation>, rules: map<string, Rule>)
    ensures SetMember(Encode(s), "users", EncodeEntries(users, EncodeUser)) == Encode(s.(users := Some(users)))
    ensures SetMember(Encode(s), "processes", EncodeEntries(processes, EncodeProcess)) == Encode(s.(processes := Some(processes)))
    ensures SetMember(Encode(s), "app_installations", EncodeEntries(apps, EncodeApp)) == Encode(s.(apps := Some(apps)))
    ensures SetMember(Encode(s), "reverse_proxy_rules", EncodeEntries(rules, EncodeRule)) == Encode(s.(rules := Some(rules)))
  {
    var a := Scalars(s.nodeID, s.name, s.certificate, s.schemaVersion, s.testField);
    var u, p := EncodeMap(s.users, EncodeUser), EncodeMap(s.processes, EncodeProcess);
    var i, r := EncodeMap(s.apps, EncodeApp), EncodeMap(s.rules, EncodeRule);
    var c := Containers(u, p, i, r);
    var j0, j1 := Obj(EncodeEntries(users, EncodeUser)), Obj(EncodeEntries(processes, EncodeProcess));
    var j2, j3 := Obj(EncodeEntries(apps, EncodeApp)), Obj(EncodeEntries(rules, EncodeRule));
    SetContainer(u, p, i, r, j0);
    SetContainer(u, p, i, r, j1);
    SetContainer(u, p, i, r, j2);
    SetContainer(u, p, i, r, j3);
    SetRight(a, c, "users", j0);
    SetRight(a, c, "processes", j1);
    SetRight(a, c, "app_installations", j2);
    SetRight(a, c, "reverse_proxy_rules", j3);
  }
}

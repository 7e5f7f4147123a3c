/** JSON documents as trees, JSON Pointers (RFC 6901), JSON Patch (RFC 6902) as
    github.com/evanphx/json-patch applies it, and the object diff of github.com/wI2L/jsondiff. */
module Json {
  import opened Options
  import opened Text

  datatype Json =
    | Null
    | Bool(b: bool)
    | Num(n: real)
    | Str(s: string)
    | Arr(items: seq<Json>)
    | Obj(fields: map<string, Json>)

  // ---------------------------------------------------------------- pointers

  function Escape(s: string): string
  {
    if s == "" then ""
    else (if s[0] == '~' then "~0" else if s[0] == '/' then "~1" else [s[0]]) + Escape(s[1..])
  }

  function Unescape(s: string): string
  {
    if |s| < 2 then s
    else if s[0] == '~' && s[1] == '0' then "~" + Unescape(s[2..])
    else if s[0] == '~' && s[1] == '1' then "/" + Unescape(s[2..])
    else [s[0]] + Unescape(s[1..])
  }

  function UnescapeAll(parts: seq<string>): (r: seq<string>)
    ensures |r| == |parts|
    ensures forall i :: 0 <= i < |r| ==> r[i] == Unescape(parts[i])
  {
    if parts == [] then [] else [Unescape(parts[0])] + UnescapeAll(parts[1..])
  }

  /** The reference tokens of a pointer; a non-empty pointer starts with '/'. */
  function ParsePointer(p: string): Option<seq<string>>
  {
    if p == "" then Some([])
    else if p[0] != '/' then None
    else Some(UnescapeAll(Split(p[1..], '/')))
  }

  function FormatPointer(tokens: seq<string>): string
  {
    if tokens == [] then "" else "/" + Escape(tokens[0]) + FormatPointer(tokens[1..])
  }

  /** Texts that stand for themselves inside a pointer. */
  predicate Plain(id: string)
  {
    && '/' !in id
    && forall i :: 0 <= i < |id| - 1 && id[i] == '~' ==> id[i + 1] != '0' && id[i + 1] != '1'
  }

  lemma {:induction false} UnescapeShortens(s: string)
    ensures |Unescape(s)| <= |s|
    ensures |Unescape(s)| == |s| ==>
              Unescape(s) == s && forall i :: 0 <= i < |s| - 1 && s[i] == '~' ==> s[i + 1] != '0' && s[i + 1] != '1'
    ensures (forall i :: 0 <= i < |s| - 1 && s[i] == '~' ==> s[i + 1] != '0' && s[i + 1] != '1') ==> Unescape(s) == s
  {
    if |s| >= 2 {
      if s[0] == '~' && (s[1] == '0' || s[1] == '1') {
        UnescapeShortens(s[2..]);
        assert !(forall i :: 0 <= i < |s| - 1 && s[i] == '~' ==> s[i + 1] != '0' && s[i + 1] != '1') by {
          assert s[0] == '~' && !(s[0 + 1] != '0' && s[0 + 1] != '1');
        }
      } else {
        var rest := s[1..];
        UnescapeShortens(rest);
        assert s == [s[0]] + rest;
        if forall i :: 0 <= i < |rest| - 1 && rest[i] == '~' ==> rest[i + 1] != '0' && rest[i + 1] != '1' {
          forall i | 0 <= i < |s| - 1 && s[i] == '~'
            ensures s[i + 1] != '0' && s[i + 1] != '1'
          {
            if i > 0 {
              assert rest[i - 1] == '~';
              assert rest[i - 1 + 1] == s[i + 1];
            }
          }
        }
        if forall i :: 0 <= i < |s| - 1 && s[i] == '~' ==> s[i + 1] != '0' && s[i + 1] != '1' {
          forall i | 0 <= i < |rest| - 1 && rest[i] == '~'
            ensures rest[i + 1] != '0' && rest[i + 1] != '1'
          {
            assert s[i + 1] == '~';
            assert s[i + 1 + 1] == rest[i + 1];
          }
        }
      }
    }
  }

  /** The pointer "/member/id" built by text formatting addresses the member `id` of `member`
      exactly when `id` is plain. */
  lemma {:induction false} MemberPointer(member: string, id: string)
    requires Plain(member)
    ensures ParsePointer("/" + member + "/" + id) == Some([member, id]) <==> Plain(id)
  {
    var p := "/" + member + "/" + id;
    assert p[1..] == member + ['/'] + id;
    SplitFirst(member, '/', id);
    UnescapeShortens(member);
    UnescapeShortens(id);
    var parts := [member] + Split(id, '/');
    assert ParsePointer(p) == Some(UnescapeAll(parts));
    if '/' in id {
      SplitParts(id, '/');
      assert |UnescapeAll(parts)| >= 3;
    } else {
      SplitWhole(id, '/');
      assert parts == [member, id];
      assert UnescapeAll(parts) == [member, Unescape(id)];
      assert ParsePointer(p) == Some([member, id]) <==> Unescape(id) == id by {
        if Unescape(id) != id {
          assert [member, Unescape(id)][1] != [member, id][1];
        }
      }
    }
  }

  /** Pointers with a plain third token, such as "/app_installations/id/state", address that field of
      the entry `id` exactly when `id` is plain. */
  lemma {:induction false} MemberFieldPointer(member: string, id: string, field: string)
    requires Plain(member) && Plain(field)
    ensures ParsePointer("/" + member + "/" + id + "/" + field) == Some([member, id, field]) <==> Plain(id)
  {
    var p := "/" + member + "/" + id + "/" + field;
    var rest := id + ['/'] + field;
    assert p[1..] == member + ['/'] + rest;
    SplitFirst(member, '/', rest);
    UnescapeShortens(member);
    UnescapeShortens(id);
    UnescapeShortens(field);
    var parts := [member] + Split(rest, '/');
    assert ParsePointer(p) == Some(UnescapeAll(parts));
    if '/' in id {
      CountConcat(id + ['/'], field, '/');
      CountConcat(id, ['/'], '/');
      CountNone(id, '/');
      SplitCount(rest, '/');
      assert |UnescapeAll(parts)| >= 4;
    } else {
      SplitFirst(id, '/', field);
      SplitWhole(field, '/');
      assert parts == [member, id, field];
      assert UnescapeAll(parts) == [member, Unescape(id), field];
      if Unescape(id) != id {
        assert [member, Unescape(id), field][1] != [member, id, field][1];
      }
    }
  }

  lemma {:induction false} EscapeInverse(s: string)
    ensures Unescape(Escape(s)) == s
    ensures '/' !in Escape(s)
  {
    if s != "" {
      var e := Escape(s[1..]);
      EscapeInverse(s[1..]);
      assert s == [s[0]] + s[1..];
      if s[0] == '~' || s[0] == '/' {
        assert Escape(s)[2..] == e;
      } else {
        assert Escape(s) == [s[0]] + e;
        assert Escape(s)[1..] == e;
        if |Escape(s)| < 2 {
          assert e == "";
          assert Unescape("") == "";
        }
      }
    }
  }

  function EscapeAll(tokens: seq<string>): (r: seq<string>)
    ensures |r| == |tokens|
    ensures forall i :: 0 <= i < |r| ==> r[i] == Escape(tokens[i])
  {
    if tokens == [] then [] else [Escape(tokens[0])] + EscapeAll(tokens[1..])
  }

  lemma SplitAfter(e: string, rest: string, parts: seq<string>)
    requires '/' !in e
    requires if rest == "" then parts == [] else rest[0] == '/' && Split(rest[1..], '/') == parts
    ensures Split(e + rest, '/') == [e] + parts
  {
    if rest == "" {
      assert e + rest == e;
      SplitWhole(e, '/');
    } else {
      assert e + rest == e + ['/'] + rest[1..];
      SplitFirst(e, '/', rest[1..]);
    }
  }

  lemma AfterSlash(e: string, rest: string)
    ensures ("/" + e + rest)[0] == '/' && ("/" + e + rest)[1..] == e + rest
  {
  }

  lemma {:induction false} SplitFormatted(tokens: seq<string>)
    requires tokens != []
    ensures FormatPointer(tokens) != "" && FormatPointer(tokens)[0] == '/'
    ensures Split(FormatPointer(tokens)[1..], '/') == EscapeAll(tokens)
  {
    hide Split;
    hide Escape;
    var e, rest := Escape(tokens[0]), FormatPointer(tokens[1..]);
    assert FormatPointer(tokens) == "/" + e + rest;
    AfterSlash(e, rest);
    EscapeInverse(tokens[0]);
    if tokens[1..] != [] {
      SplitFormatted(tokens[1..]);
    }
    SplitAfter(e, rest, EscapeAll(tokens[1..]));
  }

  /** Formatting any token list and parsing it back is the identity. */
  lemma PointerRoundTrip(tokens: seq<string>)
    ensures ParsePointer(FormatPointer(tokens)) == Some(tokens)
  {
    if tokens != [] {
      SplitFormatted(tokens);
      forall i | 0 <= i < |tokens|
        ensures UnescapeAll(EscapeAll(tokens))[i] == tokens[i]
      {
        EscapeInverse(tokens[i]);
      }
      assert UnescapeAll(EscapeAll(tokens)) == tokens;
    }
  }

  // ---------------------------------------------------------------- patches

  datatype Edit = Add(value: Json) | Replace(value: Json) | Remove

  datatype Op = Op(path: string, edit: Edit)

  function ArrayIndex(token: string): Option<nat>
  {
    if IsNumber(token) then Some(Number(token)) else None
  }

  /** Sections 4.1 to 4.3 of RFC 6902 at a location given by its tokens. */
  function ApplyAt(tokens: seq<string>, e: Edit, doc: Json): Option<Json>
    decreases |tokens|
  {
    if tokens == [] then
      if e.Remove? then None else Some(e.value)
    else
      var k := tokens[0];
      match doc
      case Obj(f) =>
        if |tokens| > 1 then
          if k !in f then None
          else
            var child :- ApplyAt(tokens[1..], e, f[k]);
            Some(Obj(f[k := child]))
        else if e.Add? then Some(Obj(f[k := e.value]))
        else if k !in f then None
        else if e.Replace? then Some(Obj(f[k := e.value]))
        else Some(Obj(f - {k}))
      case Arr(xs) =>
        if |tokens| == 1 && e.Add? && k == "-" then Some(Arr(xs + [e.value]))
        else
          var i :- ArrayIndex(k);
          if |tokens| == 1 && e.Add? then
            if i <= |xs| then Some(Arr(xs[..i] + [e.value] + xs[i..])) else None
          else if i >= |xs| then None
          else if |tokens| > 1 then
            var child :- ApplyAt(tokens[1..], e, xs[i]);
            Some(Arr(xs[i := child]))
          else if e.Replace? then Some(Arr(xs[i := e.value]))
          else Some(Arr(xs[..i] + xs[i + 1..]))
      case _ => None
  }

  function ApplyOp(op: Op, doc: Json): Option<Json>
  {
    var tokens :- ParsePointer(op.path);
    ApplyAt(tokens, op.edit, doc)
  }

  /** A patch applies its operations in order and fails as a whole when one fails. */
  function Apply(ops: seq<Op>, doc: Json): Option<Json>
  {
    if ops == [] then Some(doc)
    else
      var next :- ApplyOp(ops[0], doc);
      Apply(ops[1..], next)
  }

  lemma {:induction false} ApplyConcat(a: seq<Op>, b: seq<Op>, doc: Json)
    ensures Apply(a + b, doc) == (if Apply(a, doc).Some? then Apply(b, Apply(a, doc).value) else None)
  {
    if a == [] {
      assert a + b == b;
    } else {
      assert (a + b)[1..] == a[1..] + b;
      if ApplyOp(a[0], doc).Some? {
        ApplyConcat(a[1..], b, ApplyOp(a[0], doc).value);
      }
    }
  }

  /** Array operations at an index: adding shifts the later items up, removing shifts them down, replacing
      changes that item only; each undoes what it should. */
  lemma ArrayOperations(xs: seq<Json>, k: string, v: Json)
    requires ArrayIndex(k).Some?
    ensures var i := ArrayIndex(k).value; var added := ApplyAt([k], Add(v), Arr(xs));
      && (added.Some? <==> i <= |xs|)
      && (added.Some? ==>
            && added.value.Arr? && |added.value.items| == |xs| + 1 && added.value.items[i] == v
            && (forall j :: 0 <= j < i ==> added.value.items[j] == xs[j])
            && (forall j :: i <= j < |xs| ==> added.value.items[j + 1] == xs[j])
            && ApplyAt([k], Remove, added.value) == Some(Arr(xs)))
      && ApplyAt([k], Replace(v), Arr(xs)) == (if i < |xs| then Some(Arr(xs[i := v])) else None)
  {
    var i := ArrayIndex(k).value;
    if i <= |xs| {
      var ys := xs[..i] + [v] + xs[i..];
      assert ys[..i] + ys[i + 1..] == xs;
    }
  }

  /** The token "-" adds at the end of an array. */
  lemma AppendOperation(xs: seq<Json>, v: Json)
    ensures ApplyAt(["-"], Add(v), Arr(xs)) == Some(Arr(xs + [v]))
  {
  }

  // ---------------------------------------------------------------- diff

  /** An edit at a location given by tokens, before its pointer is formatted. */
  datatype Located = Located(tokens: seq<string>, edit: Edit)

  function Under(k: string, es: seq<Located>): (r: seq<Located>)
    ensures |r| == |es|
  {
    if es == [] then [] else [es[0].(tokens := [k] + es[0].tokens)] + Under(k, es[1..])
  }

  /** Objects are compared member by member in ascending key order; anything else that differs is
      replaced. */
  function Edits(a: Json, b: Json): seq<Located>
    decreases a, 1, 0
  {
    if a == b then []
    else if a.Obj? && b.Obj? then MemberEdits(a, b, Sorted(a.fields.Keys + b.fields.Keys))
    else [Located([], Replace(b))]
  }

  function MemberEdits(a: Json, b: Json, keys: seq<string>): seq<Located>
    requires a.Obj? && b.Obj?
    requires forall k :: k in keys ==> k in a.fields || k in b.fields
    decreases a, 0, |keys|
  {
    if keys == [] then []
    else
      var k := keys[0];
      (if k !in a.fields then [Located([k], Add(b.fields[k]))]
       else if k !in b.fields then [Located([k], Remove)]
       else Under(k, Edits(a.fields[k], b.fields[k])))
      + MemberEdits(a, b, keys[1..])
  }

  function Format(es: seq<Located>): (r: seq<Op>)
    ensures |r| == |es|
  {
    if es == [] then [] else [Op(FormatPointer(es[0].tokens), es[0].edit)] + Format(es[1..])
  }

  function Diff(a: Json, b: Json): seq<Op>
  {
    Format(Edits(a, b))
  }

  function ApplyEdits(es: seq<Located>, doc: Json): Option<Json>
  {
    if es == [] then Some(doc)
    else
      var next :- ApplyAt(es[0].tokens, es[0].edit, doc);
      ApplyEdits(es[1..], next)
  }

  lemma {:induction false} FormatApplies(es: seq<Located>, doc: Json)
    ensures Apply(Format(es), doc) == ApplyEdits(es, doc)
  {
    if es != [] {
      PointerRoundTrip(es[0].tokens);
      var r := ApplyAt(es[0].tokens, es[0].edit, doc);
      assert Format(es)[1..] == Format(es[1..]);
      if r.Some? {
        FormatApplies(es[1..], r.value);
      }
    }
  }

  lemma {:induction false} ApplyEditsConcat(a: seq<Located>, b: seq<Located>, doc: Json)
    ensures ApplyEdits(a + b, doc) ==
            (if ApplyEdits(a, doc).Some? then ApplyEdits(b, ApplyEdits(a, doc).value) else None)
  {
    if a == [] {
      assert a + b == b;
    } else {
      assert (a + b)[1..] == a[1..] + b;
      var r := ApplyAt(a[0].tokens, a[0].edit, doc);
      if r.Some? {
        ApplyEditsConcat(a[1..], b, r.value);
      }
    }
  }

  /** Edits under a member act on that member alone. */
  lemma {:induction false} UnderApplies(k: string, es: seq<Located>, f: map<string, Json>)
    requires k in f && ApplyEdits(es, f[k]).Some?
    ensures ApplyEdits(Under(k, es), Obj(f)) == Some(Obj(f[k := ApplyEdits(es, f[k]).value]))
  {
    if es == [] {
      assert f[k := f[k]] == f;
    } else {
      var r := ApplyAt(es[0].tokens, es[0].edit, f[k]);
      var tokens := [k] + es[0].tokens;
      assert tokens[1..] == es[0].tokens;
      assert ApplyAt(tokens, es[0].edit, Obj(f)) == Some(Obj(f[k := r.value]));
      assert Under(k, es)[1..] == Under(k, es[1..]);
      var f' := f[k := r.value];
      UnderApplies(k, es[1..], f');
      var v := ApplyEdits(es[1..], r.value).value;
      assert f'[k := v] == f[k := v];
    }
  }

  lemma {:induction false} MemberEditsApply(a: Json, b: Json, keys: seq<string>, f: map<string, Json>)
    requires a.Obj? && b.Obj?
    requires forall k :: k in keys ==> k in a.fields || k in b.fields
    requires forall i, j :: 0 <= i < j < |keys| ==> keys[i] != keys[j]
    requires forall k :: k in keys ==> (k in f <==> k in a.fields) && (k in f ==> f[k] == a.fields[k])
    requires forall k :: k !in keys ==> (k in f <==> k in b.fields) && (k in f ==> f[k] == b.fields[k])
    ensures ApplyEdits(MemberEdits(a, b, keys), Obj(f)) == Some(b)
    decreases a, 0, |keys|
  {
    if keys == [] {
      assert f == b.fields;
    } else {
      var k := keys[0];
      var first :=
        if k !in a.fields then [Located([k], Add(b.fields[k]))]
        else if k !in b.fields then [Located([k], Remove)]
        else Under(k, Edits(a.fields[k], b.fields[k]));
      var f' := if k in b.fields then f[k := b.fields[k]] else f - {k};
      assert ApplyEdits(first, Obj(f)) == Some(Obj(f')) by {
        if k in a.fields && k in b.fields {
          EditsApply(a.fields[k], b.fields[k]);
          UnderApplies(k, Edits(a.fields[k], b.fields[k]), f);
        }
      }
      ApplyEditsConcat(first, MemberEdits(a, b, keys[1..]), Obj(f));
      assert forall x :: x in keys <==> x == k || x in keys[1..];
      MemberEditsApply(a, b, keys[1..], f');
    }
  }

  lemma {:induction false} EditsApply(a: Json, b: Json)
    ensures ApplyEdits(Edits(a, b), a) == Some(b)
    decreases a, 1, 0
  {
    if a != b && a.Obj? && b.Obj? {
      var keys := Sorted(a.fields.Keys + b.fields.Keys);
      forall i, j | 0 <= i < j < |keys|
        ensures keys[i] != keys[j]
      {
        LessTrichotomy(keys[i], keys[j]);
      }
      MemberEditsApply(a, b, keys, a.fields);
    }
  }

  /** Applying the diff of two documents to the first gives the second. */
  lemma DiffApplies(a: Json, b: Json)
    ensures Apply(Diff(a, b), a) == Some(b)
  {
    FormatApplies(Edits(a, b), a);
    EditsApply(a, b);
  }
}

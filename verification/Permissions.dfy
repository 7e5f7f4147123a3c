/** The permission table: decisions, grants and revocations. */
module Permissions {
  import opened Options

  // ---------------------------------------------------------------- LIKE

  function FoldCase(c: char): char
  {
    if 'A' <= c <= 'Z' then (c as int - 'A' as int + 'a' as int) as char else c
  }

  /** SQLite's LIKE: '%' stands for any text, '_' for any character, ASCII letters match in either
      case. */
  predicate Like(text: string, pattern: string)
    decreases |text| + |pattern|
  {
    if pattern == "" then text == ""
    else if pattern[0] == '%' then Like(text, pattern[1..]) || (text != "" && Like(text[1..], pattern))
    else text != "" && (pattern[0] == '_' || FoldCase(text[0]) == FoldCase(pattern[0])) && Like(text[1..], pattern[1..])
  }

  /** Two characters agree up to ASCII letter case. */
  lemma FoldCaseExactly(a: char, b: char)
    ensures FoldCase(a) == FoldCase(b) <==>
      || a == b
      || ('A' <= a <= 'Z' && b as int == a as int + 32)
      || ('A' <= b <= 'Z' && a as int == b as int + 32)
  {
  }

  /** LIKE told by its first character: '%' stands for any beginning, '_' for any one character, any other for
      itself in either ASCII case; the empty pattern for the empty text. */
  lemma {:induction false} LikeExactly(text: string, pattern: string)
    ensures pattern == "" ==> (Like(text, pattern) <==> text == "")
    ensures pattern != "" && pattern[0] == '%' ==>
      (Like(text, pattern) <==> exists i :: 0 <= i <= |text| && Like(text[i..], pattern[1..]))
    ensures pattern != "" && pattern[0] == '_' ==> (Like(text, pattern) <==> text != "" && Like(text[1..], pattern[1..]))
    ensures pattern != "" && pattern[0] != '%' && pattern[0] != '_' ==>
      (Like(text, pattern) <==> text != "" && FoldCase(text[0]) == FoldCase(pattern[0]) && Like(text[1..], pattern[1..]))
    decreases |text|
  {
    if pattern != "" && pattern[0] == '%' {
      var rest := pattern[1..];
      assert text[0..] == text;
      if text != "" {
        LikeExactly(text[1..], pattern);
        if i :| 0 <= i <= |text[1..]| && Like(text[1..][i..], rest) {
          assert text[1..][i..] == text[i + 1..];
        }
        if i :| 0 <= i <= |text| && Like(text[i..], rest) {
          assert i > 0 ==> text[1..][i - 1..] == text[i..];
        }
      }
    }
  }

  /** The object of a row covers a path: it is the path, or the path is below it. */
  predicate Covers(obj: string, path: string)
  {
    obj == path || Like(path, obj + ".%")
  }

  lemma {:induction false} LikeAnything(text: string)
    ensures Like(text, "%")
  {
    if text == "" {
      assert "%"[1..] == "";
      assert Like("", "");
    } else {
      LikeAnything(text[1..]);
    }
  }

  /** Without wildcards of its own a pattern "p%" holds of the texts that start with p, up to case. */
  lemma {:induction false} LikePrefix(text: string, p: string)
    requires '%' !in p && '_' !in p
    ensures Like(text, p + "%") <==> |p| <= |text| && forall i :: 0 <= i < |p| ==> FoldCase(p[i]) == FoldCase(text[i])
  {
    if p == "" {
      assert p + "%" == "%";
      LikeAnything(text);
    } else if text != "" {
      assert (p + "%")[1..] == p[1..] + "%";
      LikePrefix(text[1..], p[1..]);
      if Like(text, p + "%") {
        forall i | 0 <= i < |p|
          ensures FoldCase(p[i]) == FoldCase(text[i])
        {
          if i > 0 {
            assert p[1..][i - 1] == p[i] && text[1..][i - 1] == text[i];
          }
        }
      }
      if |p| <= |text| && forall i :: 0 <= i < |p| ==> FoldCase(p[i]) == FoldCase(text[i]) {
        assert FoldCase(p[0]) == FoldCase(text[0]);
        forall i | 0 <= i < |p[1..]|
          ensures FoldCase(p[1..][i]) == FoldCase(text[1..][i])
        {
          assert FoldCase(p[i + 1]) == FoldCase(text[i + 1]);
        }
      }
    }
  }

  /** A pattern whose only '%' is the last character is no longer than a text it matches, and each
      other plain character of it occurs in the text. */
  lemma {:induction false} LikeLength(text: string, p: string)
    requires '%' !in p && Like(text, p + "%")
    ensures |p| <= |text|
    ensures '*' in p ==> '*' in text
  {
    if p != "" {
      assert (p + "%")[1..] == p[1..] + "%";
      LikeLength(text[1..], p[1..]);
      assert p == [p[0]] + p[1..];
    }
  }

  predicate OneCase(s: string)
  {
    forall i :: 0 <= i < |s| ==> !('A' <= s[i] <= 'Z')
  }

  /** An object without wildcards; with one letter case it covers exactly itself and the paths it is
      a dot-bounded prefix of. */
  predicate Literal(obj: string)
  {
    '%' !in obj && '_' !in obj && OneCase(obj)
  }

  /** For any object free of LIKE characters, covering is up to ASCII letter case. */
  lemma CoversFolded(obj: string, path: string)
    requires '%' !in obj && '_' !in obj
    ensures Covers(obj, path) <==>
      obj == path ||
      (|obj| < |path| && path[|obj|] == '.' && forall i :: 0 <= i < |obj| ==> FoldCase(obj[i]) == FoldCase(path[i]))
  {
    var p := obj + ".";
    assert obj + ".%" == p + "%";
    LikePrefix(path, p);
    if |p| <= |path| {
      FoldCaseExactly('.', path[|obj|]);
      assert p[|obj|] == '.' && forall i :: 0 <= i < |obj| ==> p[i] == obj[i];
    }
  }

  lemma CoversLiteral(obj: string, path: string)
    requires Literal(obj) && OneCase(path)
    ensures Covers(obj, path) <==> obj == path || (obj + ".") <= path
  {
    var p := obj + ".";
    assert obj + ".%" == p + "%";
    assert '%' !in p && '_' !in p;
    LikePrefix(path, p);
    assert forall i :: 0 <= i < |p| ==> FoldCase(p[i]) == p[i];
    if |p| <= |path| {
      assert forall i :: 0 <= i < |path| ==> FoldCase(path[i]) == path[i];
      if forall i :: 0 <= i < |p| ==> FoldCase(p[i]) == FoldCase(path[i]) {
        assert forall i :: 0 <= i < |p| ==> p[i] == path[i];
        assert p == path[..|p|];
      }
    }
  }

  // ---------------------------------------------------------------- decisions

  datatype Effect = Allow | Deny

  /** A table row; a removed row stays in the table but is no longer live. */
  datatype Row = Row(grantee: string, owner: string, obj: string, effect: Effect, live: bool)

  predicate About(r: Row, grantee: string, owner: string, obj: string)
  {
    r.grantee == grantee && r.owner == owner && r.obj == obj
  }

  predicate Applies(r: Row, requester: string, owner: string, path: string)
  {
    r.live && r.grantee == requester && r.owner == owner && Covers(r.obj, path)
  }

  /** ORDER BY LENGTH(object) DESC, effect DESC */
  predicate Before(a: Row, b: Row)
  {
    |a.obj| > |b.obj| || (|a.obj| == |b.obj| && a.effect.Deny? && b.effect.Allow?)
  }

  /** The first row of the query of HasPermission. */
  function FirstRow(rows: seq<Row>, requester: string, owner: string, path: string): Option<Row>
  {
    if rows == [] then None
    else
      var rest := FirstRow(rows[1..], requester, owner, path);
      if !Applies(rows[0], requester, owner, path) then rest
      else if rest.None? || !Before(rest.value, rows[0]) then Some(rows[0])
      else rest
  }

  predicate Decide(rows: seq<Row>, requester: string, owner: string, path: string)
  {
    requester == owner ||
    var r := FirstRow(rows, requester, owner, path);
    r.Some? && r.value.effect.Allow?
  }

  function FullPath(nsid: string, rkey: string): string
  {
    if rkey == "" then nsid else nsid + "." + rkey
  }

  /** The longest applicable objects all allow, and there is one. */
  ghost predicate LongestAllow(rows: seq<Row>, requester: string, owner: string, path: string)
  {
    exists r :: r in rows && Applies(r, requester, owner, path) && r.effect.Allow? && Tops(rows, requester, owner, path, r)
  }

  ghost predicate Tops(rows: seq<Row>, requester: string, owner: string, path: string, r: Row)
  {
    forall x :: x in rows && Applies(x, requester, owner, path) ==> !Before(x, r)
  }

  lemma {:induction false} FirstRowTops(rows: seq<Row>, requester: string, owner: string, path: string)
    ensures var f := FirstRow(rows, requester, owner, path);
      && (f.None? <==> forall x :: x in rows ==> !Applies(x, requester, owner, path))
      && (f.Some? ==> f.value in rows && Applies(f.value, requester, owner, path) && Tops(rows, requester, owner, path, f.value))
  {
    if rows != [] {
      FirstRowTops(rows[1..], requester, owner, path);
      assert forall x :: x in rows <==> x == rows[0] || x in rows[1..];
    }
  }

  /** A non-owner is allowed exactly when a longest applicable row allows and no equally long one
      denies; so the row order of the table does not matter. */
  lemma DecisionIsLongest(rows: seq<Row>, requester: string, owner: string, path: string)
    ensures Decide(rows, requester, owner, path) <==> requester == owner || LongestAllow(rows, requester, owner, path)
  {
    FirstRowTops(rows, requester, owner, path);
  }

  lemma DecisionIgnoresOrder(rows: seq<Row>, other: seq<Row>, requester: string, owner: string, path: string)
    requires forall r: Row :: r.live ==> (r in rows <==> r in other)
    ensures Decide(rows, requester, owner, path) == Decide(other, requester, owner, path)
  {
    DecisionIsLongest(rows, requester, owner, path);
    DecisionIsLongest(other, requester, owner, path);
    SameLongest(rows, other, requester, owner, path);
    SameLongest(other, rows, requester, owner, path);
  }

  lemma SameLongest(rows: seq<Row>, other: seq<Row>, requester: string, owner: string, path: string)
    requires forall r: Row :: r.live ==> (r in rows <==> r in other)
    ensures LongestAllow(rows, requester, owner, path) ==> LongestAllow(other, requester, owner, path)
  {
    if LongestAllow(rows, requester, owner, path) {
      var r :| r in rows && Applies(r, requester, owner, path) && r.effect.Allow? && Tops(rows, requester, owner, path, r);
      assert r in other && Tops(other, requester, owner, path, r);
    }
  }

  /** The unique index on grantee, owner and object; it spans removed rows too. */
  ghost predicate UniqueIndex(rows: seq<Row>)
  {
    forall i, j :: 0 <= i < j < |rows| ==> !About(rows[i], rows[j].grantee, rows[j].owner, rows[j].obj)
  }

  /** With literal objects, two applicable rows of the same length are the same row: the decision is
      that of the one most specific row. */
  lemma MostSpecificIsUnique(rows: seq<Row>, i: nat, j: nat, requester: string, owner: string, path: string)
    requires UniqueIndex(rows) && i < |rows| && j < |rows| && OneCase(path)
    requires Literal(rows[i].obj) && Literal(rows[j].obj)
    requires Applies(rows[i], requester, owner, path) && Applies(rows[j], requester, owner, path)
    requires |rows[i].obj| == |rows[j].obj|
    ensures i == j
  {
    var a, b := rows[i].obj, rows[j].obj;
    CoversLiteral(a, path);
    CoversLiteral(b, path);
    assert a <= path && b <= path;
    assert a == b;
  }

  // ---------------------------------------------------------------- grants and revocations

  predicate HasLive(rows: seq<Row>, grantee: string, owner: string, obj: string)
  {
    exists i :: 0 <= i < |rows| && About(rows[i], grantee, owner, obj) && rows[i].live
  }

  predicate HasAny(rows: seq<Row>, grantee: string, owner: string, obj: string)
  {
    exists i :: 0 <= i < |rows| && About(rows[i], grantee, owner, obj)
  }

  /** FirstOrCreate with the effect assigned: a live row becomes an allowing one; without one a row is
      inserted, which the unique index refuses when a removed row is still there. */
  function Granted(rows: seq<Row>, grantee: string, owner: string, obj: string): Option<seq<Row>>
  {
    if HasLive(rows, grantee, owner, obj) then
      Some(seq(|rows|, i requires 0 <= i < |rows| =>
        if About(rows[i], grantee, owner, obj) && rows[i].live then rows[i].(effect := Allow) else rows[i]))
    else if HasAny(rows, grantee, owner, obj) then None
    else Some(rows + [Row(grantee, owner, obj, Allow, true)])
  }

  /** A soft delete. */
  function Revoked(rows: seq<Row>, grantee: string, owner: string, obj: string): (r: seq<Row>)
    ensures |r| == |rows|
  {
    seq(|rows|, i requires 0 <= i < |rows| =>
      if About(rows[i], grantee, owner, obj) then rows[i].(live := false) else rows[i])
  }

  /** No other applicable row decides before an allowing row on `object` would. */
  ghost predicate NoneAbove(rows: seq<Row>, grantee: string, owner: string, obj: string, path: string)
  {
    forall x :: x in rows && Applies(x, grantee, owner, path) && x.obj != obj ==>
      !Before(x, Row(grantee, owner, obj, Allow, true))
  }

  /** Apart from rows on the triple, a grant or revocation leaves the live rows as they were. */
  ghost predicate SameElsewhere(rows: seq<Row>, next: seq<Row>, grantee: string, owner: string, obj: string)
  {
    forall x: Row :: x.live && !About(x, grantee, owner, obj) ==> (x in rows <==> x in next)
  }

  lemma GrantedRows(rows: seq<Row>, grantee: string, owner: string, obj: string)
    requires UniqueIndex(rows) && Granted(rows, grantee, owner, obj).Some?
    ensures var next := Granted(rows, grantee, owner, obj).value;
      && UniqueIndex(next)
      && SameElsewhere(rows, next, grantee, owner, obj)
      && Row(grantee, owner, obj, Allow, true) in next
      && forall x :: x in next && x.live && About(x, grantee, owner, obj) ==> x.effect.Allow?
  {
    var next := Granted(rows, grantee, owner, obj).value;
    if HasLive(rows, grantee, owner, obj) {
      var k :| 0 <= k < |rows| && About(rows[k], grantee, owner, obj) && rows[k].live;
      assert next[k] == Row(grantee, owner, obj, Allow, true);
      forall x: Row | x.live && !About(x, grantee, owner, obj)
        ensures x in rows <==> x in next
      {
        if x in rows {
          var i :| 0 <= i < |rows| && rows[i] == x;
          assert next[i] == x;
        }
        if x in next {
          var i :| 0 <= i < |next| && next[i] == x;
          assert rows[i] == x;
        }
      }
    }
  }

  lemma RevokedRows(rows: seq<Row>, grantee: string, owner: string, obj: string)
    requires UniqueIndex(rows)
    ensures var next := Revoked(rows, grantee, owner, obj);
      && UniqueIndex(next)
      && SameElsewhere(rows, next, grantee, owner, obj)
      && forall x :: x in next && About(x, grantee, owner, obj) ==> !x.live
  {
    var next := Revoked(rows, grantee, owner, obj);
    forall x: Row | x.live && !About(x, grantee, owner, obj)
      ensures x in rows <==> x in next
    {
      if x in rows {
        var i :| 0 <= i < |rows| && rows[i] == x;
        assert next[i] == x;
      }
      if x in next {
        var i :| 0 <= i < |next| && next[i] == x;
        assert rows[i] == x;
      }
    }
  }

  /** The frame of a grant. A successful grant sets to allow exactly the grantee's paths at that owner
      that the object covers and no more specific row decides; every other decision is as before. */
  lemma GrantFrame(rows: seq<Row>, grantee: string, owner: string, obj: string,
                   requester: string, target: string, path: string)
    requires UniqueIndex(rows) && Granted(rows, grantee, owner, obj).Some?
    ensures var next := Granted(rows, grantee, owner, obj).value;
      Decide(next, requester, target, path) ==
      if requester == grantee && target == owner && Covers(obj, path) && NoneAbove(rows, grantee, owner, obj, path)
      then true
      else Decide(rows, requester, target, path)
  {
    var next := Granted(rows, grantee, owner, obj).value;
    GrantedRows(rows, grantee, owner, obj);
    DecisionIsLongest(rows, requester, target, path);
    DecisionIsLongest(next, requester, target, path);
    var g := Row(grantee, owner, obj, Allow, true);
    if requester == grantee && target == owner && Covers(obj, path) {
      if NoneAbove(rows, grantee, owner, obj, path) {
        assert Tops(next, requester, target, path, g);
      } else {
        AboveDecides(rows, next, grantee, owner, obj, path);
        AboveDecides(next, rows, grantee, owner, obj, path);
      }
    } else {
      UnrelatedSame(rows, next, grantee, owner, obj, requester, target, path);
      UnrelatedSame(next, rows, grantee, owner, obj, requester, target, path);
    }
  }

  lemma AboveDecides(rows: seq<Row>, next: seq<Row>, grantee: string, owner: string, obj: string, path: string)
    requires SameElsewhere(rows, next, grantee, owner, obj)
    requires !NoneAbove(rows, grantee, owner, obj, path)
    ensures !NoneAbove(next, grantee, owner, obj, path)
    ensures LongestAllow(rows, grantee, owner, path) ==> LongestAllow(next, grantee, owner, path)
  {
    var w :| w in rows && Applies(w, grantee, owner, path) && w.obj != obj && Before(w, Row(grantee, owner, obj, Allow, true));
    assert w in next;
    if LongestAllow(rows, grantee, owner, path) {
      var r :| r in rows && Applies(r, grantee, owner, path) && r.effect.Allow? && Tops(rows, grantee, owner, path, r);
      assert !Before(w, r);
      assert |r.obj| > |obj|;
      assert r in next;
      assert Tops(next, grantee, owner, path, r);
    }
  }

  lemma UnrelatedSame(rows: seq<Row>, next: seq<Row>, grantee: string, owner: string, obj: string,
                      requester: string, target: string, path: string)
    requires SameElsewhere(rows, next, grantee, owner, obj)
    requires !(requester == grantee && target == owner && Covers(obj, path))
    ensures LongestAllow(rows, requester, target, path) ==> LongestAllow(next, requester, target, path)
  {
    if LongestAllow(rows, requester, target, path) {
      var r :| r in rows && Applies(r, requester, target, path) && r.effect.Allow? && Tops(rows, requester, target, path, r);
      assert r in next && Tops(next, requester, target, path, r);
    }
  }

  /** The frame of a revocation: the decisions are those of a table without rows on the triple. */
  lemma RevokeFrame(rows: seq<Row>, without: seq<Row>, grantee: string, owner: string, obj: string,
                    requester: string, target: string, path: string)
    requires UniqueIndex(rows)
    requires forall x :: x in without <==> x in rows && !About(x, grantee, owner, obj)
    ensures Decide(Revoked(rows, grantee, owner, obj), requester, target, path) == Decide(without, requester, target, path)
  {
    RevokedRows(rows, grantee, owner, obj);
    DecisionIgnoresOrder(Revoked(rows, grantee, owner, obj), without, requester, target, path);
  }

  /** Granting and revoking a triple the table never had restores every decision; granting it again
      is then refused. */
  lemma GrantThenRevoke(rows: seq<Row>, grantee: string, owner: string, obj: string,
                        requester: string, target: string, path: string)
    requires UniqueIndex(rows) && !HasAny(rows, grantee, owner, obj)
    ensures Granted(rows, grantee, owner, obj).Some?
    ensures var after := Revoked(Granted(rows, grantee, owner, obj).value, grantee, owner, obj);
      && Decide(after, requester, target, path) == Decide(rows, requester, target, path)
      && Granted(after, grantee, owner, obj) == None
  {
    assert !HasLive(rows, grantee, owner, obj);
    var granted := Granted(rows, grantee, owner, obj).value;
    GrantedRows(rows, grantee, owner, obj);
    RevokedRows(granted, grantee, owner, obj);
    var after := Revoked(granted, grantee, owner, obj);
    forall r: Row | r.live
      ensures r in after <==> r in rows
    {
    }
    DecisionIgnoresOrder(after, rows, requester, target, path);
    assert About(after[|rows|], grantee, owner, obj);
  }

  // ---------------------------------------------------------------- the store

  /** The objects of one effect among the rows that could cover an NSID. */
  function ObjectsOf(rows: seq<Row>, requester: string, owner: string, nsid: string, effect: Effect): seq<string>
  {
    if rows == [] then []
    else
      (if Applies(rows[0], requester, owner, nsid) && rows[0].effect == effect then [rows[0].obj] else [])
      + ObjectsOf(rows[1..], requester, owner, nsid, effect)
  }

  /** A live row of the caller and owner whose object is the path or, as a LIKE pattern, on the way to it. */
  predicate Reaches(r: Row, requester: string, owner: string, path: string)
  {
    r.live && r.grantee == requester && r.owner == owner && (r.obj == path || Like(path, r.obj + ".%"))
  }

  /** An allowing row that reaches the path; no longer one does, and no equally long one denies. */
  ghost predicate MostSpecificAllow(rows: seq<Row>, requester: string, owner: string, path: string, r: Row)
  {
    && Reaches(r, requester, owner, path) && r.effect.Allow?
    && forall x :: x in rows && Reaches(x, requester, owner, path) ==>
         |x.obj| < |r.obj| || (|x.obj| == |r.obj| && x.effect.Allow?)
  }

  /** The decision told by rows alone. */
  lemma MostSpecificDecides(rows: seq<Row>, requester: string, owner: string, path: string)
    ensures Decide(rows, requester, owner, path) <==>
      requester == owner || exists r :: r in rows && MostSpecificAllow(rows, requester, owner, path, r)
  {
    hide Like;
    DecisionIsLongest(rows, requester, owner, path);
    hide Decide;
    assert forall x :: Applies(x, requester, owner, path) <==> Reaches(x, requester, owner, path);
    if LongestAllow(rows, requester, owner, path) {
      var r :| r in rows && Applies(r, requester, owner, path) && r.effect.Allow? && Tops(rows, requester, owner, path, r);
      assert MostSpecificAllow(rows, requester, owner, path, r);
    }
    if r :| r in rows && MostSpecificAllow(rows, requester, owner, path, r) {
      assert Tops(rows, requester, owner, path, r);
    }
  }

  lemma {:induction false} ObjectsOfIs(rows: seq<Row>, requester: string, owner: string, nsid: string, effect: Effect)
    ensures forall o :: o in ObjectsOf(rows, requester, owner, nsid, effect) <==>
      exists r :: r in rows && Applies(r, requester, owner, nsid) && r.effect == effect && r.obj == o
  {
    if rows != [] {
      ObjectsOfIs(rows[1..], requester, owner, nsid, effect);
      assert forall x :: x in rows <==> x == rows[0] || x in rows[1..];
    }
  }

  class SqliteStore {
    var rows: seq<Row>

    ghost predicate Valid()
      reads this
    {
      UniqueIndex(rows)
    }

    constructor ()
      ensures Valid() && rows == []
    {
      rows := [];
    }

    method HasPermission(requester: string, owner: string, nsid: string, rkey: string) returns (ok: bool)
      ensures ok == Decide(rows, requester, owner, FullPath(nsid, rkey))
      ensures var path := if rkey == "" then nsid else nsid + "." + rkey;
        ok <==> requester == owner || exists r :: r in rows && MostSpecificAllow(rows, requester, owner, path, r)
    {
      MostSpecificDecides(rows, requester, owner, FullPath(nsid, rkey));
      if requester == owner {
        return true;
      }
      var obj := nsid;
      if rkey != "" {
        obj := nsid + "." + rkey;
      }
      var permission := FirstRow(rows, requester, owner, obj);
      return permission.Some? && permission.value.effect == Allow;
    }

    method AddLexiconReadPermission(grantee: string, owner: string, nsid: string) returns (ok: bool)
      requires Valid()
      modifies this
      ensures Valid()
      ensures ok <==> Granted(old(rows), grantee, owner, nsid).Some?
      ensures rows == if ok then Granted(old(rows), grantee, owner, nsid).value else old(rows)
    {
      var next := Granted(rows, grantee, owner, nsid);
      if next.None? {
        return false;
      }
      GrantedRows(rows, grantee, owner, nsid);
      rows := next.value;
      return true;
    }

    method RemoveLexiconReadPermission(grantee: string, owner: string, nsid: string)
      requires Valid()
      modifies this
      ensures Valid()
      ensures rows == Revoked(old(rows), grantee, owner, nsid)
    {
      RevokedRows(rows, grantee, owner, nsid);
      rows := Revoked(rows, grantee, owner, nsid);
    }

    method ListReadPermissionsByUser(owner: string, requester: string, nsid: string)
      returns (allows: seq<string>, denies: seq<string>)
      ensures allows == AllowList(rows, owner, requester, nsid)
      ensures denies == DenyList(rows, owner, requester, nsid)
      ensures requester == owner ==> allows == [nsid + ".*"] && denies == []
      ensures requester != owner ==> forall o :: o in allows <==> Row(requester, owner, o, Allow, true) in rows && Covers(o, nsid)
      ensures requester != owner ==> forall o :: o in denies <==> Row(requester, owner, o, Deny, true) in rows && Covers(o, nsid)
    {
      if requester == owner {
        return [nsid + ".*"], [];
      }
      hide Applies;
      hide ObjectsOf;
      hide Covers;
      NoObjects(requester, owner, nsid);
      assert rows[..0] == [] && rows[..|rows|] == rows;
      allows, denies := [], [];
      for i := 0 to |rows|
        invariant allows == ObjectsOf(rows[..i], requester, owner, nsid, Allow)
        invariant denies == ObjectsOf(rows[..i], requester, owner, nsid, Deny)
      {
        assert rows[..i + 1] == rows[..i] + [rows[i]];
        OneMoreObject(rows[..i], rows[i], requester, owner, nsid, Allow);
        OneMoreObject(rows[..i], rows[i], requester, owner, nsid, Deny);
        if Applies(rows[i], requester, owner, nsid) {
          match rows[i].effect
          case Allow => allows := allows + [rows[i].obj];
          case Deny => denies := denies + [rows[i].obj];
        }
      }
      forall o { ListsExactly(rows, owner, requester, nsid, o); }
    }
  }

  lemma NoObjects(requester: string, owner: string, nsid: string)
    ensures ObjectsOf([], requester, owner, nsid, Allow) == [] == ObjectsOf([], requester, owner, nsid, Deny)
  {
  }

  lemma {:induction false} OneMoreObject(rows: seq<Row>, r: Row, requester: string, owner: string, nsid: string, effect: Effect)
    ensures ObjectsOf(rows + [r], requester, owner, nsid, effect) ==
            if Applies(r, requester, owner, nsid) && r.effect == effect then ObjectsOf(rows, requester, owner, nsid, effect) + [r.obj]
            else ObjectsOf(rows, requester, owner, nsid, effect)
  {
    hide Applies;
    if rows == [] {
      assert [] + [r] == [r] && [r][1..] == [];
    } else {
      assert (rows + [r])[0] == rows[0] && (rows + [r])[1..] == rows[1..] + [r];
      OneMoreObject(rows[1..], r, requester, owner, nsid, effect);
    }
  }

  function AllowList(rows: seq<Row>, owner: string, requester: string, nsid: string): seq<string>
  {
    if requester == owner then [nsid + ".*"] else ObjectsOf(rows, requester, owner, nsid, Allow)
  }

  function DenyList(rows: seq<Row>, owner: string, requester: string, nsid: string): seq<string>
  {
    if requester == owner then [] else ObjectsOf(rows, requester, owner, nsid, Deny)
  }

  /** What the two lists hold: for another caller the objects of the live rows of each effect that are on
      the way to the collection; the owner gets a wildcard and no denials. */
  lemma ListsExactly(rows: seq<Row>, owner: string, requester: string, nsid: string, o: string)
    ensures requester == owner ==> AllowList(rows, owner, requester, nsid) == [nsid + ".*"] && DenyList(rows, owner, requester, nsid) == []
    ensures requester != owner ==>
      (o in AllowList(rows, owner, requester, nsid) <==> Row(requester, owner, o, Allow, true) in rows && Covers(o, nsid))
    ensures requester != owner ==>
      (o in DenyList(rows, owner, requester, nsid) <==> Row(requester, owner, o, Deny, true) in rows && Covers(o, nsid))
  {
    hide Covers;
    if requester != owner {
      ObjectsOfIs(rows, requester, owner, nsid, Allow);
      ObjectsOfIs(rows, requester, owner, nsid, Deny);
      RowOf(rows, owner, requester, nsid, o, Allow);
      RowOf(rows, owner, requester, nsid, o, Deny);
    }
  }

  lemma RowOf(rows: seq<Row>, owner: string, requester: string, nsid: string, o: string, e: Effect)
    ensures (exists r :: r in rows && Applies(r, requester, owner, nsid) && r.effect == e && r.obj == o) <==>
            Row(requester, owner, o, e, true) in rows && Covers(o, nsid)
  {
    hide Covers;
    if r :| r in rows && Applies(r, requester, owner, nsid) && r.effect == e && r.obj == o {
      assert r == Row(requester, owner, o, e, true);
    }
    if Row(requester, owner, o, e, true) in rows && Covers(o, nsid) {
      assert Applies(Row(requester, owner, o, e, true), requester, owner, nsid);
    }
  }
}

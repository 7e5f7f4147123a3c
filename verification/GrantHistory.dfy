/** Permission tables over any history of grants and revocations: when a grant is refused. */
module GrantHistory {
  import opened Options
  import opened Permissions

  datatype Change =
    | Grant(grantee: string, owner: string, obj: string)
    | Revoke(grantee: string, owner: string, obj: string)

  /** A refused grant leaves the table as it is. */
  function Changed(rows: seq<Row>, c: Change): seq<Row>
  {
    match c
    case Grant(g, o, x) => if Granted(rows, g, o, x).Some? then Granted(rows, g, o, x).value else rows
    case Revoke(g, o, x) => Revoked(rows, g, o, x)
  }

  function History(rows: seq<Row>, cs: seq<Change>): seq<Row>
    decreases |cs|
  {
    if cs == [] then rows else History(Changed(rows, cs[0]), cs[1..])
  }

  /** What a table holds about a triple: nothing, a live row, or a removed one. */
  datatype Status = Absent | Live | Removed

  function StatusOf(rows: seq<Row>, g: string, o: string, x: string): Status
  {
    if HasLive(rows, g, o, x) then Live else if HasAny(rows, g, o, x) then Removed else Absent
  }

  function After(s: Status, c: Change, g: string, o: string, x: string): Status
  {
    if c == Grant(g, o, x) && s.Absent? then Live
    else if c == Revoke(g, o, x) && s.Live? then Removed
    else s
  }

  /** Two rows for every row, or one more at the end, with the same answers about a triple. */
  lemma SameStatus(rows: seq<Row>, next: seq<Row>, g: string, o: string, x: string)
    requires |rows| <= |next|
    requires forall i :: 0 <= i < |rows| ==> (About(rows[i], g, o, x) <==> About(next[i], g, o, x))
    requires forall i :: 0 <= i < |rows| && About(rows[i], g, o, x) ==> rows[i].live == next[i].live
    requires forall i :: |rows| <= i < |next| ==> !About(next[i], g, o, x)
    ensures StatusOf(next, g, o, x) == StatusOf(rows, g, o, x)
  {
    if HasLive(rows, g, o, x) {
      var i :| 0 <= i < |rows| && About(rows[i], g, o, x) && rows[i].live;
      assert About(next[i], g, o, x) && next[i].live;
    }
    if HasAny(rows, g, o, x) {
      var i :| 0 <= i < |rows| && About(rows[i], g, o, x);
      assert About(next[i], g, o, x);
    }
  }

  lemma GrantMoves(rows: seq<Row>, g: string, o: string, x: string, grantee: string, owner: string, obj: string)
    requires UniqueIndex(rows)
    ensures UniqueIndex(Changed(rows, Grant(grantee, owner, obj)))
    ensures StatusOf(Changed(rows, Grant(grantee, owner, obj)), g, o, x) == After(StatusOf(rows, g, o, x), Grant(grantee, owner, obj), g, o, x)
  {
    var next := Changed(rows, Grant(grantee, owner, obj));
    if Granted(rows, grantee, owner, obj).Some? {
      GrantedRows(rows, grantee, owner, obj);
      if !HasLive(rows, grantee, owner, obj) && (g, o, x) == (grantee, owner, obj) {
        assert About(next[|rows|], g, o, x) && next[|rows|].live;
      } else {
        SameStatus(rows, next, g, o, x);
      }
    }
  }

  lemma RevokeMoves(rows: seq<Row>, g: string, o: string, x: string, grantee: string, owner: string, obj: string)
    requires UniqueIndex(rows)
    ensures UniqueIndex(Changed(rows, Revoke(grantee, owner, obj)))
    ensures StatusOf(Changed(rows, Revoke(grantee, owner, obj)), g, o, x) == After(StatusOf(rows, g, o, x), Revoke(grantee, owner, obj), g, o, x)
  {
    var next := Revoked(rows, grantee, owner, obj);
    RevokedRows(rows, grantee, owner, obj);
    if (g, o, x) == (grantee, owner, obj) {
      if HasAny(rows, g, o, x) {
        var i :| 0 <= i < |rows| && About(rows[i], g, o, x);
        assert About(next[i], g, o, x);
      }
      if HasAny(next, g, o, x) {
        var i :| 0 <= i < |next| && About(next[i], g, o, x);
        assert About(rows[i], g, o, x);
      }
      assert !HasLive(next, g, o, x);
    } else {
      SameStatus(rows, next, g, o, x);
    }
  }

  /** What a history leads to, read off the first status and the changes. */
  ghost predicate EndsRemoved(s: Status, cs: seq<Change>, g: string, o: string, x: string)
  {
    match s
    case Removed => true
    case Live => Revoke(g, o, x) in cs
    case Absent => exists i, j :: 0 <= i < j < |cs| && cs[i] == Grant(g, o, x) && cs[j] == Revoke(g, o, x)
  }

  lemma EndsLater(s: Status, cs: seq<Change>, g: string, o: string, x: string)
    requires cs != []
    ensures EndsRemoved(s, cs, g, o, x) <==> EndsRemoved(After(s, cs[0], g, o, x), cs[1..], g, o, x)
  {
    var rest := cs[1..];
    assert cs == [cs[0]] + rest;
    if s.Absent? {
      if i, j :| 0 <= i < j < |cs| && cs[i] == Grant(g, o, x) && cs[j] == Revoke(g, o, x) {
        assert rest[j - 1] == Revoke(g, o, x);
        if i > 0 {
          assert rest[i - 1] == Grant(g, o, x);
        }
      }
      if cs[0] == Grant(g, o, x) && Revoke(g, o, x) in rest {
        var j :| 0 <= j < |rest| && rest[j] == Revoke(g, o, x);
        assert cs[j + 1] == Revoke(g, o, x);
      }
      if i, j :| 0 <= i < j < |rest| && rest[i] == Grant(g, o, x) && rest[j] == Revoke(g, o, x) {
        assert cs[i + 1] == Grant(g, o, x) && cs[j + 1] == Revoke(g, o, x);
      }
    }
  }

  /** When a grant is refused, exactly, after any history: the triple had been removed at the start, or was
      live and was revoked, or had no row and was granted and later revoked. It is then refused for good. */
  lemma {:induction false} RefusedAfterExactly(rows: seq<Row>, cs: seq<Change>, g: string, o: string, x: string)
    requires UniqueIndex(rows)
    ensures Granted(History(rows, cs), g, o, x) == None <==> EndsRemoved(StatusOf(rows, g, o, x), cs, g, o, x)
    decreases |cs|
  {
    if cs != [] {
      match cs[0] {
        case Grant(a, b, c) => GrantMoves(rows, g, o, x, a, b, c);
        case Revoke(a, b, c) => RevokeMoves(rows, g, o, x, a, b, c);
      }
      EndsLater(StatusOf(rows, g, o, x), cs, g, o, x);
      RefusedAfterExactly(Changed(rows, cs[0]), cs[1..], g, o, x);
    }
  }

  /** A grant that was refused stays refused, whatever follows. */
  lemma RefusedForGood(rows: seq<Row>, cs: seq<Change>, g: string, o: string, x: string)
    requires UniqueIndex(rows) && Granted(rows, g, o, x) == None
    ensures Granted(History(rows, cs), g, o, x) == None
  {
    RefusedAfterExactly(rows, cs, g, o, x);
  }
}

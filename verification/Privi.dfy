/** Private records: the record table, filtered and paged listing, and the store that joins them
    with permissions. */
module Privi {
  import opened Options
  import opened Text
  import opened Permissions

  type Table = map<(string, string), string>

  datatype Record = Record(did: string, rkey: string, rec: string)

  // ---------------------------------------------------------------- the query of listRecords

  datatype Condition = LikeText(pattern: string) | EqualTo(value: string)

  predicate Holds(c: Condition, rkey: string)
  {
    match c
    case LikeText(pattern) => Like(rkey, pattern)
    case EqualTo(v) => rkey == v
  }

  /** The built query: owner, an OR of conditions, an AND of negated conditions, cursor, limit. */
  datatype Query = Query(did: string, anyOf: seq<Condition>, noneOf: seq<Condition>, cursor: string, limit: int)

  predicate Selects(q: Query, rkey: string)
  {
    && (exists i :: 0 <= i < |q.anyOf| && Holds(q.anyOf[i], rkey))
    && (forall i :: 0 <= i < |q.noneOf| ==> !Holds(q.noneOf[i], rkey))
    && (q.cursor != "" ==> Less(q.cursor, rkey))
  }

  function Rows(table: Table, did: string, keys: seq<string>): (r: seq<Record>)
    requires forall k :: k in keys ==> (did, k) in table
    ensures |r| == |keys|
    ensures forall i :: 0 <= i < |r| ==> r[i] == Record(did, keys[i], table[(did, keys[i])])
  {
    if keys == [] then [] else [Record(did, keys[0], table[(did, keys[0])])] + Rows(table, did, keys[1..])
  }

  /** LIMIT applies only when it is positive; a non-positive limit selects everything. */
  function Limited<T>(s: seq<T>, limit: int): seq<T>
  {
    if 0 < limit <= |s| then s[..limit] else s
  }

  /** What SQLite answers to the query. */
  function Execute(table: Table, q: Query): seq<Record>
  {
    var keys := set p | p in table && p.0 == q.did && Selects(q, p.1) :: p.1;
    assert forall k :: k in keys ==> (q.did, k) in table;
    Rows(table, q.did, Limited(Sorted(keys), q.limit))
  }

  predicate EndsInStar(a: string)
  {
    a != "" && a[|a| - 1] == '*'
  }

  function ConditionFor(a: string): Condition
  {
    if EndsInStar(a) then LikeText(a[..|a| - 1] + "%") else EqualTo(a)
  }

  /** The record keys the lists let through. */
  predicate Passes(rkey: string, allow: seq<string>, deny: seq<string>)
  {
    && (exists i :: 0 <= i < |allow| && Holds(ConditionFor(allow[i]), rkey))
    && (forall i :: 0 <= i < |deny| ==> !Holds(ConditionFor(deny[i]), rkey))
  }

  function PassingKeys(table: Table, did: string, allow: seq<string>, deny: seq<string>): (keys: set<string>)
    ensures forall k :: k in keys <==> (did, k) in table && Passes(k, allow, deny)
  {
    set p | p in table && p.0 == did && Passes(p.1, allow, deny) :: p.1
  }

  function Beyond(keys: set<string>, cursor: string): (r: set<string>)
    ensures r <= keys
  {
    set k | k in keys && (cursor != "" ==> Less(cursor, k))
  }

  /** One page: the keys that pass, after the cursor, in ascending order, up to the limit. */
  function Page(keys: set<string>, cursor: string, limit: int): seq<string>
  {
    Limited(Sorted(Beyond(keys, cursor)), limit)
  }

  lemma PageKeys(table: Table, did: string, allow: seq<string>, deny: seq<string>, cursor: string, limit: int)
    ensures forall k :: k in Page(PassingKeys(table, did, allow, deny), cursor, limit) ==> (did, k) in table
  {
    var keys := PassingKeys(table, did, allow, deny);
    var s := Sorted(Beyond(keys, cursor));
    assert forall k :: k in s ==> k in keys;
  }

  function Listed(table: Table, did: string, allow: seq<string>, deny: seq<string>, cursor: string, limit: int): seq<Record>
  {
    PageKeys(table, did, allow, deny, cursor, limit);
    Rows(table, did, Page(PassingKeys(table, did, allow, deny), cursor, limit))
  }

  lemma SelectedArePassing(table: Table, q: Query, allow: seq<string>, deny: seq<string>)
    requires |q.anyOf| == |allow| && forall i :: 0 <= i < |allow| ==> q.anyOf[i] == ConditionFor(allow[i])
    requires |q.noneOf| == |deny| && forall i :: 0 <= i < |deny| ==> q.noneOf[i] == ConditionFor(deny[i])
    ensures Execute(table, q) == Listed(table, q.did, allow, deny, q.cursor, q.limit)
  {
    var keys := set p | p in table && p.0 == q.did && Selects(q, p.1) :: p.1;
    forall k
      ensures k in keys <==> k in Beyond(PassingKeys(table, q.did, allow, deny), q.cursor)
    {
      if (q.did, k) in table {
        assert Selects(q, k) <==> Passes(k, allow, deny) && (q.cursor != "" ==> Less(q.cursor, k)) by {
          assert (exists i :: 0 <= i < |q.anyOf| && Holds(q.anyOf[i], k)) ==> exists i :: 0 <= i < |allow| && Holds(ConditionFor(allow[i]), k);
          if exists i :: 0 <= i < |allow| && Holds(ConditionFor(allow[i]), k) {
            var i :| 0 <= i < |allow| && Holds(ConditionFor(allow[i]), k);
            assert Holds(q.anyOf[i], k);
          }
          assert forall i :: 0 <= i < |deny| ==> q.noneOf[i] == ConditionFor(deny[i]);
        }
        assert ((q.did, k)).1 == k;
      }
    }
    assert keys == Beyond(PassingKeys(table, q.did, allow, deny), q.cursor);
  }

  // ---------------------------------------------------------------- what a page holds

  /** A key the caller asks for: stored for the owner, let through by the lists, and after the cursor. */
  predicate Wanted(table: Table, did: string, allow: seq<string>, deny: seq<string>, cursor: string, k: string)
  {
    (did, k) in table && Passes(k, allow, deny) && (cursor != "" ==> Less(cursor, k))
  }

  predicate Returned(rows: seq<Record>, k: string)
  {
    exists i :: 0 <= i < |rows| && rows[i].rkey == k
  }

  /** A page told without its query: stored records of wanted keys in strictly ascending order, at most as
      many as a positive limit says; all of them when there is none or it is not reached; and those left
      out come after those returned. */
  ghost predicate IsPage(rows: seq<Record>, table: Table, did: string, allow: seq<string>, deny: seq<string>, cursor: string, limit: int)
  {
    && (forall i :: 0 <= i < |rows| ==>
          Wanted(table, did, allow, deny, cursor, rows[i].rkey) && rows[i] == Record(did, rows[i].rkey, table[(did, rows[i].rkey)]))
    && (forall i, j :: 0 <= i < j < |rows| ==> Less(rows[i].rkey, rows[j].rkey))
    && (limit >= 1 ==> |rows| <= limit)
    && (limit < 1 || |rows| < limit ==> forall k :: Wanted(table, did, allow, deny, cursor, k) ==> Returned(rows, k))
    && (forall k :: Wanted(table, did, allow, deny, cursor, k) && !Returned(rows, k) ==>
          forall i :: 0 <= i < |rows| ==> Less(rows[i].rkey, k))
  }

  lemma ListedIsPage(table: Table, did: string, allow: seq<string>, deny: seq<string>, cursor: string, limit: int)
    ensures IsPage(Listed(table, did, allow, deny, cursor, limit), table, did, allow, deny, cursor, limit)
  {
    hide Passes;
    hide Less;
    hide Sorted;
    var keys := PassingKeys(table, did, allow, deny);
    var s := Sorted(Beyond(keys, cursor));
    var page := Page(keys, cursor, limit);
    var rows := Listed(table, did, allow, deny, cursor, limit);
    PageKeys(table, did, allow, deny, cursor, limit);
    assert |rows| == |page| && forall i :: 0 <= i < |rows| ==> rows[i].rkey == page[i] && page[i] == s[i];
    assert forall k :: Wanted(table, did, allow, deny, cursor, k) <==> k in s;
    forall i | 0 <= i < |rows|
      ensures Wanted(table, did, allow, deny, cursor, rows[i].rkey)
    {
      assert s[i] in s;
    }
    forall i | 0 <= i < |rows|
      ensures Returned(rows, s[i])
    {
      assert rows[i].rkey == s[i];
    }
    forall k | Wanted(table, did, allow, deny, cursor, k) && !Returned(rows, k)
      ensures |page| < |s| && forall i :: 0 <= i < |rows| ==> Less(rows[i].rkey, k)
    {
      var j :| 0 <= j < |s| && s[j] == k;
      assert j >= |rows|;
    }
  }

  /** A pattern of a list: with a star at the end, a beginning of the key up to letter case; otherwise the key. */
  predicate Admits(pattern: string, key: string)
  {
    if EndsInStar(pattern) then
      |pattern| - 1 <= |key| && forall i :: 0 <= i < |pattern| - 1 ==> FoldCase(pattern[i]) == FoldCase(key[i])
    else key == pattern
  }

  lemma AdmitsExactly(pattern: string, key: string)
    requires '%' !in pattern && '_' !in pattern
    ensures Holds(ConditionFor(pattern), key) <==> Admits(pattern, key)
  {
    if EndsInStar(pattern) {
      LikePrefix(key, pattern[..|pattern| - 1]);
    }
  }

  /** One of the allowed patterns admits the key, and none of the denied ones does. */
  ghost predicate Admitted(key: string, allow: seq<string>, deny: seq<string>)
  {
    (exists a :: a in allow && Admits(a, key)) && forall d :: d in deny ==> !Admits(d, key)
  }

  /** With patterns free of LIKE characters a key passes exactly when one of the allowed patterns admits it and
      none of the denied ones does. */
  lemma PassesExactly(key: string, allow: seq<string>, deny: seq<string>)
    requires forall p :: p in allow || p in deny ==> '%' !in p && '_' !in p
    ensures Passes(key, allow, deny) <==> Admitted(key, allow, deny)
  {
    hide Admits;
    hide Holds;
    forall p | p in allow || p in deny
      ensures Holds(ConditionFor(p), key) <==> Admits(p, key)
    {
      AdmitsExactly(p, key);
    }
    if a :| a in allow && Admits(a, key) {
      var i :| 0 <= i < |allow| && allow[i] == a;
      assert Holds(ConditionFor(allow[i]), key);
    }
    if forall d :: d in deny ==> !Admits(d, key) {
      forall i | 0 <= i < |deny|
        ensures !Holds(ConditionFor(deny[i]), key)
      {
        assert deny[i] in deny;
      }
    }
    if Passes(key, allow, deny) {
      var i :| 0 <= i < |allow| && Holds(ConditionFor(allow[i]), key);
      assert allow[i] in allow;
      forall d | d in deny
        ensures !Admits(d, key)
      {
        var j :| 0 <= j < |deny| && deny[j] == d;
        assert !Holds(ConditionFor(deny[j]), key);
      }
    }
  }

  function RecordAt(table: Table, did: string, rkey: string): Option<Record>
  {
    if (did, rkey) in table then Some(Record(did, rkey, table[(did, rkey)])) else None
  }

  class SqliteRepo {
    var table: Table

    /** Record keys are never empty: the store writes "collection.rkey". */
    ghost predicate Valid()
      reads this
    {
      forall p :: p in table ==> p.1 != ""
    }

    constructor ()
      ensures Valid() && table == map[]
    {
      table := map[];
    }

    /** `valid` is the answer of the record validator when validation is asked for. */
    method PutRecord(did: string, rkey: string, rec: string, validate: bool, valid: bool) returns (ok: bool)
      modifies this
      ensures ok <==> (validate ==> valid)
      ensures table == if ok then old(table)[(did, rkey) := rec] else old(table)
      ensures old(Valid()) && rkey != "" ==> Valid()
    {
      if validate && !valid {
        return false;
      }
      table := table[(did, rkey) := rec];
      return true;
    }

    method GetRecord(did: string, rkey: string) returns (r: Option<Record>)
      ensures r.Some? <==> (did, rkey) in table
      ensures r.Some? ==> r.value.did == did && r.value.rkey == rkey && r.value.rec == table[(did, rkey)]
    {
      r := RecordAt(table, did, rkey);
    }

    method ListRecords(did: string, cursor: string, limit: int, allow: seq<string>, deny: seq<string>)
      returns (rows: seq<Record>)
      ensures rows == Listed(table, did, allow, deny, cursor, limit)
      ensures forall i :: 0 <= i < |rows| ==> rows[i].did == did && (did, rows[i].rkey) in table && rows[i].rec == table[(did, rows[i].rkey)]
      ensures forall i, j :: 0 <= i < j < |rows| ==> Less(rows[i].rkey, rows[j].rkey)
      ensures limit >= 1 ==> |rows| <= limit
      ensures limit < 1 || |rows| < limit ==> forall k :: Wanted(table, did, allow, deny, cursor, k) ==> Returned(rows, k)
      ensures forall k :: Wanted(table, did, allow, deny, cursor, k) && !Returned(rows, k) ==>
        forall i :: 0 <= i < |rows| ==> Less(rows[i].rkey, k)
      ensures forall i :: 0 <= i < |rows| ==> Wanted(table, did, allow, deny, cursor, rows[i].rkey)
      ensures (forall p :: p in allow || p in deny ==> '%' !in p && '_' !in p) ==>
        forall i :: 0 <= i < |rows| ==> Admitted(rows[i].rkey, allow, deny)
    {
      hide Wanted;
      hide Admitted;
      hide Less;
      hide Listed;
      hide Execute;
      ListedIsPage(table, did, allow, deny, cursor, limit);
      LiteralPage(Listed(table, did, allow, deny, cursor, limit), table, did, allow, deny, cursor, limit);
      if |allow| == 0 {
        NothingAllowed(table, did, deny, cursor, limit);
        return [];
      }
      var query := Query(did, [], [], "", 0);
      for i := 0 to |allow|
        invariant |query.anyOf| == i && forall j :: 0 <= j < i ==> query.anyOf[j] == ConditionFor(allow[j])
        invariant query.did == did && query.noneOf == [] && query.cursor == "" && query.limit == 0
      {
        var a := allow[i];
        if EndsInStar(a) {
          query := query.(anyOf := query.anyOf + [LikeText(a[..|a| - 1] + "%")]);
        } else {
          query := query.(anyOf := query.anyOf + [EqualTo(a)]);
        }
      }
      for i := 0 to |deny|
        invariant |query.anyOf| == |allow| && forall j :: 0 <= j < |allow| ==> query.anyOf[j] == ConditionFor(allow[j])
        invariant |query.noneOf| == i && forall j :: 0 <= j < i ==> query.noneOf[j] == ConditionFor(deny[j])
        invariant query.did == did && query.cursor == "" && query.limit == 0
      {
        var d := deny[i];
        if EndsInStar(d) {
          query := query.(noneOf := query.noneOf + [LikeText(d[..|d| - 1] + "%")]);
        } else {
          query := query.(noneOf := query.noneOf + [EqualTo(d)]);
        }
      }
      if cursor != "" {
        query := query.(cursor := cursor);
      }
      if limit != 0 {
        query := query.(limit := limit);
      }
      SelectedArePassing(table, query, allow, deny);
      rows := Execute(table, query);
    }
  }

  lemma NothingAllowed(table: Table, did: string, deny: seq<string>, cursor: string, limit: int)
    ensures Listed(table, did, [], deny, cursor, limit) == []
  {
    assert Beyond(PassingKeys(table, did, [], deny), cursor) == {};
  }

  lemma LiteralPage(rows: seq<Record>, table: Table, did: string, allow: seq<string>, deny: seq<string>, cursor: string, limit: int)
    requires IsPage(rows, table, did, allow, deny, cursor, limit)
    ensures forall i :: 0 <= i < |rows| ==> (did, rows[i].rkey) in table && rows[i] == Record(did, rows[i].rkey, table[(did, rows[i].rkey)])
    ensures (forall p :: p in allow || p in deny ==> '%' !in p && '_' !in p) ==>
      forall i :: 0 <= i < |rows| ==> Admitted(rows[i].rkey, allow, deny)
  {
    hide Passes;
    hide Admitted;
    hide Less;
    if forall p :: p in allow || p in deny ==> '%' !in p && '_' !in p {
      forall i | 0 <= i < |rows|
        ensures Admitted(rows[i].rkey, allow, deny)
      {
        assert Wanted(table, did, allow, deny, cursor, rows[i].rkey);
        PassesExactly(rows[i].rkey, allow, deny);
      }
    }
  }

  // ---------------------------------------------------------------- paging

  lemma {:induction false} RestOfPage(keys: set<string>, cursor: string, n: nat)
    requires "" !in keys && 0 < n <= |Sorted(Beyond(keys, cursor))|
    ensures var s := Sorted(Beyond(keys, cursor));
      Sorted(Beyond(keys, s[n - 1])) == s[n..]
  {
    hide Sorted;
    hide Less;
    var s := Sorted(Beyond(keys, cursor));
    var last := s[n - 1];
    assert last in s && last in keys;
    forall x
      ensures x in Sorted(Beyond(keys, last)) <==> x in s[n..]
    {
      if x in Beyond(keys, last) {
        if cursor != "" {
          LessTransitive(cursor, last, x);
        }
        assert x in s;
        var i :| 0 <= i < |s| && s[i] == x;
        LessTrichotomy(x, last);
        assert i > n - 1;
        assert x == s[n..][i - n];
      }
      if x in s[n..] {
        var i :| n <= i < |s| && s[i] == x;
        assert Less(last, x);
      }
    }
    AscendingUnique(Sorted(Beyond(keys, last)), s[n..]);
  }

  /** The keys a caller sees who asks again with the last key of each page as cursor, until a page is
      empty. Each page leaves fewer keys beyond the cursor. */
  function AllPages(keys: set<string>, cursor: string, limit: int): seq<string>
    requires "" !in keys && limit >= 1
    decreases |Sorted(Beyond(keys, cursor))|
  {
    var page := Page(keys, cursor, limit);
    if page == [] then []
    else
      RestOfPage(keys, cursor, |page|);
      page + AllPages(keys, page[|page| - 1], limit)
  }

  lemma {:induction false} PagesAreAllKeys(keys: set<string>, cursor: string, limit: int)
    requires "" !in keys && limit >= 1
    ensures AllPages(keys, cursor, limit) == Sorted(Beyond(keys, cursor))
    decreases |Sorted(Beyond(keys, cursor))|
  {
    var s, page := Sorted(Beyond(keys, cursor)), Page(keys, cursor, limit);
    if page != [] {
      var n := |page|;
      RestOfPage(keys, cursor, n);
      PagesAreAllKeys(keys, page[n - 1], limit);
      TwoParts(s, n);
    }
  }

  lemma TwoParts(s: seq<string>, n: nat)
    requires n <= |s|
    ensures s == s[..n] + s[n..]
  {
  }

  /** Paging through a listing from the start yields every passing key once, in strictly ascending
      order, whatever the page size. */
  lemma PagingIsComplete(keys: set<string>, limit: int)
    requires "" !in keys && limit >= 1
    ensures AllPages(keys, "", limit) == Sorted(keys)
  {
    PagesAreAllKeys(keys, "", limit);
    assert Beyond(keys, "") == keys;
  }

  /** With an empty key the first page ends in the empty cursor again, so the same page comes back
      for ever, exactly when that key fills the page or is alone. */
  lemma EmptyKeySticks(keys: set<string>, limit: int)
    requires limit >= 1
    ensures var page := Page(keys, "", limit);
      (page != [] && page[|page| - 1] == "") <==> "" in keys && (limit == 1 || keys == {""})
  {
    assert Beyond(keys, "") == keys;
    var s := Sorted(keys);
    var page := Page(keys, "", limit);
    if "" in keys {
      assert "" in s;
      var i :| 0 <= i < |s| && s[i] == "";
      assert s[0] == "";
      if |page| > 1 {
        assert Less(s[0], s[|page| - 1]);
      }
      if |s| == 1 {
        assert forall k :: k in keys ==> k == s[0];
        assert keys == {""};
      }
      if keys == {""} {
        assert |s| == 1;
      }
    } else if page != [] {
      assert page[|page| - 1] in s;
    }
  }

  // ---------------------------------------------------------------- listing against decisions

  ghost predicate PercentFree(rows: seq<Row>)
  {
    forall i :: 0 <= i < |rows| ==> '%' !in rows[i].obj
  }

  lemma CoversShorter(obj: string, path: string)
    requires '%' !in obj && Covers(obj, path)
    ensures |obj| <= |path| && (|obj| == |path| ==> obj == path)
    ensures '*' in obj ==> '*' in path
  {
    if obj != path {
      assert obj + ".%" == (obj + ".") + "%";
      assert '%' !in obj + ".";
      LikeLength(path, obj + ".");
    }
  }

  /** Which keys a non-owner's listing lets through: those that themselves carry a live allow on the
      way to the listed collection. */
  lemma NonOwnerPasses(rows: seq<Row>, owner: string, caller: string, collection: string, key: string)
    requires UniqueIndex(rows) && PercentFree(rows) && caller != owner && '*' !in collection
    ensures Passes(key, AllowList(rows, owner, caller, collection), DenyList(rows, owner, caller, collection)) <==>
            Row(caller, owner, key, Allow, true) in rows && Covers(key, collection)
  {
    var allow, deny := AllowList(rows, owner, caller, collection), DenyList(rows, owner, caller, collection);
    ObjectsOfIs(rows, caller, owner, collection, Allow);
    ObjectsOfIs(rows, caller, owner, collection, Deny);
    forall o | o in allow || o in deny
      ensures ConditionFor(o) == EqualTo(o)
    {
      var r :| r in rows && Applies(r, caller, owner, collection) && r.obj == o;
      CoversShorter(o, collection);
    }
    if Passes(key, allow, deny) {
      var i :| 0 <= i < |allow| && Holds(ConditionFor(allow[i]), key);
      assert allow[i] in allow && key == allow[i];
      var r :| r in rows && Applies(r, caller, owner, collection) && r.effect == Allow && r.obj == key;
      assert r == Row(caller, owner, key, Allow, true);
    }
    var g := Row(caller, owner, key, Allow, true);
    if g in rows && Covers(key, collection) {
      assert Applies(g, caller, owner, collection);
      assert key in allow;
      var i :| 0 <= i < |allow| && allow[i] == key;
      assert Holds(ConditionFor(allow[i]), key);
      forall j | 0 <= j < |deny|
        ensures !Holds(ConditionFor(deny[j]), key)
      {
        assert deny[j] in deny;
        if deny[j] == key {
          var r :| r in rows && Applies(r, caller, owner, collection) && r.effect == Deny && r.obj == key;
          SameTriple(rows, r, g);
        }
      }
    }
  }

  lemma SameTriple(rows: seq<Row>, a: Row, b: Row)
    requires UniqueIndex(rows) && a in rows && b in rows && About(a, b.grantee, b.owner, b.obj)
    ensures a == b
  {
    var i :| 0 <= i < |rows| && rows[i] == a;
    var j :| 0 <= j < |rows| && rows[j] == b;
  }

  /** Listing is sound for getting: what a listing of a collection returns to a caller, the caller may
      get by its full key. */
  lemma ListedIsAllowed(rows: seq<Row>, owner: string, caller: string, collection: string, key: string)
    requires UniqueIndex(rows) && PercentFree(rows) && '*' !in collection
    requires Passes(key, AllowList(rows, owner, caller, collection), DenyList(rows, owner, caller, collection))
    ensures Decide(rows, caller, owner, key)
  {
    if caller != owner {
      NonOwnerPasses(rows, owner, caller, collection, key);
      var g := Row(caller, owner, key, Allow, true);
      forall x | x in rows && Applies(x, caller, owner, key)
        ensures !Before(x, g)
      {
        var i :| 0 <= i < |rows| && rows[i] == x;
        CoversShorter(x.obj, key);
        if |x.obj| == |key| {
          SameTriple(rows, x, g);
        }
      }
      assert Applies(g, caller, owner, key) && Tops(rows, caller, owner, key, g);
      DecisionIsLongest(rows, caller, owner, key);
    }
  }

  /** The other direction fails for every record: a non-owner's listing of a collection never returns
      a record of that collection, whatever was granted. */
  lemma MembersNeverListed(rows: seq<Row>, owner: string, caller: string, collection: string, rkey: string)
    requires UniqueIndex(rows) && PercentFree(rows) && caller != owner && '*' !in collection
    ensures !Passes(collection + "." + rkey, AllowList(rows, owner, caller, collection), DenyList(rows, owner, caller, collection))
  {
    var key := collection + "." + rkey;
    NonOwnerPasses(rows, owner, caller, collection, key);
    var g := Row(caller, owner, key, Allow, true);
    if g in rows && Covers(key, collection) {
      var i :| 0 <= i < |rows| && rows[i] == g;
      CoversShorter(key, collection);
    }
  }

  /** The owner's listing of a collection lets through exactly the keys below it. */
  lemma OwnerPasses(rows: seq<Row>, owner: string, collection: string, key: string)
    ensures Passes(key, AllowList(rows, owner, owner, collection), DenyList(rows, owner, owner, collection)) <==>
            Like(key, collection + ".%")
  {
    var a := collection + ".*";
    assert a[..|a| - 1] == collection + ".";
    assert collection + "." + "%" == collection + ".%";
    assert AllowList(rows, owner, owner, collection) == [a];
    assert Holds(ConditionFor(a), key) <==> Like(key, collection + ".%");
    if Like(key, collection + ".%") {
      assert Holds(ConditionFor([a][0]), key);
    }
  }

  /** For a collection free of LIKE characters: the keys that begin with it and a dot, up to letter case. */
  lemma OwnerPassesPrefix(rows: seq<Row>, owner: string, collection: string, key: string)
    requires '%' !in collection && '_' !in collection
    ensures Passes(key, AllowList(rows, owner, owner, collection), DenyList(rows, owner, owner, collection)) <==>
      |collection| < |key| && FoldCase(key[|collection|]) == '.' &&
      forall i :: 0 <= i < |collection| ==> FoldCase(key[i]) == FoldCase(collection[i])
  {
    OwnerPasses(rows, owner, collection, key);
    var p := collection + ".";
    assert p + "%" == collection + ".%";
    LikePrefix(key, p);
  }

  // ---------------------------------------------------------------- the joined key

  function JoinedKey(collection: string, rkey: string): string
  {
    collection + "." + rkey
  }

  /** `long` is the collection `short` with more segments, which the other record key starts with. */
  ghost predicate Shifted(long: string, lkey: string, short: string, skey: string)
  {
    exists m :: long == short + "." + m && skey == m + "." + lkey
  }

  /** Two collection and key pairs name the same row. */
  ghost predicate SameRow(c: string, k: string, d: string, l: string)
  {
    (c == d && k == l) || Shifted(c, k, d, l) || Shifted(d, l, c, k)
  }

  lemma JoinedPrefix(c: string, k: string, d: string, l: string)
    requires JoinedKey(c, k) == JoinedKey(d, l) && |c| > |d|
    ensures Shifted(c, k, d, l)
  {
    var p := JoinedKey(c, k);
    assert c == p[..|c|] && k == p[|c| + 1..] && d == p[..|d|] && l == p[|d| + 1..];
    assert p[|d|] == '.' && p[|c|] == '.';
    var m := p[|d| + 1..|c|];
    assert c == d + "." + m;
    assert l == m + "." + k;
  }

  /** The join does not separate its parts: dots in a record key shift into the collection. */
  lemma JoinedKeysExactly(c: string, k: string, d: string, l: string)
    ensures JoinedKey(c, k) == JoinedKey(d, l) <==> SameRow(c, k, d, l)
    ensures '.' !in k && '.' !in l ==> (SameRow(c, k, d, l) <==> c == d && k == l)
  {
    if JoinedKey(c, k) == JoinedKey(d, l) {
      if |c| > |d| {
        JoinedPrefix(c, k, d, l);
      } else if |d| > |c| {
        JoinedPrefix(d, l, c, k);
      } else {
        assert c == JoinedKey(c, k)[..|c|] && d == JoinedKey(d, l)[..|d|];
        assert k == JoinedKey(c, k)[|c| + 1..] && l == JoinedKey(d, l)[|d| + 1..];
      }
    }
    if m :| c == d + "." + m && l == m + "." + k {
      assert d + "." + m + "." + k == d + "." + (m + "." + k);
      assert l[|m|] == '.';
    }
    if m :| d == c + "." + m && k == m + "." + l {
      assert c + "." + m + "." + l == c + "." + (m + "." + l);
      assert k[|m|] == '.';
    }
  }

  /** Reading after writing: the record put is got back by its own collection and key, and by every pair
      that joins to the same key; every other read is as before. */
  lemma ReadAfterPut(table: Table, did: string, c: string, k: string, rec: string, target: string, d: string, l: string)
    ensures RecordAt(table[(did, JoinedKey(c, k)) := rec], target, JoinedKey(d, l)) ==
            if did == target && SameRow(c, k, d, l) then Some(Record(did, JoinedKey(c, k), rec))
            else RecordAt(table, target, JoinedKey(d, l))
  {
    JoinedKeysExactly(c, k, d, l);
  }

  // ---------------------------------------------------------------- the store

  // ---------------------------------------------------------------- getting what was listed

  /** What getRecord answers: the record, if the decision allows it and it is there. */
  function Answer(rows: seq<Row>, table: Table, collection: string, rkey: string, target: string, caller: string): Option<Record>
  {
    if Decide(rows, caller, target, FullPath(collection, rkey)) then RecordAt(table, target, JoinedKey(collection, rkey)) else None
  }

  /** Listing is sound for getting, exactly: a listed record is got by a collection and key that join to its
      key when that record key is not empty; with an empty one, exactly when the bare collection is allowed. */
  lemma ListedIsGot(rows: seq<Row>, table: Table, did: string, caller: string, collection: string, cursor: string, limit: int,
                    r: Record, c: string, k: string)
    requires UniqueIndex(rows) && PercentFree(rows) && '*' !in collection
    requires r in Listed(table, did, AllowList(rows, did, caller, collection), DenyList(rows, did, caller, collection), cursor, limit)
    requires r.rkey == JoinedKey(c, k)
    ensures Answer(rows, table, c, k, did, caller) == Some(r) <==> k != "" || Decide(rows, caller, did, c)
  {
    ListedRecord(table, did, AllowList(rows, did, caller, collection), DenyList(rows, did, caller, collection), cursor, limit, r);
    ListedIsAllowed(rows, did, caller, collection, r.rkey);
  }

  const ODD_GRANT := [Row("c", "o", "coll.", Allow, true)]
  const ODD_TABLE: Table := map[("o", "coll.") := "{}"]

  lemma BareCollectionRefused()
    ensures !Decide(ODD_GRANT, "c", "o", "coll")
  {
    if Covers("coll.", "coll") {
      CoversShorter("coll.", "coll");
    }
    DecisionIsLongest(ODD_GRANT, "c", "o", "coll");
  }

  lemma OddKey(c: string, k: string)
    requires JoinedKey(c, k) == "coll."
    ensures c == "coll" && k == ""
  {
    var p := JoinedKey(c, k);
    assert p[|c|] == '.' && c == p[..|c|] && k == p[|c| + 1..];
    assert |c| == 4;
    assert "coll."[..4] == "coll";
  }

  /** The odd key passes the listing of the collection of its own name. */
  lemma OddListed()
    ensures UniqueIndex(ODD_GRANT) && PercentFree(ODD_GRANT)
    ensures Record("o", "coll.", "{}") in
            Listed(ODD_TABLE, "o", AllowList(ODD_GRANT, "o", "c", "coll."), DenyList(ODD_GRANT, "o", "c", "coll."), "", 0)
  {
    var allow, deny := AllowList(ODD_GRANT, "o", "c", "coll."), DenyList(ODD_GRANT, "o", "c", "coll.");
    assert ODD_GRANT[0] == Row("c", "o", "coll.", Allow, true);
    NonOwnerPasses(ODD_GRANT, "o", "c", "coll.", "coll.");
    hide Passes;
    hide AllowList;
    hide DenyList;
    var keys := PassingKeys(ODD_TABLE, "o", allow, deny);
    assert keys == {"coll."} by {
      assert ("o", "coll.") in ODD_TABLE;
    }
    assert Beyond(keys, "") == {"coll."};
    assert "coll." in Sorted({"coll."});
    PageKeys(ODD_TABLE, "o", allow, deny, "", 0);
    assert Page(keys, "", 0) == ["coll."];
    assert Listed(ODD_TABLE, "o", allow, deny, "", 0)[0] == Record("o", "coll.", "{}");
  }

  /** A record stored under an empty record key can be listed and yet be got by no collection and key. */
  lemma ListedNotGot()
    ensures UniqueIndex(ODD_GRANT) && PercentFree(ODD_GRANT)
    ensures Record("o", "coll.", "{}") in
            Listed(ODD_TABLE, "o", AllowList(ODD_GRANT, "o", "c", "coll."), DenyList(ODD_GRANT, "o", "c", "coll."), "", 0)
    ensures forall c, k :: JoinedKey(c, k) == "coll." ==> Answer(ODD_GRANT, ODD_TABLE, c, k, "o", "c") == None
  {
    OddListed();
    forall c, k | JoinedKey(c, k) == "coll."
      ensures Answer(ODD_GRANT, ODD_TABLE, c, k, "o", "c") == None
    {
      OddKey(c, k);
      BareCollectionRefused();
    }
  }

  class Store {
    const permissions: SqliteStore
    const repo: SqliteRepo

    constructor (permissions: SqliteStore, repo: SqliteRepo)
      ensures this.permissions == permissions && this.repo == repo
    {
      this.permissions, this.repo := permissions, repo;
    }

    method PutRecord(did: string, collection: string, rec: string, rkey: string, validate: bool, valid: bool) returns (ok: bool)
      requires repo.Valid()
      modifies repo
      ensures repo.Valid()
      ensures ok <==> (validate ==> valid)
      ensures repo.table == if ok then old(repo.table)[(did, JoinedKey(collection, rkey)) := rec] else old(repo.table)
    {
      ok := repo.PutRecord(did, JoinedKey(collection, rkey), rec, validate, valid);
    }

    /** None stands for both refusals, unauthorized and not found. */
    method GetRecord(collection: string, rkey: string, target: string, caller: string) returns (r: Option<Record>)
      ensures r == Answer(permissions.rows, repo.table, collection, rkey, target, caller)
      ensures r.Some? <==>
        Decide(permissions.rows, caller, target, FullPath(collection, rkey)) && (target, JoinedKey(collection, rkey)) in repo.table
      ensures r.Some? ==> r.value == Record(target, JoinedKey(collection, rkey), repo.table[(target, JoinedKey(collection, rkey))])
    {
      var authz := permissions.HasPermission(caller, target, collection, rkey);
      if !authz {
        return None;
      }
      r := repo.GetRecord(target, JoinedKey(collection, rkey));
    }

    /** Every listed record is the record in the table, and getRecord answers it for every collection and
        key that join to its key; with an empty record key, exactly when the bare collection is allowed. */
    method ListRecords(did: string, collection: string, cursor: string, limit: int, caller: string) returns (rows: seq<Record>)
      ensures rows == Listed(repo.table, did, AllowList(permissions.rows, did, caller, collection),
                             DenyList(permissions.rows, did, caller, collection), cursor, limit)
      ensures forall r :: r in rows ==> r.did == did && (did, r.rkey) in repo.table && r.rec == repo.table[(did, r.rkey)]
      ensures permissions.Valid() && PercentFree(permissions.rows) && '*' !in collection ==>
        forall r, c, k :: r in rows && r.rkey == JoinedKey(c, k) ==>
          (Answer(permissions.rows, repo.table, c, k, did, caller) == Some(r) <==> k != "" || Decide(permissions.rows, caller, did, c))
    {
      var allow, deny := permissions.ListReadPermissionsByUser(did, caller, collection);
      rows := repo.ListRecords(did, cursor, limit, allow, deny);
      forall r | r in rows
        ensures r.did == did && (did, r.rkey) in repo.table && r.rec == repo.table[(did, r.rkey)]
      {
        ListedRecord(repo.table, did, allow, deny, cursor, limit, r);
      }
      if permissions.Valid() && PercentFree(permissions.rows) && '*' !in collection {
        forall r, c, k | r in rows && r.rkey == JoinedKey(c, k)
          ensures Answer(permissions.rows, repo.table, c, k, did, caller) == Some(r) <==> k != "" || Decide(permissions.rows, caller, did, c)
        {
          ListedIsGot(permissions.rows, repo.table, did, caller, collection, cursor, limit, r, c, k);
        }
      }
    }
  }

  lemma ListedRecord(table: Table, did: string, allow: seq<string>, deny: seq<string>, cursor: string, limit: int, r: Record)
    requires r in Listed(table, did, allow, deny, cursor, limit)
    ensures r.did == did && (did, r.rkey) in table && r.rec == table[(did, r.rkey)] && Passes(r.rkey, allow, deny)
  {
    PageKeys(table, did, allow, deny, cursor, limit);
    var keys := PassingKeys(table, did, allow, deny);
    var page := Page(keys, cursor, limit);
    var i :| 0 <= i < |page| && Rows(table, did, page)[i] == r;
    assert page[i] in page && page[i] in Sorted(Beyond(keys, cursor));
  }
}

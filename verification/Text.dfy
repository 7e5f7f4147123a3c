/** String order, splitting and searching: the parts of Go's `strings` package and of the
    binary text order of SQLite that the model needs. */
module Text {

  /** Strictly smaller in the bytewise text order. */
  predicate Less(a: string, b: string)
  {
    b != "" && (a == "" || a[0] < b[0] || (a[0] == b[0] && Less(a[1..], b[1..])))
  }

  lemma {:induction false} LessTransitive(a: string, b: string, c: string)
    requires Less(a, b) && Less(b, c)
    ensures Less(a, c)
  {
    if a != "" && a[0] == b[0] && b[0] == c[0] {
      LessTransitive(a[1..], b[1..], c[1..]);
    }
  }

  lemma {:induction false} LessTrichotomy(a: string, b: string)
    ensures a != b ==> (Less(a, b) <==> !Less(b, a))
    ensures a == b ==> !Less(a, b)
  {
    if a != "" && b != "" {
      if a[0] == b[0] {
        LessTrichotomy(a[1..], b[1..]);
        assert a == [a[0]] + a[1..] && b == [b[0]] + b[1..];
      }
    }
  }

  /** The first place where two texts differ has the smaller character in `a`. */
  ghost predicate SmallerAt(a: string, b: string, i: nat)
  {
    i < |a| && i < |b| && a[..i] == b[..i] && a[i] < b[i]
  }

  lemma SmallerLater(a: string, b: string, i: nat)
    requires a != "" && b != ""
    ensures SmallerAt(a, b, 0) <==> a[0] < b[0]
    ensures i > 0 ==> (SmallerAt(a, b, i) <==> a[0] == b[0] && SmallerAt(a[1..], b[1..], i - 1))
  {
    assert a[..0] == b[..0];
    if 0 < i < |a| && i < |b| {
      SameBeginnings(a, b, i);
      assert a[i] == a[1..][i - 1] && b[i] == b[1..][i - 1];
    }
  }

  lemma SameBeginnings(a: string, b: string, i: nat)
    requires 0 < i <= |a| && i <= |b|
    ensures a[..i] == b[..i] <==> a[0] == b[0] && a[1..][..i - 1] == b[1..][..i - 1]
  {
    assert a[..i] == [a[0]] + a[1..][..i - 1] && b[..i] == [b[0]] + b[1..][..i - 1];
    assert a[1..][..i - 1] == a[..i][1..] && b[1..][..i - 1] == b[..i][1..];
    assert a[0] == a[..i][0] && b[0] == b[..i][0];
  }

  lemma PrefixLater(a: string, b: string)
    requires a != "" && b != ""
    ensures a < b <==> a[0] == b[0] && a[1..] < b[1..]
  {
    assert a == [a[0]] + a[1..] && b == [b[0]] + b[1..];
  }

  /** One text is smaller than another when it is a proper beginning of it, or has the smaller character
      at the first place where they differ. */
  lemma {:induction false} LessExactly(a: string, b: string)
    ensures Less(a, b) <==> a < b || exists i: nat :: SmallerAt(a, b, i)
  {
    if a != "" && b != "" {
      PrefixLater(a, b);
      SmallerLater(a, b, 0);
      LessExactly(a[1..], b[1..]);
      forall i: nat
        ensures SmallerAt(a, b, i) <==> if i == 0 then a[0] < b[0] else a[0] == b[0] && SmallerAt(a[1..], b[1..], i - 1)
      {
        SmallerLater(a, b, i);
      }
      hide SmallerAt;
      if i: nat :| SmallerAt(a[1..], b[1..], i) {
        var j := i + 1;
        assert j - 1 == i;
        assert a[0] == b[0] ==> SmallerAt(a, b, j);
      }
    }
  }

  ghost predicate Ascending(r: seq<string>)
  {
    forall i, j :: 0 <= i < j < |r| ==> Less(r[i], r[j])
  }

  ghost predicate Least(m: string, s: set<string>)
  {
    m in s && forall x :: x in s && x != m ==> Less(m, x)
  }

  lemma {:induction false} LeastExists(s: set<string>)
    requires s != {}
    ensures exists m :: Least(m, s)
  {
    var m :| m in s;
    var rest := s - {m};
    if rest == {} {
      assert s == {m};
      assert Least(m, s);
    } else {
      LeastExists(rest);
      var n :| Least(n, rest);
      LessTrichotomy(m, n);
      if Less(n, m) {
        assert Least(n, s);
      } else {
        forall x | x in s && x != m
          ensures Less(m, x)
        {
          if x != n {
            LessTransitive(m, n, x);
          }
        }
        assert Least(m, s);
      }
    }
  }

  lemma LessAsymmetric()
    ensures forall a, b :: Less(a, b) ==> !Less(b, a)
  {
    forall a, b
      ensures Less(a, b) ==> !Less(b, a)
    {
      LessTrichotomy(a, b);
    }
  }

  function Min(s: set<string>): (m: string)
    requires s != {}
    ensures m in s && forall x :: x in s && x != m ==> Less(m, x)
  {
    LeastExists(s);
    LessAsymmetric();
    var m :| m in s && forall x :: x in s && x != m ==> Less(m, x);
    m
  }

  /** The elements of a set in ascending text order. */
  function Sorted(s: set<string>): (r: seq<string>)
    ensures Ascending(r)
    ensures forall x :: x in r <==> x in s
    ensures |r| == |s|
  {
    if s == {} then []
    else
      var m := Min(s);
      [m] + Sorted(s - {m})
  }

  /** An ascending sequence is determined by its elements. */
  lemma {:induction false} AscendingUnique(a: seq<string>, b: seq<string>)
    requires Ascending(a) && Ascending(b)
    requires forall x :: x in a <==> x in b
    ensures a == b
  {
    if a != [] {
      assert a[0] in b;
    }
    if b != [] {
      assert b[0] in a;
    }
    if a != [] && b != [] {
      LessAsymmetric();
      assert a[0] == b[0];
      forall x
        ensures x in a[1..] <==> x in b[1..]
      {
        LessTrichotomy(a[0], a[0]);
        assert x in a[1..] <==> x in a && x != a[0];
        assert x in b[1..] <==> x in b && x != b[0];
      }
      AscendingUnique(a[1..], b[1..]);
    }
  }

  /** strings.Split for a one-character separator. */
  function Split(s: string, c: char): (r: seq<string>)
    ensures |r| >= 1
  {
    if s == "" then [""]
    else
      var r := Split(s[1..], c);
      if s[0] == c then [""] + r else [[s[0]] + r[0]] + r[1..]
  }

  /** A separator-free text followed by the separator is split off as the first part. */
  lemma {:induction false} SplitFirst(a: string, c: char, b: string)
    requires c !in a
    ensures Split(a + [c] + b, c) == [a] + Split(b, c)
  {
    var s := a + [c] + b;
    if a == "" {
      assert s[1..] == b;
    } else {
      assert s[1..] == a[1..] + [c] + b;
      SplitFirst(a[1..], c, b);
      assert [a[0]] + a[1..] == a;
    }
  }

  lemma {:induction false} SplitWhole(a: string, c: char)
    requires c !in a
    ensures Split(a, c) == [a]
  {
    if a != "" {
      SplitWhole(a[1..], c);
      assert [a[0]] + a[1..] == a;
    }
  }

  /** No part contains the separator, and a separator gives a second part. */
  lemma {:induction false} SplitParts(s: string, c: char)
    ensures forall i :: 0 <= i < |Split(s, c)| ==> c !in Split(s, c)[i]
    ensures c in s ==> |Split(s, c)| >= 2
  {
    if s != "" {
      SplitParts(s[1..], c);
      assert s == [s[0]] + s[1..];
    }
  }

  /** strings.Count for a one-character text. */
  function Count(s: string, c: char): nat
  {
    if s == "" then 0 else (if s[0] == c then 1 else 0) + Count(s[1..], c)
  }

  lemma {:induction false} CountConcat(a: string, b: string, c: char)
    ensures Count(a + b, c) == Count(a, c) + Count(b, c)
  {
    if a == "" {
      assert a + b == b;
    } else {
      assert (a + b)[1..] == a[1..] + b;
      CountConcat(a[1..], b, c);
    }
  }

  /** strings.Join for a one-character separator. */
  function Join(parts: seq<string>, c: char): string
    requires parts != []
  {
    if |parts| == 1 then parts[0] else parts[0] + [c] + Join(parts[1..], c)
  }

  /** Joining the parts of a text gives the text back. */
  lemma {:induction false} JoinSplit(s: string, c: char)
    ensures Join(Split(s, c), c) == s
  {
    if s != "" {
      var r := Split(s[1..], c);
      JoinSplit(s[1..], c);
      assert s == [s[0]] + s[1..];
      if s[0] == c {
        assert ([""] + r)[1..] == r;
      } else {
        assert ([[s[0]] + r[0]] + r[1..])[1..] == r[1..];
      }
    }
  }

  lemma {:induction false} JoinConcat(a: seq<string>, b: seq<string>, c: char)
    requires a != [] && b != []
    ensures Join(a + b, c) == Join(a, c) + [c] + Join(b, c)
  {
    assert (a + b)[1..] == a[1..] + b;
    if |a| > 1 {
      JoinConcat(a[1..], b, c);
    } else {
      assert a[1..] + b == b;
    }
  }

  /** A separator splits a text into the parts before it and the parts after it. */
  lemma {:induction false} SplitConcat(a: string, c: char, b: string)
    ensures Split(a + [c] + b, c) == Split(a, c) + Split(b, c)
  {
    var s := a + [c] + b;
    if a == "" {
      assert s[1..] == b;
    } else {
      assert s[1..] == a[1..] + [c] + b;
      SplitConcat(a[1..], c, b);
    }
  }

  /** A separator ends one part and begins the next. */
  lemma {:induction false} SplitCount(s: string, c: char)
    ensures |Split(s, c)| == Count(s, c) + 1
  {
    if s != "" {
      SplitCount(s[1..], c);
    }
  }

  lemma {:induction false} CountNone(s: string, c: char)
    ensures Count(s, c) == 0 <==> c !in s
  {
    if s != "" {
      CountNone(s[1..], c);
      assert s == [s[0]] + s[1..];
    }
  }

  // ---------------------------------------------------------------- decimal numbers

  /** A decimal number without leading zeros. */
  predicate IsNumber(s: string)
  {
    && s != ""
    && (forall i :: 0 <= i < |s| ==> '0' <= s[i] <= '9')
    && (s[0] == '0' ==> |s| == 1)
  }

  function Number(s: string): nat
    requires forall i :: 0 <= i < |s| ==> '0' <= s[i] <= '9'
  {
    if s == "" then 0 else 10 * Number(s[..|s| - 1]) + (s[|s| - 1] as nat - '0' as nat)
  }

  /** The decimal text of a number. */
  function Decimal(n: nat): string
  {
    if n < 10 then [Digit(n)] else Decimal(n / 10) + [Digit(n % 10)]
  }

  function Digit(n: nat): (d: char)
    requires n < 10
    ensures '0' <= d <= '9' && d as nat - '0' as nat == n
  {
    ('0' as nat + n) as char
  }

  lemma {:induction false} NumberOfDecimal(n: nat)
    ensures IsNumber(Decimal(n)) && Number(Decimal(n)) == n
    ensures n > 0 ==> Decimal(n)[0] != '0'
  {
    var s := Decimal(n);
    assert Number("") == 0;
    if n < 10 {
      assert s[..0] == "";
    } else {
      NumberOfDecimal(n / 10);
      assert s[..|s| - 1] == Decimal(n / 10);
    }
  }

  lemma LastDigit(a: nat, d: nat)
    requires d < 10
    ensures (10 * a + d) / 10 == a && (10 * a + d) % 10 == d
  {
  }

  lemma DecimalSnoc(a: nat, d: nat)
    requires a > 0 && d < 10
    ensures Decimal(10 * a + d) == Decimal(a) + [Digit(d)]
  {
    LastDigit(a, d);
  }

  lemma NumberSnoc(t: string, c: char)
    requires '0' <= c <= '9' && forall i :: 0 <= i < |t| ==> '0' <= t[i] <= '9'
    ensures Number(t + [c]) == 10 * Number(t) + (c as nat - '0' as nat)
  {
    assert (t + [c])[..|t + [c]| - 1] == t;
  }

  lemma DigitOnly(c: char)
    requires '0' <= c <= '9'
    ensures Digit(c as nat - '0' as nat) == c && Decimal(c as nat - '0' as nat) == [c] && Number([c]) == c as nat - '0' as nat
  {
    assert [c][..0] == "";
    assert Number("") == 0;
  }

  lemma {:induction false} DecimalOfNumber(s: string)
    requires IsNumber(s)
    ensures Decimal(Number(s)) == s
    ensures s[0] != '0' ==> Number(s) > 0
  {
    hide Decimal;
    hide Number;
    hide Digit;
    var t, c := s[..|s| - 1], s[|s| - 1];
    assert s == t + [c];
    DigitOnly(c);
    if t == "" {
      assert s == [c];
    } else {
      assert t[0] == s[0] && s[0] != '0' && IsNumber(t);
      DecimalOfNumber(t);
      NumberSnoc(t, c);
      DecimalSnoc(Number(t), c as nat - '0' as nat);
    }
  }
}

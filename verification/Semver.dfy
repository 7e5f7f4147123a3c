/** Version texts "vMAJOR.MINOR.PATCH" and the order of section 11 of Semantic Versioning 2.0.0,
    as golang.org/x/mod/semver compares them. */
module Semver {
  import opened Options
  import opened Text

  datatype Triple = Triple(major: nat, minor: nat, patch: nat)

  function Parse(s: string): Option<Triple>
  {
    if s == "" || s[0] != 'v' then None
    else
      var parts := Split(s[1..], '.');
      if |parts| == 3 && IsNumber(parts[0]) && IsNumber(parts[1]) && IsNumber(parts[2])
      then Some(Triple(Number(parts[0]), Number(parts[1]), Number(parts[2])))
      else None
  }

  function Sign(x: int, y: int): int
  {
    if x < y then -1 else if x > y then 1 else 0
  }

  /** A malformed version is smaller than every well-formed one and equal to every malformed one. */
  function Compare(a: string, b: string): int
  {
    match (Parse(a), Parse(b))
    case (None, None) => 0
    case (None, _) => -1
    case (_, None) => 1
    case (Some(x), Some(y)) =>
      if x.major != y.major then Sign(x.major, y.major)
      else if x.minor != y.minor then Sign(x.minor, y.minor)
      else Sign(x.patch, y.patch)
  }

  lemma CompareTransitive(a: string, b: string, c: string)
    requires Compare(a, b) < 0 && Compare(b, c) < 0
    ensures Compare(a, c) < 0
  {
  }

  lemma CompareAntisymmetric(a: string, b: string)
    ensures Compare(a, b) == -Compare(b, a)
    ensures a == b ==> Compare(a, b) == 0
  {
  }

  lemma DigitNumber(d: char)
    requires '0' <= d <= '9'
    ensures IsNumber([d]) && Number([d]) == d as nat - '0' as nat
  {
    assert [d][..0] == "";
    assert Number("") == 0;
  }

  lemma ParseParts(a: string, b: string, c: string)
    requires IsNumber(a) && IsNumber(b) && IsNumber(c)
    ensures Parse("v" + a + "." + b + "." + c) == Some(Triple(Number(a), Number(b), Number(c)))
  {
    hide Number;
    var v := "v" + a + "." + b + "." + c;
    assert v[1..] == a + ['.'] + (b + ['.'] + c);
    SplitFirst(a, '.', b + ['.'] + c);
    SplitFirst(b, '.', c);
    SplitWhole(c, '.');
    hide Split;
    assert Split(v[1..], '.') == [a, b, c];
  }

  lemma ParseDigits(a: char, b: char, c: char)
    requires '0' <= a <= '9' && '0' <= b <= '9' && '0' <= c <= '9'
    ensures Parse(['v', a, '.', b, '.', c]) ==
            Some(Triple(a as nat - '0' as nat, b as nat - '0' as nat, c as nat - '0' as nat))
  {
    hide Parse;
    hide Number;
    DigitNumber(a);
    DigitNumber(b);
    DigitNumber(c);
    ParseParts([a], [b], [c]);
    assert ['v', a, '.', b, '.', c] == "v" + [a] + "." + [b] + "." + [c];
  }

  /** A text is a version exactly when it is the three numbers written out. */
  lemma ParseExactly(s: string, t: Triple)
    ensures Parse(s) == Some(t) <==> s == "v" + Decimal(t.major) + "." + Decimal(t.minor) + "." + Decimal(t.patch)
  {
    hide Decimal;
    hide Number;
    hide Parse;
    NumberOfDecimal(t.major);
    NumberOfDecimal(t.minor);
    NumberOfDecimal(t.patch);
    ParseParts(Decimal(t.major), Decimal(t.minor), Decimal(t.patch));
    if Parse(s) == Some(t) {
      ParsedIsWritten(s, t);
    }
  }

  lemma ParsedIsWritten(s: string, t: Triple)
    requires Parse(s) == Some(t)
    ensures s == "v" + Decimal(t.major) + "." + Decimal(t.minor) + "." + Decimal(t.patch)
  {
    hide Decimal;
    hide Number;
    hide Split;
    hide Join;
    var parts := Split(s[1..], '.');
    JoinSplit(s[1..], '.');
    ThreeJoined(parts);
    DecimalOfNumber(parts[0]);
    DecimalOfNumber(parts[1]);
    DecimalOfNumber(parts[2]);
    assert s == "v" + s[1..];
    hide Parse;
    hide IsNumber;
    assert s == "v" + (parts[0] + "." + parts[1] + "." + parts[2]);
    assert "v" + (parts[0] + "." + parts[1] + "." + parts[2]) == "v" + parts[0] + "." + parts[1] + "." + parts[2];
  }

  lemma ThreeJoined(parts: seq<string>)
    requires |parts| == 3
    ensures Join(parts, '.') == parts[0] + "." + parts[1] + "." + parts[2]
  {
    assert parts[1..][1..] == parts[2..] && Join(parts[2..], '.') == parts[2];
    assert Join(parts[1..], '.') == parts[1] + "." + parts[2];
  }

  /** The order of versions: the first number that differs decides; malformed texts come first. */
  lemma CompareExactly(a: string, b: string)
    ensures Compare(a, b) == 0 <==> Parse(a) == Parse(b)
    ensures Compare(a, b) < 0 <==>
      && Parse(b).Some?
      && (Parse(a).None? || Earlier(Parse(a).value, Parse(b).value))
  {
  }

  predicate Earlier(x: Triple, y: Triple)
  {
    x.major < y.major || (x.major == y.major && (x.minor < y.minor || (x.minor == y.minor && x.patch < y.patch)))
  }
}

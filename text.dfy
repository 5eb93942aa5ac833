/**
 * The pieces of Python's string handling the core relies on: str.isspace and
 * str.strip (with Python's whitespace set), str.split on one separator
 * character, str() of an integer, and the acceptance of int() and float(),
 * which this model takes as parameters.
 */
module Text {

  /** Whether Python's int(s) and float(s) return without raising, for a string s.
      Python's literal grammars are not part of this model: each is given by the set of strings it accepts. */
  datatype Parsers = Parsers(intLiterals: iset<string>, floatLiterals: iset<string>) {
    predicate AcceptsInt(s: string) { s in intLiterals }
    predicate AcceptsFloat(s: string) { s in floatLiterals }
  }

  /** The characters Python's str.isspace accepts and str.strip removes. */
  predicate IsSpace(c: char) {
    c == ' ' || '\t' <= c <= '\r' || '\U{1c}' <= c <= '\U{1f}' || c == '\U{85}' || c == '\U{a0}'
    || c == '\U{1680}' || '\U{2000}' <= c <= '\U{200a}' || c == '\U{2028}' || c == '\U{2029}'
    || c == '\U{202f}' || c == '\U{205f}' || c == '\U{3000}'
  }

  predicate AllSpace(s: string) {
    forall i :: 0 <= i < |s| ==> IsSpace(s[i])
  }

  /** Python's str.isspace: non-empty and made only of whitespace. */
  predicate IsSpaceString(s: string) {
    |s| > 0 && AllSpace(s)
  }

  /** is_empty of app/api_1_0/models.py: true for "" and for all-whitespace strings. */
  function IsEmpty(value: string): (r: bool)
    ensures r <==> forall i :: 0 <= i < |value| ==> IsSpace(value[i])
  {
    IsSpaceString(value) || value == ""
  }

  /** Python's str.lstrip(): drops leading whitespace. */
  function TrimLeft(s: string): (r: string)
    ensures |r| <= |s| && r == s[|s| - |r|..]
    ensures forall i :: 0 <= i < |s| - |r| ==> IsSpace(s[i])
    ensures r == [] || !IsSpace(r[0])
  {
    if |s| > 0 && IsSpace(s[0]) then TrimLeft(s[1..]) else s
  }

  /** Python's str.rstrip(): drops trailing whitespace. */
  function TrimRight(s: string): (r: string)
    ensures |r| <= |s| && r == s[..|r|]
    ensures forall i :: |r| <= i < |s| ==> IsSpace(s[i])
    ensures r == [] || !IsSpace(r[|r| - 1])
  {
    if |s| > 0 && IsSpace(s[|s| - 1]) then TrimRight(s[..|s| - 1]) else s
  }

  /** Python's str.strip(): the middle of s, between leading and trailing whitespace. */
  function Strip(s: string): (r: string)
    ensures |r| <= |s|
    ensures r == [] || (!IsSpace(r[0]) && !IsSpace(r[|r| - 1]))
    ensures r == [] <==> AllSpace(s)
  {
    var left := TrimLeft(s);
    var r := TrimRight(left);
    r
  }

  /** str.strip() removes exactly the leading and the trailing whitespace: the
      result is a slice of s with only whitespace before it and after it. */
  lemma StripIsMiddle(s: string) returns (i: nat, j: nat)
    ensures i <= j <= |s| && Strip(s) == s[i..j]
    ensures AllSpace(s[..i]) && AllSpace(s[j..])
  {
    var p, left := TrimLeftSplit(s);
    var r, q := TrimRightSplit(left);
    i, j := |p|, |p| + |r|;
    SliceThree(s, p, left, r, q);
    assert s[i..j] == r;
    assert s[..i] == p;
    assert s[j..] == q;
  }

  /** s is its leading whitespace followed by TrimLeft(s). */
  lemma TrimLeftSplit(s: string) returns (p: string, rest: string)
    ensures rest == TrimLeft(s) && s == p + rest && AllSpace(p)
  {
    rest := TrimLeft(s);
    p := s[..|s| - |rest|];
    assert s == p + s[|s| - |rest|..];
  }

  /** s is TrimRight(s) followed by its trailing whitespace. */
  lemma TrimRightSplit(s: string) returns (rest: string, q: string)
    ensures rest == TrimRight(s) && s == rest + q && AllSpace(q)
  {
    rest := TrimRight(s);
    q := s[|rest|..];
    assert s == s[..|rest|] + q;
    forall k | 0 <= k < |q|
      ensures IsSpace(q[k])
    {
      assert q[k] == s[|rest| + k];
    }
  }

  /** Where the three parts of s == p + (r + q) sit in s. */
  lemma SliceThree(s: string, p: string, t: string, r: string, q: string)
    requires s == p + t && t == r + q
    ensures |p| + |r| <= |s| && s[|p|..|p| + |r|] == r
    ensures s[..|p|] == p && s[|p| + |r|..] == q
  {
    assert forall k :: 0 <= k < |r| ==> s[|p| + k] == r[k];
    assert forall k :: 0 <= k < |q| ==> s[|p| + |r| + k] == q[k];
  }

  /** The number of occurrences of c in s. */
  function Count(s: string, c: char): nat {
    if s == [] then 0 else (if s[0] == c then 1 else 0) + Count(s[1..], c)
  }

  /** Python's s.split(sep) for a one-character separator: the pieces between separators. */
  function Split(s: string, sep: char): (parts: seq<string>)
    ensures |parts| == Count(s, sep) + 1
    ensures forall k :: 0 <= k < |parts| ==> sep !in parts[k]
  {
    if s == [] then [[]]
    else
      var rest := Split(s[1..], sep);
      if s[0] == sep then [[]] + rest
      else [[s[0]] + rest[0]] + rest[1..]
  }

  /** The inverse of Split: the pieces with sep between them. A split never
      yields an empty list, so the empty list is not joined. */
  function Join(parts: seq<string>, sep: char): string
    requires |parts| > 0
  {
    if |parts| == 1 then parts[0] else parts[0] + [sep] + Join(parts[1..], sep)
  }

  /** Joining the pieces of a split gives back the original string. */
  lemma {:induction false} JoinSplit(s: string, sep: char)
    ensures Join(Split(s, sep), sep) == s
  {
    if s != [] {
      var rest := Split(s[1..], sep);
      JoinSplit(s[1..], sep);
      if s[0] == sep {
        assert Split(s, sep)[1..] == rest;
      } else {
        var parts := Split(s, sep);
        if |rest| == 1 {
          assert parts == [[s[0]] + rest[0]];
        } else {
          assert parts[1..] == rest[1..];
          assert Join(rest, sep) == rest[0] + [sep] + Join(rest[1..], sep);
        }
      }
    }
  }

  /** Splitting a join of separator-free pieces gives back the pieces. */
  lemma {:induction false} SplitJoin(parts: seq<string>, sep: char)
    requires |parts| > 0
    requires forall k :: 0 <= k < |parts| ==> sep !in parts[k]
    ensures Split(Join(parts, sep), sep) == parts
  {
    if |parts| == 1 {
      SplitPiece(parts[0], sep);
    } else {
      SplitJoin(parts[1..], sep);
      SplitPrefix(parts[0], sep, Join(parts[1..], sep));
      assert [parts[0]] + parts[1..] == parts;
    }
  }

  /** A string without the separator splits into itself. */
  lemma {:induction false} SplitPiece(a: string, sep: char)
    requires sep !in a
    ensures Split(a, sep) == [a]
  {
    if a != [] {
      SplitPiece(a[1..], sep);
      assert [a[0]] + a[1..] == a;
    }
  }

  /** Splitting a + [sep] + b: the separator-free prefix a is the first piece. */
  lemma {:induction false} SplitPrefix(a: string, sep: char, b: string)
    requires sep !in a
    ensures Split(a + [sep] + b, sep) == [a] + Split(b, sep)
  {
    if a == [] {
      assert a + [sep] + b == [sep] + b;
      assert ([sep] + b)[1..] == b;
    } else {
      assert (a + [sep] + b)[1..] == a[1..] + [sep] + b;
      SplitPrefix(a[1..], sep, b);
      assert [a[0]] + a[1..] == a;
    }
  }

  /** [x.strip() for x in parts] */
  function StripAll(parts: seq<string>): (stripped: seq<string>)
    ensures |stripped| == |parts|
  {
    if parts == [] then [] else [Strip(parts[0])] + StripAll(parts[1..])
  }

  /** The stripped pieces of the comma-split of a location:
      [x.strip() for x in location.split(',')]. */
  function Coordinates(location: string): (coords: seq<string>)
    ensures |coords| == Count(location, ',') + 1
  {
    StripAll(Split(location, ','))
  }

  /** Two separator-free pieces around one separator split back into those pieces. */
  lemma {:induction false} SplitTwo(a: string, sep: char, b: string)
    requires sep !in a && sep !in b
    ensures Split(a + [sep] + b, sep) == [a, b]
  {
    SplitPrefix(a, sep, b);
    SplitPiece(b, sep);
  }

  /** At a comma that is the only one in the location, the coordinates are the
      stripped text on either side of it. */
  lemma {:induction false} CoordinatesAtComma(location: string, k: nat)
    requires k < |location| && location[k] == ','
    requires ',' !in location[..k] && ',' !in location[k + 1..]
    ensures Coordinates(location) == [Strip(location[..k]), Strip(location[k + 1..])]
  {
    var a, b := location[..k], location[k + 1..];
    assert location == a + [','] + b;
    SplitTwo(a, ',', b);
    assert [a, b][1..] == [b] && [b][1..] == [];
    assert StripAll([b]) == [Strip(b)];
    assert StripAll([a, b]) == [Strip(a), Strip(b)];
  }

  /** A location with exactly two coordinates has exactly one comma, at the returned position. */
  lemma {:induction false} SoleComma(location: string) returns (k: nat)
    requires |Coordinates(location)| == 2
    ensures k < |location| && location[k] == ','
    ensures ',' !in location[..k] && ',' !in location[k + 1..]
  {
    var parts := Split(location, ',');
    assert |parts| == 2;
    var a, b := parts[0], parts[1];
    assert ',' !in a && ',' !in b;
    JoinSplit(location, ',');
    assert parts[1..] == [b];
    assert location == a + [','] + b;
    k := |a|;
    assert location[..k] == a && location[k + 1..] == b && location[k] == ',';
  }

  function DigitChar(d: nat): (c: char)
    requires d < 10
    ensures '0' <= c <= '9'
  {
    ('0' as int + d) as char
  }

  /** Python's str(n) for a non-negative integer: its decimal digits, most significant first. */
  function NatToString(n: nat): (r: string)
    ensures |r| > 0
    ensures n >= 10 ==> |r| >= 2
    ensures forall i :: 0 <= i < |r| ==> '0' <= r[i] <= '9'
  {
    if n < 10 then [DigitChar(n)] else NatToString(n / 10) + [DigitChar(n % 10)]
  }

  /** Python's str(i) for any integer: a minus sign exactly for a negative number,
      then decimal digits. */
  function IntToString(i: int): (r: string)
    ensures |r| > 0 && (r[0] == '-' <==> i < 0)
    ensures forall k :: (if i < 0 then 1 else 0) <= k < |r| ==> '0' <= r[k] <= '9'
  {
    if i < 0 then "-" + NatToString(-i) else NatToString(i)
  }

  /** The number a string of decimal digits denotes, most significant digit first. */
  function DecimalValue(s: string): nat
    requires forall i :: 0 <= i < |s| ==> '0' <= s[i] <= '9'
  {
    if s == [] then 0 else DecimalValue(s[..|s| - 1]) * 10 + (s[|s| - 1] as int - '0' as int)
  }

  /** str(n) spells n in decimal, most significant digit first, with no leading zero. */
  lemma {:induction false} NatToStringValue(n: nat)
    ensures DecimalValue(NatToString(n)) == n
    ensures NatToString(n)[0] != '0' || n == 0
  {
    if n >= 10 {
      NatToStringValue(n / 10);
      var s := NatToString(n);
      assert s[..|s| - 1] == NatToString(n / 10);
    }
  }

  /** str(i) is a minus sign for a negative i, then the decimal spelling of |i|. */
  lemma {:induction false} IntToStringValue(i: int)
    ensures i < 0 ==> DecimalValue(IntToString(i)[1..]) == -i
    ensures i >= 0 ==> DecimalValue(IntToString(i)) == i
  {
    if i < 0 {
      var digits := NatToString(-i);
      assert IntToString(i) == "-" + digits;
      assert ("-" + digits)[1..] == digits;
      NatToStringValue(-i);
    } else {
      NatToStringValue(i);
    }
  }

  /** Different integers have different str() renderings, so comparing ids as text
      compares the ids. */
  lemma {:induction false} IntToStringInjective(a: int, b: int)
    requires IntToString(a) == IntToString(b)
    ensures a == b
  {
    if a < 0 && b < 0 {
      assert NatToString(-a) == IntToString(a)[1..];
      assert NatToString(-b) == IntToString(b)[1..];
      NatToStringInjective(-a, -b);
    } else if a >= 0 && b >= 0 {
      NatToStringInjective(a, b);
    }
  }

  /** Different numbers have different decimal renderings. */
  lemma {:induction false} NatToStringInjective(m: nat, n: nat)
    requires NatToString(m) == NatToString(n)
    ensures m == n
  {
    var sm, sn := NatToString(m), NatToString(n);
    if m >= 10 && n >= 10 {
      var pm, pn := NatToString(m / 10), NatToString(n / 10);
      assert sm == pm + [DigitChar(m % 10)] && sn == pn + [DigitChar(n % 10)];
      assert sm[|sm| - 1] == DigitChar(m % 10) && sn[|sn| - 1] == DigitChar(n % 10);
      assert pm == sm[..|sm| - 1] && pn == sn[..|sn| - 1];
      NatToStringInjective(m / 10, n / 10);
    } else if m < 10 && n < 10 {
      assert sm[0] == DigitChar(m) && sn[0] == DigitChar(n);
    }
  }
}

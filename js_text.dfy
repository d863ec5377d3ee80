/**
 * The pieces of JavaScript's string library the application relies on, written out as
 * functions over `seq<char>`: the `\d` and `\s` character classes, `replace` with a
 * global character-class pattern, `trim`, `includes`, `startsWith`, `split`, `join`,
 * `parseInt` on a digit-only string, `Number.prototype.toString` and `padStart(2, '0')`.
 */
module JsText {

  /** The class `\d`: ASCII digits only. */
  predicate IsDigit(c: char) {
    '0' <= c <= '9'
  }

  /**
   * The class `\s`, which is also the set that `String.prototype.trim` removes:
   * the ECMAScript WhiteSpace and LineTerminator code points.
   */
  predicate IsWhitespace(c: char) {
    c == ' ' || c == '\t' || c == '\n' || c == '\r' || c == '\U{000B}' || c == '\U{000C}'
    || c == '\U{00A0}' || c == '\U{1680}' || ('\U{2000}' <= c <= '\U{200A}')
    || c == '\U{2028}' || c == '\U{2029}' || c == '\U{202F}' || c == '\U{205F}'
    || c == '\U{3000}' || c == '\U{FEFF}'
  }

  predicate IsNotWhitespace(c: char) {
    !IsWhitespace(c)
  }

  predicate AllDigits(s: string) {
    forall i :: 0 <= i < |s| ==> IsDigit(s[i])
  }

  /** `s.replace(/[^K]/g, '')`: keep exactly the characters accepted by `keep`, in order. */
  function Filter(s: string, keep: char -> bool): (r: string)
    ensures |r| <= |s|
    ensures forall i :: 0 <= i < |r| ==> keep(r[i])
  {
    if s == [] then [] else (if keep(s[0]) then [s[0]] else []) + Filter(s[1..], keep)
  }

  /** `s.replace(/\D/g, '')` */
  function Digits(s: string): string {
    Filter(s, IsDigit)
  }

  /** `s.replace(/\s/g, '')` */
  function WithoutWhitespace(s: string): string {
    Filter(s, IsNotWhitespace)
  }

  lemma {:induction false} FilterAppend(a: string, b: string, keep: char -> bool)
    ensures Filter(a + b, keep) == Filter(a, keep) + Filter(b, keep)
    decreases |a|
  {
    if a != [] {
      assert (a + b)[1..] == a[1..] + b;
      FilterAppend(a[1..], b, keep);
    } else {
      assert a + b == b;
    }
  }

  /** Filtering keeps a string whose every character is kept. */
  lemma {:induction false} FilterKeepsAll(s: string, keep: char -> bool)
    requires forall i :: 0 <= i < |s| ==> keep(s[i])
    ensures Filter(s, keep) == s
    decreases |s|
  {
    if s != [] {
      FilterKeepsAll(s[1..], keep);
    }
  }

  /** Filtering with a weaker test first changes nothing: `Filter(Filter(s, a), b) == Filter(s, b)`. */
  lemma {:induction false} FilterFilter(s: string, a: char -> bool, b: char -> bool)
    requires forall c :: b(c) ==> a(c)
    ensures Filter(Filter(s, a), b) == Filter(s, b)
    decreases |s|
  {
    if s != [] {
      var head := if a(s[0]) then [s[0]] else [];
      FilterAppend(head, Filter(s[1..], a), b);
      FilterFilter(s[1..], a, b);
    }
  }

  /** Removing white space before removing non-digits gives the same digits. */
  lemma DigitsIgnoreWhitespace(s: string)
    ensures Digits(WithoutWhitespace(s)) == Digits(s)
  {
    FilterFilter(s, IsNotWhitespace, IsDigit);
  }

  // ---------------------------------------------------------------- trim

  function TrimStart(s: string): (r: string)
    ensures |r| <= |s|
    ensures r == [] || !IsWhitespace(r[0])
  {
    if s != [] && IsWhitespace(s[0]) then TrimStart(s[1..]) else s
  }

  function TrimEnd(s: string): (r: string)
    ensures |r| <= |s|
    ensures r == [] || !IsWhitespace(r[|r| - 1])
  {
    if s != [] && IsWhitespace(s[|s| - 1]) then TrimEnd(s[..|s| - 1]) else s
  }

  /** Neither end is white space. */
  predicate IsTrimmed(s: string) {
    s == [] || (!IsWhitespace(s[0]) && !IsWhitespace(s[|s| - 1]))
  }

  /** How many UTF-16 code units a character takes: two outside the Basic Multilingual Plane. */
  function CodeUnits(c: char): nat {
    if c as int < 0x10000 then 1 else 2
  }

  /** `String.prototype.length`, which counts UTF-16 code units rather than characters. */
  function Length(s: string): (n: nat)
    ensures |s| <= n <= 2 * |s|
    ensures n == 0 <==> s == []
  {
    if s == [] then 0 else CodeUnits(s[0]) + Length(s[1..])
  }

  /** The length of a concatenation is the sum of the lengths. */
  lemma {:induction false} LengthAppend(a: string, b: string)
    ensures Length(a + b) == Length(a) + Length(b)
  {
    if a != [] {
      assert (a + b)[1..] == a[1..] + b;
      LengthAppend(a[1..], b);
    } else {
      assert a + b == b;
    }
  }

  /** A text inside the Basic Multilingual Plane has as many code units as characters. */
  lemma {:induction false} LengthInPlane(s: string)
    requires forall i :: 0 <= i < |s| ==> s[i] as int < 0x10000
    ensures Length(s) == |s|
  {
    if s != [] {
      LengthInPlane(s[1..]);
    }
  }

  /** A text with a character outside the Basic Multilingual Plane has more code units than characters. */
  lemma {:induction false} LengthBeyondPlane(s: string, i: int)
    requires 0 <= i < |s| && s[i] as int >= 0x10000
    ensures Length(s) > |s|
  {
    if i > 0 {
      LengthBeyondPlane(s[1..], i - 1);
    }
  }

  /** `String.prototype.trim` */
  function Trim(s: string): (r: string)
    ensures IsTrimmed(r)
    ensures |r| <= |s|
  {
    TrimEndPrefix(TrimStart(s));
    TrimEnd(TrimStart(s))
  }

  lemma {:induction false} TrimEndPrefix(s: string)
    ensures TrimEnd(s) == s[..|TrimEnd(s)|]
  {
    if s != [] && IsWhitespace(s[|s| - 1]) {
      TrimEndPrefix(s[..|s| - 1]);
    }
  }

  /** Trim removes nothing from a string that is already trimmed, so it is idempotent. */
  lemma TrimTrimmed(s: string)
    requires IsTrimmed(s)
    ensures Trim(s) == s
  {
  }

  lemma TrimIdempotent(s: string)
    ensures Trim(Trim(s)) == Trim(s)
  {
    TrimTrimmed(Trim(s));
  }

  // ---------------------------------------------------------------- search

  /** `s.startsWith(p)` */
  predicate StartsWith(s: string, p: string) {
    |p| <= |s| && s[..|p|] == p
  }

  /** The `n` characters of `s` from index `i` on. */
  function Window(s: string, i: nat, n: nat): string
    requires i + n <= |s|
  {
    s[i..i + n]
  }

  /** `s.includes(p)`: some window of `s` is `p`. */
  predicate Contains(s: string, p: string) {
    exists i: nat :: i + |p| <= |s| && Window(s, i, |p|) == p
  }

  lemma ContainsAt(s: string, p: string, i: nat)
    requires i + |p| <= |s| && s[i..i + |p|] == p
    ensures Contains(s, p)
  {
    assert Window(s, i, |p|) == p;
  }

  /** A string contains what its prefix contains. */
  lemma ContainsInPrefix(s: string, p: string, q: string, i: nat)
    requires StartsWith(s, p) && i + |q| <= |p| && p[i..i + |q|] == q
    ensures Contains(s, q)
  {
    assert s[i..i + |q|] == p[i..i + |q|];
    ContainsAt(s, q, i);
  }

  /** A string lacking one of the pattern's characters does not contain the pattern. */
  lemma NotContainsMissingChar(s: string, p: string, c: char)
    requires c in p && c !in s
    ensures !Contains(s, p)
  {
    var k :| 0 <= k < |p| && p[k] == c;
    forall i: nat | i + |p| <= |s|
      ensures Window(s, i, |p|) != p
    {
      assert Window(s, i, |p|)[k] == s[i + k];
    }
  }

  /**
   * A window of `x + y` lies in `x`, in `y`, or covers the last character of `x`; when that
   * character does not occur in `p`, only the first two remain.
   */
  lemma NotContainsAcross(x: string, y: string, p: string)
    requires x != [] && x[|x| - 1] !in p
    requires !Contains(x, p) && !Contains(y, p)
    ensures !Contains(x + y, p)
  {
    var s := x + y;
    forall i: nat | i + |p| <= |s|
      ensures Window(s, i, |p|) != p
    {
      if i + |p| <= |x| {
        assert Window(s, i, |p|) == Window(x, i, |p|);
      } else if i >= |x| {
        assert Window(s, i, |p|) == Window(y, i - |x|, |p|);
      } else {
        assert Window(s, i, |p|)[|x| - 1 - i] == x[|x| - 1];
      }
    }
  }

  // ---------------------------------------------------------------- split and join

  /** `parts.join(sep)` */
  function Join(parts: seq<string>, sep: string): string {
    if parts == [] then ""
    else if |parts| == 1 then parts[0]
    else parts[0] + sep + Join(parts[1..], sep)
  }

  /** `s.split(sep)` for a one-character separator. */
  function Split(s: string, sep: char): (r: seq<string>)
    ensures |r| >= 1
    ensures |r| == 1 <==> sep !in s
    ensures forall k :: 0 <= k < |r| ==> sep !in r[k]
    decreases |s|
  {
    if s == [] then [""]
    else
      var rest := Split(s[1..], sep);
      if s[0] == sep then [""] + rest else [[s[0]] + rest[0]] + rest[1..]
  }

  /** Every character of every piece of a split satisfies what every character of the string does. */
  lemma {:induction false} SplitKeeps(s: string, sep: char, keep: char -> bool)
    requires forall i :: 0 <= i < |s| ==> keep(s[i])
    ensures forall k, i :: 0 <= k < |Split(s, sep)| && 0 <= i < |Split(s, sep)[k]| ==> keep(Split(s, sep)[k][i])
    decreases |s|
  {
    if s != [] {
      var rest := Split(s[1..], sep);
      SplitKeeps(s[1..], sep, keep);
      if s[0] != sep {
        var head := [s[0]] + rest[0];
        assert forall i :: 0 <= i < |head| ==> keep(head[i]) by {
          assert forall i :: 1 <= i < |head| ==> head[i] == rest[0][i - 1];
        }
        assert Split(s, sep) == [head] + rest[1..];
      }
    }
  }

  /** Joining the pieces of a split gives back the string. */
  lemma {:induction false} JoinSplit(s: string, sep: char)
    ensures Join(Split(s, sep), [sep]) == s
    decreases |s|
  {
    if s != [] {
      var rest := Split(s[1..], sep);
      JoinSplit(s[1..], sep);
      if s[0] == sep {
        assert Split(s, sep) == [""] + rest;
        assert ([""] + rest)[1..] == rest;
      } else {
        var r := [[s[0]] + rest[0]] + rest[1..];
        assert Split(s, sep) == r;
        if |rest| == 1 {
          assert Join(rest, [sep]) == rest[0];
        } else {
          assert r[1..] == rest[1..];
          assert Join(rest, [sep]) == rest[0] + [sep] + Join(rest[1..], [sep]);
        }
      }
    }
  }

  /** Splitting a join of separator-free pieces gives back the pieces. */
  lemma {:induction false} SplitJoin(parts: seq<string>, sep: char)
    requires |parts| >= 1
    requires forall k :: 0 <= k < |parts| ==> sep !in parts[k]
    ensures Split(Join(parts, [sep]), sep) == parts
    decreases |parts|, |parts[0]|
  {
    var s := Join(parts, [sep]);
    if |parts| == 1 {
      SplitFree(parts[0], sep);
    } else if parts[0] == [] {
      assert s == [sep] + Join(parts[1..], [sep]);
      assert s[1..] == Join(parts[1..], [sep]);
      SplitJoin(parts[1..], sep);
      assert [""] + parts[1..] == parts;
    } else {
      var shorter := [parts[0][1..]] + parts[1..];
      assert shorter[1..] == parts[1..];
      assert Join(shorter, [sep]) == parts[0][1..] + [sep] + Join(parts[1..], [sep]);
      assert s == [parts[0][0]] + Join(shorter, [sep]);
      assert s[1..] == Join(shorter, [sep]);
      assert forall c :: c in parts[0][1..] ==> c in parts[0];
      SplitJoin(shorter, sep);
      assert [parts[0][0]] + shorter[0] == parts[0];
      assert [[parts[0][0]] + shorter[0]] + shorter[1..] == parts;
    }
  }

  lemma {:induction false} SplitFree(s: string, sep: char)
    requires sep !in s
    ensures Split(s, sep) == [s]
    decreases |s|
  {
    if s != [] {
      SplitFree(s[1..], sep);
      assert [s[0]] + s[1..] == s;
    }
  }

  // ---------------------------------------------------------------- numbers

  function DigitValue(c: char): nat
    requires IsDigit(c)
  {
    c as int - '0' as int
  }

  function DigitChar(d: nat): (c: char)
    requires d < 10
    ensures IsDigit(c) && DigitValue(c) == d
  {
    ('0' as int + d) as char
  }

  /**
   * `parseInt(s) || 0` for a string of digits: its decimal value, with the empty string
   * (on which `parseInt` yields `NaN`) read as 0.
   */
  function Value(s: string): nat
    requires AllDigits(s)
  {
    if s == [] then 0 else 10 * Value(s[..|s| - 1]) + DigitValue(s[|s| - 1])
  }

  /** `n.toString()` for a natural number: its decimal digits without leading zeros. */
  function NatToString(n: nat): (r: string)
    ensures r != [] && AllDigits(r)
    ensures Value(r) == n
    ensures n < 10 <==> |r| == 1
    ensures 10 <= n < 100 <==> |r| == 2
    ensures |r| > 1 ==> r[0] != '0'
  {
    if n < 10 then [DigitChar(n)]
    else
      var r := NatToString(n / 10) + [DigitChar(n % 10)];
      assert r[..|r| - 1] == NatToString(n / 10);
      r
  }

  /** `String(i)` for an integer. */
  function IntToString(i: int): (r: string)
    ensures r != []
  {
    if i < 0 then "-" + NatToString(-i) else NatToString(i)
  }

  /** `s.padStart(2, '0')` */
  function PadTwo(s: string): (r: string)
    ensures |s| <= 2 ==> |r| == 2
    ensures |s| >= 2 ==> r == s
    ensures r[|r| - |s|..] == s
  {
    if |s| == 0 then "00" else if |s| == 1 then "0" + s else s
  }
}

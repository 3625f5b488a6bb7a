/**
 * The pieces of JavaScript's string library the core relies on:
 * number formatting inside template literals, `parseInt` with no radix,
 * `includes`, `startsWith`, `trim`, `Array.prototype.join` and the URL
 * pattern of the rule tables.
 */
module Strings {

  import opened Wrappers

  /** The characters `String.prototype.trim` removes: WhiteSpace and LineTerminator. */
  predicate IsJsWhitespace(c: char) {
    var n := c as int;
    (0x09 <= n <= 0x0D) || n == 0x20 || n == 0xA0 || n == 0x1680 ||
    (0x2000 <= n <= 0x200A) || n == 0x2028 || n == 0x2029 || n == 0x202F ||
    n == 0x205F || n == 0x3000 || n == 0xFEFF
  }

  predicate AllWhitespace(s: string) {
    forall i :: 0 <= i < |s| ==> IsJsWhitespace(s[i])
  }

  predicate StartsWith(s: string, prefix: string) {
    |prefix| <= |s| && s[..|prefix|] == prefix
  }

  /** `s.includes(sub)`: `sub` occurs somewhere in `s` (the empty string occurs everywhere). */
  predicate Contains(s: string, sub: string) {
    exists i :: 0 <= i <= |s| - |sub| && OccursAt(s, sub, i)
  }

  predicate OccursAt(s: string, sub: string, i: int) {
    0 <= i <= |s| - |sub| && s[i..i + |sub|] == sub
  }

  /** The characters a regular expression's `.` does not match. */
  predicate IsLineTerminator(c: char) {
    var n := c as int;
    n == 0x0A || n == 0x0D || n == 0x2028 || n == 0x2029
  }

  /**
   * `/^https?:\/\/.+/.test(s)`: the scheme `http` or `https`, `://`, and at
   * least one more character that is not a line terminator.
   */
  predicate IsHttpUrl(s: string) {
    (StartsWith(s, "http://") && |s| > 7 && !IsLineTerminator(s[7])) ||
    (StartsWith(s, "https://") && |s| > 8 && !IsLineTerminator(s[8]))
  }

  // ---------------------------------------------------------------- trim

  function TrimStart(s: string): (r: string)
    ensures |r| <= |s| && r == s[|s| - |r|..]
    ensures AllWhitespace(s[..|s| - |r|])
    ensures r == "" || !IsJsWhitespace(r[0])
  {
    if s != [] && IsJsWhitespace(s[0]) then
      var r := TrimStart(s[1..]);
      assert s[..|s| - |r|] == [s[0]] + s[1..][..|s[1..]| - |r|];
      r
    else s
  }

  function TrimEnd(s: string): (r: string)
    ensures |r| <= |s| && r == s[..|r|]
    ensures AllWhitespace(s[|r|..])
    ensures r == "" || !IsJsWhitespace(r[|r| - 1])
  {
    if s != [] && IsJsWhitespace(s[|s| - 1]) then
      var r := TrimEnd(s[..|s| - 1]);
      assert s[|r|..] == s[..|s| - 1][|r|..] + [s[|s| - 1]];
      r
    else s
  }

  /** `s.trim()`: what is left after removing whitespace at both ends (see `TrimIsMiddleSlice`). */
  function Trim(s: string): (r: string)
    ensures |r| <= |s|
    ensures r == "" || (!IsJsWhitespace(r[0]) && !IsJsWhitespace(r[|r| - 1]))
  {
    var t := TrimStart(s);
    var r := TrimEnd(t);
    assert r != [] ==> r[0] == t[0];
    r
  }

  /** The trimmed string is a slice of `s` with only whitespace before and after it. */
  lemma TrimIsMiddleSlice(s: string)
    ensures exists i, j :: 0 <= i <= j <= |s| && Trim(s) == s[i..j] &&
                           AllWhitespace(s[..i]) && AllWhitespace(s[j..])
  {
    var t := TrimStart(s);
    var r := TrimEnd(t);
    assert Trim(s) == r;
    var i := |s| - |t|;
    var j := i + |r|;
    TrimSlices(s, t, r);
    assert 0 <= i <= j <= |s| && r == s[i..j] && AllWhitespace(s[..i]) && AllWhitespace(s[j..]);
  }

  /** Trimming the start and then the end leaves a middle slice, with whitespace on both sides. */
  lemma TrimSlices(s: string, t: string, r: string)
    requires |t| <= |s| && t == s[|s| - |t|..]
    requires |r| <= |t| && r == t[..|r|] && AllWhitespace(t[|r|..])
    ensures r == s[|s| - |t|..|s| - |t| + |r|]
    ensures s[|s| - |t| + |r|..] == t[|r|..]
  {
  }

  /** `!s.trim()`: the trimmed string is empty exactly when every character is whitespace. */
  lemma TrimEmptyIffAllWhitespace(s: string)
    ensures Trim(s) == "" <==> AllWhitespace(s)
  {
    var r := Trim(s);
    TrimIsMiddleSlice(s);
    var i, j :| 0 <= i <= j <= |s| && r == s[i..j] && AllWhitespace(s[..i]) && AllWhitespace(s[j..]);
    if r == "" {
      forall k | 0 <= k < |s| ensures IsJsWhitespace(s[k]) {
        if k < i { assert s[k] == s[..i][k]; } else { assert s[k] == s[j..][k - j]; }
      }
    }
  }

  // ------------------------------------------------------ number to text

  function DigitChar(d: nat): (c: char)
    requires d < 10
  {
    "0123456789"[d]
  }

  /** Decimal text of a natural number, as `${n}` prints it. */
  function NatToString(n: nat): (s: string)
    ensures |s| > 0
    ensures forall i :: 0 <= i < |s| ==> IsDecimalDigit(s[i])
    decreases n
  {
    if n < 10 then [DigitChar(n)] else NatToString(n / 10) + [DigitChar(n % 10)]
  }

  /** Decimal text of an integer, with a leading '-' when it is negative. */
  function IntToString(n: int): (s: string)
    ensures |s| > 0
  {
    if n < 0 then "-" + NatToString(-n) else NatToString(n)
  }

  // ----------------------------------------------------------- parseInt

  predicate IsDecimalDigit(c: char) {
    '0' <= c <= '9'
  }

  /** Whether `c` is a digit in base `radix` (10 or 16, letters in either case). */
  predicate IsRadixDigit(c: char, radix: nat) {
    if radix == 16 then IsDecimalDigit(c) || 'a' <= c <= 'f' || 'A' <= c <= 'F'
    else IsDecimalDigit(c)
  }

  function RadixDigitValue(c: char): (d: nat)
  {
    if IsDecimalDigit(c) then c as nat - '0' as nat
    else if 'a' <= c <= 'f' then c as nat - 'a' as nat + 10
    else if 'A' <= c <= 'F' then c as nat - 'A' as nat + 10
    else 0
  }

  /** Number of leading characters of `s` that are digits in base `radix`. */
  function DigitRun(s: string, radix: nat): (k: nat)
    ensures k <= |s|
    ensures forall i :: 0 <= i < k ==> IsRadixDigit(s[i], radix)
    ensures k < |s| ==> !IsRadixDigit(s[k], radix)
  {
    if s != [] && IsRadixDigit(s[0], radix) then 1 + DigitRun(s[1..], radix) else 0
  }

  /** The value of a digit string read most significant digit first. */
  function DigitsValue(s: string, radix: nat): nat
  {
    if s == [] then 0 else DigitsValue(s[..|s| - 1], radix) * radix + RadixDigitValue(s[|s| - 1])
  }

  function SkipWhitespace(s: string): (r: string)
    ensures |r| <= |s| && r == s[|s| - |r|..]
    ensures r == [] || !IsJsWhitespace(r[0])
  {
    TrimStart(s)
  }

  /**
   * `parseInt(s)` without a radix: leading whitespace and one sign are skipped,
   * a `0x`/`0X` prefix selects base 16, and the longest run of digits that
   * follows is converted. `None` stands for NaN (no digit at all).
   */
  function ParseInt(s: string): (r: Option<int>)
  {
    var t := SkipWhitespace(s);
    if t != [] && t[0] == '-' then Negate(ParseUnsigned(t[1..]))
    else if t != [] && t[0] == '+' then ParseUnsigned(t[1..])
    else ParseUnsigned(t)
  }

  function Negate(v: Option<int>): (r: Option<int>)
    ensures v.None? ==> r.None?
    ensures v.Some? ==> r == Some(-v.value)
  {
    if v.None? then None else Some(-v.value)
  }

  /** The digits after the sign: base 16 after `0x`/`0X`, base 10 otherwise. */
  function ParseUnsigned(u: string): (r: Option<int>)
    ensures r.Some? ==> r.value >= 0
  {
    var hex := |u| >= 2 && u[0] == '0' && (u[1] == 'x' || u[1] == 'X');
    var radix := if hex then 16 else 10;
    var body := if hex then u[2..] else u;
    var k := DigitRun(body, radix);
    if k == 0 then None else Some(DigitsValue(body[..k], radix))
  }

  lemma {:induction false} NatToStringValue(n: nat)
    ensures DigitsValue(NatToString(n), 10) == n
    decreases n
  {
    var s := NatToString(n);
    if n < 10 {
      assert s[..|s| - 1] == [];
    } else {
      NatToStringValue(n / 10);
      assert s[..|s| - 1] == NatToString(n / 10);
      assert RadixDigitValue(s[|s| - 1]) == n % 10;
    }
  }

  lemma AllDigitsRun(s: string)
    requires forall i :: 0 <= i < |s| ==> IsDecimalDigit(s[i])
    ensures DigitRun(s, 10) == |s|
  {
  }

  lemma ParseUnsignedOfDigits(d: string)
    requires d != [] && forall i :: 0 <= i < |d| ==> IsDecimalDigit(d[i])
    ensures ParseUnsigned(d) == Some(DigitsValue(d, 10) as int)
  {
    AllDigitsRun(d);
    assert !(|d| >= 2 && (d[1] == 'x' || d[1] == 'X')) by {
      if |d| >= 2 { assert IsDecimalDigit(d[1]); }
    }
    assert d[..|d|] == d;
  }

  lemma ParseIntOfDigits(d: string)
    requires d != [] && forall i :: 0 <= i < |d| ==> IsDecimalDigit(d[i])
    ensures ParseInt(d) == Some(DigitsValue(d, 10))
  {
    ParseUnsignedOfDigits(d);
    assert IsDecimalDigit(d[0]);
    SkipNothing(d);
  }

  lemma ParseIntOfMinus(d: string)
    requires d != [] && IsDecimalDigit(d[0])
    ensures ParseInt("-" + d) == Negate(ParseUnsigned(d))
  {
    var m := "-" + d;
    assert m[0] == '-';
    SkipNothing(m);
    assert m[1..] == d;
  }

  lemma SkipNothing(s: string)
    requires s != [] && !IsJsWhitespace(s[0])
    ensures SkipWhitespace(s) == s
  {
  }

  /** `parseInt` reads back every integer printed by a template literal. */
  lemma ParseIntOfIntToString(n: int)
    ensures ParseInt(IntToString(n)) == Some(n)
  {
    var a: nat := if n < 0 then -n else n;
    NatToStringValue(a);
    if n < 0 {
      ParseIntOfMinus(NatToString(a));
      ParseUnsignedOfDigits(NatToString(a));
    } else {
      ParseIntOfDigits(NatToString(a));
    }
  }

  // ----------------------------------------------------------------- join

  /** `items.join(sep)`. */
  function Join(items: seq<string>, sep: string): (r: string)
    ensures items == [] ==> r == ""
    ensures |items| == 1 ==> r == items[0]
  {
    if items == [] then ""
    else if |items| == 1 then items[0]
    else items[0] + sep + Join(items[1..], sep)
  }
}

/** The JavaScript string operations the components rely on: truthiness,
    `String.prototype.trim`, digit strings, `parseInt`, number-to-string
    conversion of integers and `Array.prototype.join`. */
module Strings {
  import opened Wrappers

  /** Truthiness of a value of type `string | null | undefined`. */
  predicate Truthy(s: Option<string>) {
    s.Some? && s.value != ""
  }

  /** The white-space and line-terminator characters skipped by `trim` and
      `parseInt` (the Unicode space separators beyond U+00A0 are not listed). */
  predicate IsWhitespace(c: char) {
    c == ' ' || c == '\t' || c == '\n' || c == '\r' || c == '\U{000B}' || c == '\U{000C}'
    || c == '\U{00A0}' || c == '\U{2028}' || c == '\U{2029}' || c == '\U{FEFF}'
  }

  predicate IsBlank(s: string) {
    forall i :: 0 <= i < |s| ==> IsWhitespace(s[i])
  }

  /** Drops leading white space: the result is a suffix of `s`, what was dropped
      is blank, and the result does not start with white space. */
  function TrimStart(s: string): (r: string)
    ensures |r| <= |s| && r == s[|s| - |r|..]
    ensures r == [] || !IsWhitespace(r[0])
    ensures IsBlank(s[..|s| - |r|])
  {
    if s != [] && IsWhitespace(s[0]) then
      var r := TrimStart(s[1..]);
      assert s[1..][..|s| - 1 - |r|] == s[1..|s| - |r|];
      r
    else
      s
  }

  /** Drops trailing white space: the result is a prefix of `s`, what was
      dropped is blank, and the result does not end with white space. */
  function TrimEnd(s: string): (r: string)
    ensures |r| <= |s| && r == s[..|r|]
    ensures r == [] || !IsWhitespace(r[|r| - 1])
    ensures IsBlank(s[|r|..])
  {
    if s != [] && IsWhitespace(s[|s| - 1]) then
      var r := TrimEnd(s[..|s| - 1]);
      assert s[..|s| - 1][|r|..] == s[|r|..|s| - 1];
      assert s[|r|..] == s[..|s| - 1][|r|..] + [s[|s| - 1]];
      r
    else
      s
  }

  /** `s.trim()`: the trimmed string is empty exactly when `s` is blank, and
      otherwise neither starts nor ends with white space; it is what is left
      of `s` once blank ends are cut off. */
  function Trim(s: string): (r: string)
    ensures |r| <= |s|
    ensures r == [] <==> IsBlank(s)
    ensures r != [] ==> !IsWhitespace(r[0]) && !IsWhitespace(r[|r| - 1])
    ensures exists i, j :: 0 <= i <= j <= |s| && r == s[i..j] && IsBlank(s[..i]) && IsBlank(s[j..])
  {
    var t := TrimStart(s);
    var r := TrimEnd(t);
    TrimmedEmptyIsBlank(s, t);
    BlankEnds(s, t, r);
    assert 0 <= |s| - |t| <= |s| - |t| + |r| <= |s|;
    r
  }

  /** Cutting a blank prefix off `s`, leaving `t`, and then a blank suffix off
      `t`, leaving `r`, cuts a blank prefix and a blank suffix off `s`. */
  lemma BlankEnds(s: string, t: string, r: string)
    requires |t| <= |s| && t == s[|s| - |t|..] && IsBlank(s[..|s| - |t|])
    requires |r| <= |t| && r == t[..|r|] && IsBlank(t[|r|..])
    ensures r == s[|s| - |t|..|s| - |t| + |r|] && IsBlank(s[|s| - |t| + |r|..])
  {
    assert s[|s| - |t| + |r|..] == t[|r|..];
  }

  /** A string whose leading white space leaves `t` behind is blank when `t` is. */
  lemma TrimmedEmptyIsBlank(s: string, t: string)
    requires t == TrimStart(s)
    ensures TrimEnd(t) == [] <==> IsBlank(s)
    ensures TrimEnd(t) != [] ==> TrimEnd(t)[0] == t[0]
  {
    var k := |s| - |t|;
    if TrimEnd(t) == [] {
      assert t[0..] == t;
      assert t == [];
      forall i | 0 <= i < |s| ensures IsWhitespace(s[i]) {
        assert s[i] == s[..k][i];
      }
    }
  }

  predicate IsDigit(c: char) {
    '0' <= c <= '9'
  }

  predicate IsDigits(s: string) {
    forall i :: 0 <= i < |s| ==> IsDigit(s[i])
  }

  function DigitValue(c: char): (d: nat)
    requires IsDigit(c)
    ensures d < 10
  {
    c as int - '0' as int
  }

  function DigitChar(d: nat): (c: char)
    requires d < 10
    ensures IsDigit(c) && DigitValue(c) == d
  {
    ('0' as int + d) as char
  }

  /** The value of a string of decimal digits, most significant digit first. */
  function DecimalValue(s: string): nat
    requires IsDigits(s)
  {
    if s == [] then 0 else 10 * DecimalValue(s[..|s| - 1]) + DigitValue(s[|s| - 1])
  }

  /** The decimal numeral of `n`, as JavaScript prints a non-negative integer
      below 10^21 (larger ones it prints in exponent form): non-empty, digits
      only, no leading zero, and denoting `n`. */
  function NatToDecimal(n: nat): (s: string)
    ensures |s| >= 1 && IsDigits(s)
    ensures DecimalValue(s) == n
    ensures s[0] == '0' ==> s == "0"
  {
    if n < 10 then
      [DigitChar(n)]
    else
      var p := NatToDecimal(n / 10);
      var s := p + [DigitChar(n % 10)];
      assert s[..|s| - 1] == p;
      s
  }

  /** `${i}` for an integer `i`. */
  function IntToDecimal(i: int): string {
    if i < 0 then "-" + NatToDecimal(-i) else NatToDecimal(i)
  }

  /** The length of the longest prefix of `s` made of decimal digits. */
  function DigitPrefixLength(s: string): (n: nat)
    ensures n <= |s| && IsDigits(s[..n])
    ensures n < |s| ==> !IsDigit(s[n])
  {
    if s == [] || !IsDigit(s[0]) then
      0
    else
      var m := DigitPrefixLength(s[1..]);
      1 + m
  }

  /** The value of the longest run of leading digits, `None` when there is
      none. */
  function ParseDigits(u: string): (r: Option<nat>)
    ensures r == None <==> u == [] || !IsDigit(u[0])
    ensures IsDigits(u) && u != "" ==> r == Some(DecimalValue(u))
  {
    var n := DigitPrefixLength(u);
    DigitPrefixOfDigits(u);
    assert IsDigits(u) ==> u[..n] == u;
    if n == 0 then None else Some(DecimalValue(u[..n]))
  }

  /** `parseInt(s)` with no radix, `None` standing for NaN: leading white space is
      skipped, one sign is read, then the longest run of decimal digits. */
  function ParseInt(s: string): (r: Option<int>)
    ensures s == "" ==> r == None
    ensures IsDigits(s) && s != "" ==> r == Some(DecimalValue(s))
  {
    var t := TrimStart(s);
    assert IsDigits(s) && s != "" ==> t == s;
    ParseSigned(t)
  }

  /** The part of `parseInt` after the white space: one optional sign, then digits. */
  function ParseSigned(t: string): (r: Option<int>)
    ensures t == "" ==> r == None
    ensures IsDigits(t) && t != "" ==> r == Some(DecimalValue(t))
  {
    if t != [] && t[0] == '-' then
      match ParseDigits(t[1..])
      case None => None
      case Some(v) => Some(-(v as int))
    else if t != [] && t[0] == '+' then
      match ParseDigits(t[1..])
      case None => None
      case Some(v) => Some(v as int)
    else
      match ParseDigits(t)
      case None => None
      case Some(v) => Some(v as int)
  }

  /** Reading back what `IntToDecimal` prints gives the integer again. */
  lemma ParseIntOfDecimal(i: int)
    ensures ParseInt(IntToDecimal(i)) == Some(i)
  {
    if i < 0 {
      ParseIntNegative(NatToDecimal(-i));
    }
  }

  /** A minus sign followed by digits reads as the negated digit value. */
  lemma ParseIntNegative(d: string)
    requires IsDigits(d) && d != ""
    ensures ParseInt("-" + d) == Some(-(DecimalValue(d) as int))
  {
    TrimStartKeeps("-" + d);
    ParseSignedNegative(d);
  }

  /** The same after the white space has been skipped. */
  lemma ParseSignedNegative(d: string)
    requires IsDigits(d) && d != ""
    ensures ParseSigned("-" + d) == Some(-(DecimalValue(d) as int))
  {
    assert ("-" + d)[1..] == d;
  }

  /** A string that does not start with white space is its own `TrimStart`. */
  lemma TrimStartKeeps(s: string)
    requires s != [] && !IsWhitespace(s[0])
    ensures TrimStart(s) == s
  {
  }

  /** A digit string is one run of digits. */
  lemma {:induction false} DigitPrefixOfDigits(d: string)
    ensures IsDigits(d) ==> DigitPrefixLength(d) == |d|
  {
    if d != [] && IsDigits(d) {
      DigitPrefixOfDigits(d[1..]);
    }
  }

  /** `parts.join(sep)`. */
  function Join(parts: seq<string>, sep: string): string {
    if |parts| == 0 then ""
    else if |parts| == 1 then parts[0]
    else parts[0] + sep + Join(parts[1..], sep)
  }

  /** Joining one more part appends the separator and that part. */
  lemma {:induction false} JoinAppend(parts: seq<string>, p: string, sep: string)
    requires parts != []
    ensures Join(parts + [p], sep) == Join(parts, sep) + sep + p
  {
    if |parts| == 1 {
      assert (parts + [p])[1..] == [p];
    } else {
      assert (parts + [p])[1..] == parts[1..] + [p];
      JoinAppend(parts[1..], p, sep);
    }
  }
}

/** The JavaScript built-ins that the proxy and the browser rely on:
    `String.prototype.trim`, the `x || default` idiom on possibly missing
    values, `Math.min`/`Math.max`, and `String(n)` on integers. */
module Js {

  /** A value that may be missing (`undefined` or `null`). */
  datatype Option<+T> = None | Some(value: T) {
    /** `x || default` for a value whose every present form is truthy (arrays, objects). */
    function GetOr(default: T): (r: T)
      ensures this.Some? ==> r == this.value
      ensures this.None? ==> r == default
    {
      match this
      case Some(v) => v
      case None => default
    }
  }

  /** A primitive value held in a parameter object. */
  datatype Value = Str(s: string) | Num(n: int) | Bool(b: bool)

  /** A possibly missing string is truthy when it is present and not empty:
      `undefined`, `null` and `''` are its only falsy forms. */
  predicate Truthy(s: Option<string>)
    ensures Truthy(s) <==> s != None && s != Some("")
  {
    s.Some? && s.value != ""
  }

  /** `x || 1` on a possibly missing number: missing and 0 are falsy. */
  function OrOne(x: Option<int>): (r: int)
    ensures r != 0
    ensures x.Some? && x.value != 0 ==> r == x.value
    ensures x.None? || x.value == 0 ==> r == 1
  {
    if x.Some? && x.value != 0 then x.value else 1
  }

  /** `Math.min` on two integers. */
  function Min(a: int, b: int): (r: int)
    ensures r <= a && r <= b
    ensures r == a || r == b
  {
    if a <= b then a else b
  }

  /** `Math.max` on two integers. */
  function Max(a: int, b: int): (r: int)
    ensures r >= a && r >= b
    ensures r == a || r == b
  {
    if a >= b then a else b
  }

  // ---------------------------------------------------------------------
  // String.prototype.trim
  // ---------------------------------------------------------------------

  /** ECMAScript WhiteSpace and LineTerminator code points, which `trim` removes. */
  predicate IsWhitespace(c: char) {
    || c == '\t' || c == '\n' || c == '\U{000B}' || c == '\U{000C}' || c == '\r'
    || c == ' ' || c == '\U{00A0}' || c == '\U{1680}'
    || ('\U{2000}' <= c <= '\U{200A}')
    || c == '\U{2028}' || c == '\U{2029}' || c == '\U{202F}' || c == '\U{205F}'
    || c == '\U{3000}' || c == '\U{FEFF}'
  }

  /** The Unicode "Space_Separator" (Zs) code points. */
  const SpaceSeparators: set<char> := {
    ' ', '\U{00A0}', '\U{1680}',
    '\U{2000}', '\U{2001}', '\U{2002}', '\U{2003}', '\U{2004}', '\U{2005}',
    '\U{2006}', '\U{2007}', '\U{2008}', '\U{2009}', '\U{200A}',
    '\U{202F}', '\U{205F}', '\U{3000}'}

  /** The WhiteSpace production of ECMAScript (section 12.2 of ECMA-262):
      TAB, VT, FF, ZWNBSP and every Space_Separator. */
  const EcmaWhiteSpace: set<char> := {'\t', '\U{000B}', '\U{000C}', '\U{FEFF}'} + SpaceSeparators

  /** The LineTerminator production of ECMAScript (section 12.3 of ECMA-262): LF, CR, LS and PS. */
  const EcmaLineTerminators: set<char> := {'\n', '\r', '\U{2028}', '\U{2029}'}

  /** `IsWhitespace` is exactly the set `trim` strips by the standard. */
  lemma WhitespaceIsEcmaSet(c: char)
    ensures IsWhitespace(c) <==> c in EcmaWhiteSpace + EcmaLineTerminators
  {
  }

  ghost predicate AllWhitespace(s: string) {
    forall i :: 0 <= i < |s| ==> IsWhitespace(s[i])
  }

  /** The number of whitespace characters `s` starts with. */
  function LeadingWhitespace(s: string): (n: nat)
    ensures n <= |s|
    ensures forall i :: 0 <= i < n ==> IsWhitespace(s[i])
    ensures n < |s| ==> !IsWhitespace(s[n])
    decreases |s|
  {
    if s == [] || !IsWhitespace(s[0]) then 0 else 1 + LeadingWhitespace(s[1..])
  }

  /** The number of whitespace characters `s` ends with. */
  function TrailingWhitespace(s: string): (n: nat)
    ensures n <= |s|
    ensures forall i :: |s| - n <= i < |s| ==> IsWhitespace(s[i])
    ensures n < |s| ==> !IsWhitespace(s[|s| - 1 - n])
    decreases |s|
  {
    if s == [] || !IsWhitespace(s[|s| - 1]) then 0 else 1 + TrailingWhitespace(s[..|s| - 1])
  }

  /** Neither end of `s` is whitespace. */
  predicate IsTrimmed(s: string) {
    s == [] || (!IsWhitespace(s[0]) && !IsWhitespace(s[|s| - 1]))
  }

  /** `s.trim()`. */
  function Trim(s: string): (r: string)
    ensures |r| <= |s|
    ensures IsTrimmed(r)
    ensures r == [] <==> AllWhitespace(s)
  {
    var rest := s[LeadingWhitespace(s)..];
    rest[..|rest| - TrailingWhitespace(rest)]
  }

  /** `r` is `s` with whitespace, and only whitespace, removed from its two ends. */
  ghost predicate StripsEnds(s: string, r: string) {
    exists i :: 0 <= i <= |s| - |r| && s[i..i + |r|] == r
      && AllWhitespace(s[..i]) && AllWhitespace(s[i + |r|..])
  }

  /** Trimming keeps the middle of the string intact. */
  lemma TrimKeepsMiddle(s: string)
    ensures StripsEnds(s, Trim(s))
  {
    var i := LeadingWhitespace(s);
    var rest := s[i..];
    var r := Trim(s);
    assert s[i..i + |r|] == r;
    assert AllWhitespace(s[..i]) by {
      forall k | 0 <= k < i ensures IsWhitespace(s[..i][k]) { }
    }
    assert AllWhitespace(s[i + |r|..]) by {
      forall k | i + |r| <= k < |s| ensures IsWhitespace(s[k]) {
        assert s[k] == rest[k - i];
      }
    }
  }

  /** A string with non-whitespace ends is its own trim. */
  lemma TrimOfTrimmed(s: string)
    requires IsTrimmed(s)
    ensures Trim(s) == s
  {
  }

  /** Trimming twice is trimming once. */
  lemma TrimIdempotent(s: string)
    ensures Trim(Trim(s)) == Trim(s)
  {
    TrimOfTrimmed(Trim(s));
  }

  // ---------------------------------------------------------------------
  // String(n) on integers
  // ---------------------------------------------------------------------

  predicate IsDigit(c: char) {
    '0' <= c <= '9'
  }

  function DigitChar(d: nat): (c: char)
    requires d < 10
    ensures IsDigit(c) && c as int - '0' as int == d
  {
    ('0' as int + d) as char
  }

  /** The decimal notation of a natural number. */
  function NatToDecimal(n: nat): (r: string)
    ensures r != [] && forall i :: 0 <= i < |r| ==> IsDigit(r[i])
    decreases n
  {
    if n < 10 then [DigitChar(n)] else NatToDecimal(n / 10) + [DigitChar(n % 10)]
  }

  /** The number a string of decimal digits denotes. */
  function DecimalValue(s: string): nat
    requires forall i :: 0 <= i < |s| ==> IsDigit(s[i])
    decreases |s|
  {
    if s == [] then 0
    else
      assert IsDigit(s[|s| - 1]);
      DecimalValue(s[..|s| - 1]) * 10 + (s[|s| - 1] as int - '0' as int)
  }

  /** Reading back the decimal notation gives the number: the page text the
      proxy forwards upstream denotes the page the browser asked for. */
  lemma {:induction false} DecimalRoundTrip(n: nat)
    ensures DecimalValue(NatToDecimal(n)) == n
    decreases n
  {
    if n >= 10 {
      var r := NatToDecimal(n);
      assert r[..|r| - 1] == NatToDecimal(n / 10);
      DecimalRoundTrip(n / 10);
    }
  }

  /** `String(n)` for an integer: a minus sign for a negative one, then the decimal digits of its magnitude. */
  function IntToDecimal(n: int): (r: string)
    ensures r != []
    ensures n >= 0 ==> r == NatToDecimal(n)
    ensures n < 0 ==> r[0] == '-' && r[1..] == NatToDecimal(-n)
  {
    if n < 0 then "-" + NatToDecimal(-n) else NatToDecimal(n)
  }

  /** `String(v)` for a primitive value, as `URLSearchParams` writes it: a
      string as it is, a number in decimal, a boolean as `true` or `false`. */
  function ValueText(v: Value): (r: string)
    ensures v.Str? ==> r == v.s
    ensures v.Num? ==> r == IntToDecimal(v.n)
    ensures v.Bool? ==> r == (if v.b then "true" else "false")
  {
    match v
    case Str(s) => s
    case Num(n) => IntToDecimal(n)
    case Bool(b) => if b then "true" else "false"
  }
}

/**
 * Integer text: decimal rendering, JavaScript's `parseInt(s)` (no radix
 * argument) and Python's `int(s)`.
 */
module Numbers {
  import opened Wrappers

  predicate IsDecimalDigit(c: char) {
    '0' <= c <= '9'
  }

  predicate IsHexDigit(c: char) {
    IsDecimalDigit(c) || 'a' <= c <= 'f' || 'A' <= c <= 'F'
  }

  /** `c` is a digit of base `radix`; only bases 10 and 16 arise. */
  predicate IsDigitIn(c: char, radix: nat) {
    if radix == 16 then IsHexDigit(c) else IsDecimalDigit(c)
  }

  function DigitValue(c: char, radix: nat): (d: nat)
    requires IsDigitIn(c, radix)
    ensures d < (if radix == 16 then 16 else 10)
  {
    if IsDecimalDigit(c) then c as int - '0' as int
    else if 'a' <= c <= 'f' then c as int - 'a' as int + 10
    else c as int - 'A' as int + 10
  }

  predicate AllDigits(z: string, radix: nat) {
    forall i :: 0 <= i < |z| ==> IsDigitIn(z[i], radix)
  }

  /** The number that the digit string `z` writes in base `radix`. */
  function DigitsValue(z: string, radix: nat): nat
    requires AllDigits(z, radix)
    decreases |z|
  {
    if z == [] then 0
    else
      var high := DigitsValue(z[..|z| - 1], radix);
      (if radix == 16 then high * 16 else high * 10) + DigitValue(z[|z| - 1], radix)
  }

  /** The longest prefix of `s` made of base-`radix` digits. */
  function DigitPrefix(s: string, radix: nat): (z: string)
    ensures z <= s && AllDigits(z, radix)
    ensures |z| < |s| ==> !IsDigitIn(s[|z|], radix)
    decreases |s|
  {
    if s == [] || !IsDigitIn(s[0], radix) then []
    else [s[0]] + DigitPrefix(s[1..], radix)
  }

  function DigitChar(d: nat): (c: char)
    requires d < 10
    ensures IsDecimalDigit(c) && DigitValue(c, 10) == d
  {
    ('0' as int + d) as char
  }

  /** The decimal text of `n`, as both JavaScript and Python print it. */
  function NatToString(n: nat): (s: string)
    ensures |s| >= 1 && AllDigits(s, 10)
    ensures DigitsValue(s, 10) == n
    decreases n
  {
    if n < 10 then [DigitChar(n)]
    else
      var s := NatToString(n / 10) + [DigitChar(n % 10)];
      assert s[..|s| - 1] == NatToString(n / 10);
      s
  }

  /** `str(n)` in Python, `${n}` in JavaScript: a '-' in front of negatives. */
  function IntToString(n: int): string {
    if n < 0 then "-" + NatToString(-n) else NatToString(n)
  }

  /** Rendered integers hold only a minus sign and digits. */
  lemma IntToStringChars(n: int)
    ensures forall k :: 0 <= k < |IntToString(n)| ==> IntToString(n)[k] == '-' || IsDecimalDigit(IntToString(n)[k])
  {
    var s := IntToString(n);
    var digits := NatToString(if n < 0 then -n else n);
    forall k | 0 <= k < |s| ensures s[k] == '-' || IsDecimalDigit(s[k]) {
      if n < 0 {
        if k > 0 {
          assert s[k] == digits[k - 1];
          assert IsDigitIn(digits[k - 1], 10);
        }
      } else {
        assert IsDigitIn(digits[k], 10);
      }
    }
  }

  /** A rendered integer holds no field separator of the chart formats. */
  lemma IntToStringPlain(n: int)
    ensures '\t' !in IntToString(n) && '<' !in IntToString(n) && ',' !in IntToString(n)
  {
    IntToStringChars(n);
  }

  /**
   * The characters JavaScript's `parseInt` skips at the start: the
   * WhiteSpace and LineTerminator characters of the ECMAScript standard
   * (section 12.2 and 12.3 of ECMA-262), space separators included.
   */
  predicate IsJsWhitespace(c: char) {
    c == '\t' || c == '\n' || c == '\U{000B}' || c == '\U{000C}' || c == '\r' || c == ' '
    || c == '\U{00A0}' || c == '\U{1680}' || ('\U{2000}' <= c <= '\U{200A}')
    || c == '\U{2028}' || c == '\U{2029}' || c == '\U{202F}' || c == '\U{205F}'
    || c == '\U{3000}' || c == '\U{FEFF}'
  }

  function TrimJsStart(s: string): (t: string)
    ensures |t| <= |s| && t == s[|s| - |t|..]
    ensures t != [] ==> !IsJsWhitespace(t[0])
    ensures s != [] && !IsJsWhitespace(s[0]) ==> t == s
    decreases |s|
  {
    if s != [] && IsJsWhitespace(s[0]) then TrimJsStart(s[1..]) else s
  }

  /**
   * JavaScript's `parseInt(s)`: skip leading white space, take an optional
   * sign, read hexadecimal after "0x"/"0X" and decimal otherwise, and stop
   * at the first character that is not a digit. `None` is NaN, returned
   * when no digit is read. Negative zero is 0.
   */
  function JsParseInt(s: string): Option<int> {
    var t := TrimJsStart(s);
    var u := if t != [] && (t[0] == '-' || t[0] == '+') then t[1..] else t;
    match Magnitude(u)
    case None => None
    case Some(m) => if t != [] && t[0] == '-' then Some(-(m as int)) else Some(m)
  }

  /** The unsigned part of `parseInt`: a "0x" prefix selects base 16. */
  function Magnitude(u: string): Option<nat> {
    if |u| >= 2 && u[0] == '0' && (u[1] == 'x' || u[1] == 'X') then LeadingNumber(u[2..], 16)
    else LeadingNumber(u, 10)
  }

  /** The value of the longest digit prefix, `None` when there is no digit. */
  function LeadingNumber(w: string, radix: nat): Option<nat> {
    var z := DigitPrefix(w, radix);
    if z == [] then None else Some(DigitsValue(z, radix))
  }

  /** A plain run of decimal digits is read whole, in base 10. */
  lemma MagnitudeOfDigits(u: string)
    requires |u| >= 1 && AllDigits(u, 10)
    ensures Magnitude(u) == Some(DigitsValue(u, 10))
    ensures !IsJsWhitespace(u[0]) && u[0] != '-' && u[0] != '+'
  {
    assert IsDigitIn(u[0], 10);
    if |u| >= 2 {
      assert IsDigitIn(u[1], 10);
    }
    assert DigitPrefix(u, 10) == u;
  }

  /** A text that starts with neither white space, a sign nor a digit is NaN. */
  lemma JsParseIntNoDigit(s: string)
    requires s != [] && !IsJsWhitespace(s[0]) && s[0] != '-' && s[0] != '+' && !IsDecimalDigit(s[0])
    ensures JsParseInt(s) == None
  {
    assert TrimJsStart(s) == s;
    assert DigitPrefix(s, 10) == [];
  }

  /** `parseInt` of an unsigned number. */
  lemma JsParseIntUnsigned(u: string, m: nat)
    requires Magnitude(u) == Some(m)
    requires u != [] && !IsJsWhitespace(u[0]) && u[0] != '-' && u[0] != '+'
    ensures JsParseInt(u) == Some(m)
  {
  }

  /** `parseInt` of a minus sign in front of a number. */
  lemma JsParseIntNegative(u: string, m: nat)
    requires Magnitude(u) == Some(m)
    ensures JsParseInt("-" + u) == Some(-(m as int))
  {
    var v := "-" + u;
    assert v[0] == '-' && v[1..] == u;
    assert TrimJsStart(v) == v;
  }

  /** `parseInt` reads back every integer JavaScript prints. */
  lemma JsParseIntRoundTrip(n: int)
    ensures JsParseInt(IntToString(n)) == Some(n)
  {
    var m: nat := if n < 0 then -n else n;
    var digits := NatToString(m);
    MagnitudeOfDigits(digits);
    if n < 0 {
      JsParseIntNegative(digits, m);
    } else {
      JsParseIntUnsigned(digits, m);
    }
  }

  /** The white space Python's `int` strips at both ends (ASCII part). */
  predicate IsPyWhitespace(c: char) {
    c == ' ' || ('\t' <= c <= '\r') || ('\U{001C}' <= c <= '\U{001F}')
  }

  function StripPy(s: string): (t: string)
    ensures |t| <= |s|
    ensures t != [] ==> !IsPyWhitespace(t[0]) && !IsPyWhitespace(t[|t| - 1])
    ensures s != [] && !IsPyWhitespace(s[0]) && !IsPyWhitespace(s[|s| - 1]) ==> t == s
    decreases |s|
  {
    if s == [] then s
    else if IsPyWhitespace(s[0]) then StripPy(s[1..])
    else if IsPyWhitespace(s[|s| - 1]) then StripPy(s[..|s| - 1])
    else s
  }

  predicate DigitsOrUnderscores(z: string) {
    forall i :: 0 <= i < |z| ==> IsDecimalDigit(z[i]) || z[i] == '_'
  }

  /** Decimal digits in which single underscores may separate digit groups. */
  predicate IsGroupedDigits(z: string) {
    && z != [] && IsDecimalDigit(z[0]) && IsDecimalDigit(z[|z| - 1])
    && DigitsOrUnderscores(z)
    && forall i :: 0 <= i < |z| - 1 && z[i] == '_' ==> IsDecimalDigit(z[i + 1])
  }

  function DropUnderscores(z: string): (d: string)
    requires DigitsOrUnderscores(z)
    ensures AllDigits(d, 10)
    ensures AllDigits(z, 10) ==> d == z
    decreases |z|
  {
    if z == [] then []
    else (if z[0] == '_' then [] else [z[0]]) + DropUnderscores(z[1..])
  }

  /**
   * Python's `int(s)` on a string: surrounding white space, an optional
   * sign and decimal digits with optional single underscores between them;
   * anything else raises ValueError, which is `None` here.
   */
  function PyParseInt(s: string): Option<int> {
    var t := StripPy(s);
    var negative := t != [] && t[0] == '-';
    var u := if t != [] && (t[0] == '-' || t[0] == '+') then t[1..] else t;
    if !IsGroupedDigits(u) then None
    else if negative then Some(-(DigitsValue(DropUnderscores(u), 10) as int))
    else Some(DigitsValue(DropUnderscores(u), 10))
  }

  /** `int(c)` of a single character: its value for a digit, ValueError otherwise. */
  lemma PyParseIntOneChar(c: char)
    ensures IsDecimalDigit(c) ==> PyParseInt([c]) == Some(DigitValue(c, 10))
    ensures !IsDecimalDigit(c) ==> PyParseInt([c]) == None
  {
    if IsDecimalDigit(c) {
      assert StripPy([c]) == [c];
      assert DropUnderscores([c]) == [c];
      assert DigitsValue([c], 10) == DigitValue(c, 10);
    }
  }

  /** `int(str(n)) == n`. */
  lemma PyParseIntRoundTrip(n: int)
    ensures PyParseInt(IntToString(n)) == Some(n)
  {
    var digits := NatToString(if n < 0 then -n else n);
    if n < 0 {
      assert IntToString(n)[1..] == digits;
    }
  }
}

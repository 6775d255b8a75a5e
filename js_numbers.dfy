/**
 * JavaScript's global `parseInt(string)` called without a radix (ECMA-262, section 19.2.5),
 * which the lyric handler applies to the `trackId` form field before comparing it with `===`.
 */
module JsNumbers {

  /** The Number values `parseInt` can return: an integer or NaN. */
  datatype IntOrNaN = Int(value: int) | NaN

  /** Strict equality `===` on such values: NaN equals nothing, not even NaN. */
  predicate StrictEquals(a: IntOrNaN, b: IntOrNaN) {
    a.Int? && b.Int? && a.value == b.value
  }

  /** The WhiteSpace and LineTerminator code points that `parseInt` skips at the start. */
  predicate IsStrWhiteSpace(c: char) {
    c == '\t' || c == '\U{000B}' || c == '\U{000C}' || c == ' ' || c == '\U{00A0}' || c == '\U{FEFF}'
    || c == '\U{1680}' || ('\U{2000}' <= c <= '\U{200A}') || c == '\U{202F}' || c == '\U{205F}'
    || c == '\U{3000}' || c == '\n' || c == '\r' || c == '\U{2028}' || c == '\U{2029}'
  }

  /** The value of `c` as a digit of base 36 (`0`-`9`, then letters of either case), 36 if it is none. */
  function DigitValue(c: char): (d: nat)
    ensures d <= 36
  {
    if '0' <= c <= '9' then c as int - '0' as int
    else if 'a' <= c <= 'z' then c as int - 'a' as int + 10
    else if 'A' <= c <= 'Z' then c as int - 'A' as int + 10
    else 36
  }

  predicate IsDigit(c: char, radix: nat) {
    DigitValue(c) < radix
  }

  /** The string with its leading white space removed. */
  function TrimStart(s: string): (r: string)
    ensures |r| <= |s| && r == s[|s| - |r|..]
    ensures forall i :: 0 <= i < |s| - |r| ==> IsStrWhiteSpace(s[i])
    ensures r == [] || !IsStrWhiteSpace(r[0])
  {
    if s != [] && IsStrWhiteSpace(s[0]) then TrimStart(s[1..]) else s
  }

  /** The longest prefix of `s` made of digits of the given radix. */
  function DigitPrefix(s: string, radix: nat): (r: string)
    ensures |r| <= |s| && r == s[..|r|]
    ensures forall i :: 0 <= i < |r| ==> IsDigit(r[i], radix)
    ensures |r| == |s| || !IsDigit(s[|r|], radix)
  {
    if s != [] && IsDigit(s[0], radix) then [s[0]] + DigitPrefix(s[1..], radix) else []
  }

  /** The number a digit string denotes in the given radix, most significant digit first. */
  function DigitsValue(ds: string, radix: nat): int
  {
    if ds == [] then 0 else DigitsValue(ds[..|ds| - 1], radix) * radix + DigitValue(ds[|ds| - 1])
  }

  /**
   * `parseInt(input)`: skip leading white space, take an optional sign, read a `0x`/`0X` prefix as
   * radix 16 and radix 10 otherwise, then the longest run of digits; no digit at all gives NaN.
   */
  function ParseInt(input: string): (r: IntOrNaN)
    ensures (forall i :: 0 <= i < |input| ==> !IsDigit(input[i], 10)) ==> r == NaN
  {
    ParseTrimmed(TrimStart(input))
  }

  /** `parseInt` after the leading white space is gone: an optional sign, then the magnitude. */
  function ParseTrimmed(s: string): IntOrNaN
  {
    if s != [] && s[0] == '-' then Negate(ParseUnsigned(s[1..]))
    else if s != [] && s[0] == '+' then ParseUnsigned(s[1..])
    else ParseUnsigned(s)
  }

  /** The magnitude: a `0x`/`0X` prefix selects radix 16, anything else radix 10. */
  function ParseUnsigned(u: string): IntOrNaN
  {
    if |u| >= 2 && u[0] == '0' && (u[1] == 'x' || u[1] == 'X') then DigitsNumber(u[2..], 16)
    else DigitsNumber(u, 10)
  }

  /** The value of the longest run of digits at the start of `s`; no digit at all gives NaN. */
  function DigitsNumber(s: string, radix: nat): IntOrNaN
  {
    var digits := DigitPrefix(s, radix);
    if digits == [] then NaN else Int(DigitsValue(digits, radix))
  }

  /** The sign applied to a magnitude; NaN stays NaN. */
  function Negate(x: IntOrNaN): IntOrNaN
  {
    match x
    case NaN => NaN
    case Int(v) => Int(-v)
  }

  /**
   * The decimal rendering of a natural number, as `String(n)` writes it for `n` below 10^21 (from
   * there on JavaScript switches to exponent notation).
   */
  function DecimalString(n: nat): string
  {
    if n < 10 then ['0' + n as char] else DecimalString(n / 10) + ['0' + (n % 10) as char]
  }

  predicate IsDecimal(s: string) {
    forall i :: 0 <= i < |s| ==> IsDigit(s[i], 10)
  }

  /** The decimal rendering is a non-empty digit string, without a leading zero, that denotes `n`. */
  lemma {:induction false} DecimalStringValue(n: nat)
    ensures DecimalString(n) != [] && IsDecimal(DecimalString(n))
    ensures n > 0 ==> DecimalString(n)[0] != '0'
    ensures n == 0 ==> DecimalString(n) == "0"
    ensures DigitsValue(DecimalString(n), 10) == n
  {
    if n >= 10 {
      DecimalStringValue(n / 10);
      var ds := DecimalString(n);
      assert ds[..|ds| - 1] == DecimalString(n / 10);
    }
  }

  /** A digit run followed by a non-digit (or by nothing) is the whole digit prefix. */
  lemma {:induction false} DigitPrefixOfDigits(ds: string, rest: string, radix: nat)
    requires forall i :: 0 <= i < |ds| ==> IsDigit(ds[i], radix)
    requires rest == [] || !IsDigit(rest[0], radix)
    ensures DigitPrefix(ds + rest, radix) == ds
  {
    if ds != [] {
      assert (ds + rest)[1..] == ds[1..] + rest;
      DigitPrefixOfDigits(ds[1..], rest, radix);
    }
  }

  /** White space before the number does not matter. */
  lemma {:induction false} TrimStartSkipsWhiteSpace(ws: string, s: string)
    requires forall i :: 0 <= i < |ws| ==> IsStrWhiteSpace(ws[i])
    ensures TrimStart(ws + s) == TrimStart(s)
  {
    if ws != [] {
      var t := ws + s;
      assert t[0] == ws[0];
      assert t[1..] == ws[1..] + s;
      assert TrimStart(t) == TrimStart(t[1..]);
      TrimStartSkipsWhiteSpace(ws[1..], s);
    } else {
      assert ws + s == s;
    }
  }

  /**
   * `parseInt` reads back the decimal rendering of `n`, also with leading white space and with
   * trailing text that does not start with a digit (`"12abc"` gives 12); the one exception is that
   * `"0"` followed by `x` or `X` is a hexadecimal prefix.
   */
  lemma ParseIntOfDecimal(ws: string, n: nat, rest: string)
    requires forall i :: 0 <= i < |ws| ==> IsStrWhiteSpace(ws[i])
    requires rest == [] || (!IsDigit(rest[0], 10) && !(n == 0 && (rest[0] == 'x' || rest[0] == 'X')))
    ensures ParseInt(ws + DecimalString(n) + rest) == Int(n)
  {
    var ds := DecimalString(n);
    DecimalStringValue(n);
    var t := ds + rest;
    assert ws + ds + rest == ws + t;
    ParseIntSkipsWhiteSpace(ws, t);
    assert t[0] == ds[0];
    assert n == 0 && |t| >= 2 ==> t[1] == rest[0];
    DigitPrefixOfDigits(ds, rest, 10);
    ParseIntOfUnsigned(t);
  }

  /** Only what follows the leading white space matters. */
  lemma ParseIntSkipsWhiteSpace(ws: string, s: string)
    requires forall i :: 0 <= i < |ws| ==> IsStrWhiteSpace(ws[i])
    ensures ParseInt(ws + s) == ParseInt(s)
  {
    TrimStartSkipsWhiteSpace(ws, s);
  }

  /** A string that starts with a decimal digit and no hexadecimal prefix reads its leading digits. */
  lemma ParseIntOfUnsigned(t: string)
    requires t != [] && IsDigit(t[0], 10)
    requires !(|t| >= 2 && t[0] == '0' && (t[1] == 'x' || t[1] == 'X'))
    ensures ParseInt(t) == Int(DigitsValue(DigitPrefix(t, 10), 10))
  {
    assert '0' <= t[0] <= '9';
    TrimStartOfNonWhiteSpace(t);
    ParseTrimmedOfUnsigned(t);
  }

  /** After the white space, the same for a string that starts with a decimal digit. */
  lemma ParseTrimmedOfUnsigned(t: string)
    requires t != [] && '0' <= t[0] <= '9'
    requires !(|t| >= 2 && t[0] == '0' && (t[1] == 'x' || t[1] == 'X'))
    ensures ParseTrimmed(t) == Int(DigitsValue(DigitPrefix(t, 10), 10))
  {
    assert ParseTrimmed(t) == ParseUnsigned(t) == DigitsNumber(t, 10);
    DigitsNumberOfDigit(t, 10);
  }

  /** A string that does not start with white space is its own `TrimStart`. */
  lemma TrimStartOfNonWhiteSpace(s: string)
    requires s == [] || !IsStrWhiteSpace(s[0])
    ensures TrimStart(s) == s
  {
  }

  /** A string that starts with a digit has a number as its digit-run value. */
  lemma DigitsNumberOfDigit(s: string, radix: nat)
    requires s != [] && IsDigit(s[0], radix)
    ensures DigitsNumber(s, radix) == Int(DigitsValue(DigitPrefix(s, radix), radix))
  {
    assert DigitPrefix(s, radix) != [];
  }

  /** A leading zero does not change the value of a digit string. */
  lemma {:induction false} LeadingZeroValue(ds: string, radix: nat)
    ensures DigitsValue("0" + ds, radix) == DigitsValue(ds, radix)
  {
    if ds != [] {
      var t := "0" + ds;
      assert t[..|t| - 1] == "0" + ds[..|ds| - 1];
      assert t[|t| - 1] == ds[|ds| - 1];
      LeadingZeroValue(ds[..|ds| - 1], radix);
    }
  }

  /** `"07"` reads as 7 and `"00"` as 0: a leading zero before a digit is not a radix prefix. */
  lemma ParseIntOfZeroPadded(n: nat)
    ensures ParseInt("0" + DecimalString(n)) == Int(n)
  {
    var ds := DecimalString(n);
    DecimalStringValue(n);
    var t := "0" + ds;
    assert t[1] == ds[0];
    assert IsDecimal(t) by {
      assert forall i :: 1 <= i < |t| ==> t[i] == ds[i - 1];
    }
    DigitPrefixOfDigits(t, [], 10);
    assert t + [] == t;
    ParseIntOfUnsigned(t);
    LeadingZeroValue(ds, 10);
  }

  /** A minus sign negates what follows. */
  lemma ParseIntOfNegative(n: nat)
    ensures ParseInt("-" + DecimalString(n)) == Int(-(n as int))
  {
    var ds := DecimalString(n);
    var t := "-" + ds;
    assert TrimStart(t) == t by {
      TrimStartOfNonWhiteSpace(t);
    }
    assert ParseTrimmed(t) == Negate(ParseUnsigned(ds)) by {
      assert t[1..] == ds;
    }
    ParseUnsignedOfDecimal(n);
  }

  /** The magnitude part reads back a decimal rendering. */
  lemma ParseUnsignedOfDecimal(n: nat)
    ensures ParseUnsigned(DecimalString(n)) == Int(n)
  {
    var ds := DecimalString(n);
    DecimalStringValue(n);
    assert ParseUnsigned(ds) == DigitsNumber(ds, 10);
    assert DigitPrefix(ds, 10) == ds by {
      DigitPrefixOfDigits(ds, [], 10);
      assert ds + [] == ds;
    }
    DigitsNumberOfDigit(ds, 10);
  }
}

/**
 * The JavaScript number semantics the array index path depends on: the
 * global `parseInt(string)` with no radix argument (ECMAScript section
 * 19.2.5, "parseInt ( string, radix )") and strict equality on numbers
 * (section 7.2.15, "IsStrictlyEqual", which is false whenever an operand
 * is NaN).
 */
module JsNumbers {

  /**
   * The numbers parseInt can return: NaN or an integer. Negative zero is
   * represented by Int(0); both name array slot "0".
   */
  datatype JsNumber = NaN | Int(value: int)

  /** `a === b` on two numbers. */
  function StrictEquals(a: JsNumber, b: JsNumber): (r: bool)
    ensures r <==> a.Int? && a == b
  {
    a.Int? && b.Int? && a.value == b.value
  }

  /** A WhiteSpace or LineTerminator code point, which parseInt skips at the start. */
  predicate IsWhiteSpace(c: char)
  {
    c == '\t' || c == '\n' || c == '\U{000B}' || c == '\U{000C}' || c == '\r' || c == ' ' ||
    c == '\U{00A0}' || c == '\U{1680}' || ('\U{2000}' <= c <= '\U{200A}') ||
    c == '\U{2028}' || c == '\U{2029}' || c == '\U{202F}' || c == '\U{205F}' ||
    c == '\U{3000}' || c == '\U{FEFF}'
  }

  function TrimStart(s: string): (r: string)
    ensures |r| <= |s| && r == s[|s| - |r|..]
    ensures r == [] || !IsWhiteSpace(r[0])
  {
    if |s| > 0 && IsWhiteSpace(s[0]) then TrimStart(s[1..]) else s
  }

  /** The value of `c` as a digit in a radix up to 36, or 36 when it is no digit. */
  function DigitValue(c: char): nat
  {
    if '0' <= c <= '9' then c as int - '0' as int
    else if 'a' <= c <= 'z' then c as int - 'a' as int + 10
    else if 'A' <= c <= 'Z' then c as int - 'A' as int + 10
    else 36
  }

  predicate IsDigit(c: char, radix: nat)
  {
    DigitValue(c) < radix
  }

  /** A decimal digit is neither white space nor a sign. */
  lemma DecimalDigitIsPlain(c: char)
    requires IsDigit(c, 10)
    ensures '0' <= c <= '9' && !IsWhiteSpace(c) && c != '-' && c != '+'
  {
  }

  /** The length of the longest prefix of `s` made of `radix` digits. */
  function DigitRun(s: string, radix: nat): (n: nat)
    ensures n <= |s|
    ensures forall i :: 0 <= i < n ==> IsDigit(s[i], radix)
    ensures n < |s| ==> !IsDigit(s[n], radix)
  {
    if |s| > 0 && IsDigit(s[0], radix) then 1 + DigitRun(s[1..], radix) else 0
  }

  /** The number a run of digits denotes, most significant digit first. */
  function DigitsValue(ds: string, radix: nat): nat
  {
    if ds == [] then 0 else DigitsValue(ds[..|ds| - 1], radix) * radix + DigitValue(ds[|ds| - 1])
  }

  /**
   * `parseInt(s)`: skip leading white space, read an optional sign, read an
   * optional "0x"/"0X" prefix that selects radix 16 (radix 10 otherwise), then
   * the longest run of digits; NaN when that run is empty. Anything after the
   * run is ignored.
   */
  function ParseInt(s: string): JsNumber
  {
    ParseSigned(TrimStart(s))
  }

  function ParseSigned(t: string): JsNumber
  {
    if |t| > 0 && t[0] == '-' then Negate(ParseUnsigned(t[1..]))
    else if |t| > 0 && t[0] == '+' then ParseUnsigned(t[1..])
    else ParseUnsigned(t)
  }

  function Negate(x: JsNumber): JsNumber
  {
    match x
    case NaN => NaN
    case Int(v) => Int(-v)
  }

  function ParseUnsigned(u: string): JsNumber
  {
    if |u| >= 2 && u[0] == '0' && (u[1] == 'x' || u[1] == 'X') then ParseDigits(u[2..], 16)
    else ParseDigits(u, 10)
  }

  function ParseDigits(ds: string, radix: nat): JsNumber
  {
    var n := DigitRun(ds, radix);
    if n == 0 then NaN else Int(DigitsValue(ds[..n], radix))
  }

  /** The canonical decimal spelling of a natural number. */
  function DecimalString(n: nat): (s: string)
    ensures |s| > 0
    ensures forall i :: 0 <= i < |s| ==> IsDigit(s[i], 10)
    ensures s[0] == '0' ==> n == 0
  {
    if n < 10 then ['0' + n as char] else DecimalString(n / 10) + ['0' + (n % 10) as char]
  }

  /**
   * `rest` ends the digits of `n`: it does not go on with a digit, and after
   * a lone "0" it does not start an "x"/"X" that would make a hex prefix.
   */
  predicate StopsDecimal(n: nat, rest: string)
  {
    rest == [] || (!IsDigit(rest[0], 10) && (n == 0 ==> rest[0] != 'x' && rest[0] != 'X'))
  }

  lemma {:induction false} DecimalStringValue(n: nat)
    ensures DigitsValue(DecimalString(n), 10) == n
  {
    var s := DecimalString(n);
    if n >= 10 {
      DecimalStringValue(n / 10);
      assert s[..|s| - 1] == DecimalString(n / 10);
    }
  }

  /** A run of digits followed by a non-digit is read up to its end. */
  lemma {:induction false} DigitRunOfPrefix(ds: string, rest: string, radix: nat)
    requires forall i :: 0 <= i < |ds| ==> IsDigit(ds[i], radix)
    requires rest == [] || !IsDigit(rest[0], radix)
    ensures DigitRun(ds + rest, radix) == |ds|
  {
    if ds != [] {
      assert (ds + rest)[1..] == ds[1..] + rest;
      DigitRunOfPrefix(ds[1..], rest, radix);
    }
  }

  /** Digits of `n` followed by a non-digit are read as `n` in radix 10. */
  lemma ParseUnsignedDecimal(n: nat, rest: string)
    requires StopsDecimal(n, rest)
    ensures ParseUnsigned(DecimalString(n) + rest) == Int(n)
  {
    var d := DecimalString(n);
    var u := d + rest;
    assert u[0] == d[0];
    if n == 0 && |rest| > 0 {
      assert u[1] == rest[0];
    }
    if n != 0 {
      assert u[0] != '0';
    }
    assert ParseUnsigned(u) == ParseDigits(u, 10);
    DigitRunOfPrefix(d, rest, 10);
    assert u[..|d|] == d;
    DecimalStringValue(n);
  }

  /**
   * parseInt reads back any natural number from its decimal spelling, and
   * ignores whatever follows the digits ("3", "3abc" and "3x" all give 3).
   */
  lemma ParseIntDecimal(n: nat, rest: string)
    requires StopsDecimal(n, rest)
    ensures ParseInt(DecimalString(n) + rest) == Int(n)
  {
    var s := DecimalString(n) + rest;
    assert s[0] == DecimalString(n)[0];
    DecimalDigitIsPlain(s[0]);
    assert TrimStart(s) == s;
    assert ParseSigned(s) == ParseUnsigned(s);
    ParseUnsignedDecimal(n, rest);
  }

  /** parseInt of "-" followed by `u` negates what `u` reads as. */
  lemma ParseIntAfterMinus(u: string)
    ensures ParseInt(['-'] + u) == Negate(ParseUnsigned(u))
  {
    var s := ['-'] + u;
    assert s[0] == '-' && !IsWhiteSpace('-');
    assert TrimStart(s) == s;
    assert s[1..] == u;
  }

  /** A leading minus sign negates the number read. */
  lemma ParseIntNegativeDecimal(n: nat, rest: string)
    requires StopsDecimal(n, rest)
    ensures ParseInt("-" + DecimalString(n) + rest) == Int(-(n as int))
  {
    var u := DecimalString(n) + rest;
    assert "-" + DecimalString(n) + rest == ['-'] + u;
    ParseIntAfterMinus(u);
    ParseUnsignedDecimal(n, rest);
    assert Negate(Int(n)) == Int(-(n as int));
  }

  /**
   * A string that starts with anything other than white space, a sign or a
   * decimal digit (or is empty) has no number in it.
   */
  lemma ParseIntNonNumeric(s: string)
    requires s == [] || (!IsWhiteSpace(s[0]) && s[0] != '+' && s[0] != '-' && !IsDigit(s[0], 10))
    ensures ParseInt(s) == NaN
  {
  }
}

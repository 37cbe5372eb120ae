/**
 * JavaScript's text-to-number conversions as the game-log script uses them:
 * `String.prototype.trim`, `parseInt(text)`, `parseFloat(text)`, the `|| 0`
 * idiom that turns `NaN` into 0, and `Math.round`. `None` stands for `NaN`.
 */
module JsNum {
  import opened Wrappers
  import opened Text
  import PyNum

  /** White space and line terminators as `trim` and the number parsers skip them. */
  predicate IsJsSpace(c: char)
  {
    || c == '\t' || c == '\n' || c == '\U{B}' || c == '\U{C}' || c == '\r' || c == ' '
    || c == '\U{A0}' || c == '\U{1680}' || ('\U{2000}' <= c <= '\U{200A}')
    || c == '\U{2028}' || c == '\U{2029}' || c == '\U{202F}' || c == '\U{205F}'
    || c == '\U{3000}' || c == '\U{FEFF}'
  }

  function JsTrim(s: string): string
  {
    Trim(s, IsJsSpace)
  }

  predicate IsHexDigit(c: char)
  {
    IsDigit(c) || ('a' <= c <= 'f') || ('A' <= c <= 'F')
  }

  function HexDigitValue(c: char): nat
    requires IsHexDigit(c)
  {
    if IsDigit(c) then c as int - '0' as int
    else if 'a' <= c <= 'f' then c as int - 'a' as int + 10
    else c as int - 'A' as int + 10
  }

  /** The longest prefix of `s` made of hexadecimal digits. */
  function HexPrefix(s: string): (h: string)
    ensures StartsWith(s, h) && forall i :: 0 <= i < |h| ==> IsHexDigit(h[i])
  {
    if s != [] && IsHexDigit(s[0]) then [s[0]] + HexPrefix(s[1..]) else []
  }

  function HexValue(h: string): nat
    requires forall i :: 0 <= i < |h| ==> IsHexDigit(h[i])
  {
    if h == [] then 0 else 16 * HexValue(h[..|h| - 1]) + HexDigitValue(h[|h| - 1])
  }

  /**
   * `parseInt(text)` without a radix: skip leading white space, take an
   * optional sign, read base 16 after "0x"/"0X" and base 10 otherwise, as long
   * as digits last; no digit at all is `NaN`.
   */
  function ParseInt(text: string): Option<int>
  {
    var (negative, body) := PyNum.SplitSign(TrimStart(text, IsJsSpace));
    var magnitude: Option<int> :=
      if |body| >= 2 && body[0] == '0' && (body[1] == 'x' || body[1] == 'X') then
        var h := HexPrefix(body[2..]);
        if h == [] then None else Some(HexValue(h))
      else
        var d := PyNum.DigitPrefix(body);
        if d == [] then None else Some(DigitsValue(d));
    match magnitude
    case None => None
    case Some(m) => Some(if negative then -m else m)
  }

  /** `parseInt(text) || 0`. */
  function ParseIntOr0(text: string): int
  {
    ParseInt(text).GetOr(0)
  }

  /**
   * `parseFloat(text)` on decimal notation: skip leading white space, take an
   * optional sign and the longest prefix of digits with at most one '.'
   * holding at least one digit; none is `NaN`.
   */
  function ParseFloat(text: string): Option<real>
  {
    var (negative, body) := PyNum.SplitSign(TrimStart(text, IsJsSpace));
    var whole := PyNum.DigitPrefix(body);
    var rest := body[|whole|..];
    var fraction := if rest != [] && rest[0] == '.' then PyNum.DigitPrefix(rest[1..]) else [];
    if whole == [] && fraction == [] then None
    else
      var v := PyNum.DecimalValue(whole, fraction);
      Some(if negative then -v else v)
  }

  /** `parseFloat(text) || 0`. */
  function ParseFloatOr0(text: string): real
  {
    ParseFloat(text).GetOr(0.0)
  }

  /**
   * `Math.round((y / c) * 10)` on the exact quotient: the nearest tenth, and
   * on a tie the upper one.
   */
  function RoundTenths(y: int, c: int): (tenths: int)
    requires c > 0
    ensures 2 * PyNum.Abs(10 * y - tenths * c) <= c
    ensures 2 * (10 * y - tenths * c) != c
  {
    var q, r := (10 * y) / c, (10 * y) % c;
    assert 10 * y == q * c + r;
    assert (q + 1) * c == q * c + c;
    if 2 * r < c then q else q + 1
  }

  /** `parseInt` reads a digit string as its decimal value. */
  lemma ParseIntDigits(s: string)
    requires PyNum.IsDigitString(s)
    ensures ParseIntOr0(s) == DigitsValue(s)
  {
    NoLeadingSpace(s);
    assert PyNum.SplitSign(s) == (false, s);
    assert |s| >= 2 ==> s[1] != 'x' && s[1] != 'X';
    PyNum.DigitPrefixAll(s);
    assert ParseInt(s) == Some(DigitsValue(s));
  }

  lemma NoLeadingSpace(s: string)
    requires s != [] && !IsJsSpace(s[0])
    ensures TrimStart(s, IsJsSpace) == s
  {
  }

  /** `parseInt` keeps the sign of "-" followed by digits. */
  lemma ParseIntNegative(s: string)
    requires PyNum.IsDigitString(s)
    ensures ParseIntOr0("-" + s) == 0 - DigitsValue(s)
  {
    var t := "-" + s;
    assert t[0] == '-' && t[1..] == s;
    NoLeadingSpace(t);
    assert PyNum.SplitSign(t) == (true, s);
    DecimalDigits(s);
  }

  /** A digit string is read in base 10 and in full. */
  lemma DecimalDigits(s: string)
    requires PyNum.IsDigitString(s)
    ensures !(|s| >= 2 && s[0] == '0' && (s[1] == 'x' || s[1] == 'X'))
    ensures PyNum.DigitPrefix(s) == s
  {
    assert |s| >= 2 ==> IsDigit(s[1]);
    PyNum.DigitPrefixAll(s);
  }

  /** `parseInt` stops at the first character that is not a digit: "1,025" reads as 1. */
  lemma ParseIntStopsAtComma(a: string, b: string)
    requires PyNum.IsDigitString(a)
    ensures ParseIntOr0(a + "," + b) == DigitsValue(a)
  {
    var t := a + "," + b;
    assert t[..|a|] == a;
    assert t[1] == if |a| > 1 then a[1] else ',';
    NoLeadingSpace(t);
    PyNum.DigitPrefixUpTo(t, a);
  }

  /** `parseFloat` reads "whole.fraction" as the decimal number it writes. */
  lemma ParseFloatDecimal(whole: string, fraction: string)
    requires PyNum.IsDigitString(whole) && PyNum.IsDigitString(fraction)
    ensures ParseFloatOr0(whole + "." + fraction) == PyNum.DecimalValue(whole, fraction)
  {
    var t := whole + ['.'] + fraction;
    assert whole + "." + fraction == t;
    assert t[0] == whole[0];
    NoLeadingSpace(t);
    assert PyNum.SplitSign(t) == (false, t);
    PyNum.DigitPrefixOfSeparated(whole, '.', fraction);
    var rest := t[|whole|..];
    assert rest == ['.'] + fraction;
    assert rest[1..] == fraction;
    PyNum.DigitPrefixAll(fraction);
    assert ParseFloat(t) == Some(PyNum.DecimalValue(whole, fraction));
  }

  /** Text without any leading digit, sign or "0x" is `NaN`, so `|| 0` gives 0. */
  lemma ParseIntNoDigits(s: string)
    requires s != [] && !IsDigit(s[0]) && !IsJsSpace(s[0]) && s[0] != '-' && s[0] != '+'
    ensures ParseIntOr0(s) == 0
  {
  }
}

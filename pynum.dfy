/**
 * Python's built-in text-to-number conversions as the scrapers call them:
 * `str.strip()`, `str.isdigit()`, `int(text)`, `float(text)` and `round(x, 1)`.
 * A conversion Python would answer with `ValueError` yields `None`.
 */
module PyNum {
  import opened Wrappers
  import opened Text

  /** The characters `str.isspace()` accepts. */
  predicate IsPySpace(c: char)
  {
    || c == ' ' || ('\t' <= c <= '\r') || ('\U{1C}' <= c <= '\U{1F}')
    || c == '\U{85}' || c == '\U{A0}' || c == '\U{1680}' || ('\U{2000}' <= c <= '\U{200A}')
    || c == '\U{2028}' || c == '\U{2029}' || c == '\U{202F}' || c == '\U{205F}' || c == '\U{3000}'
  }

  /** `str.strip()` with no argument. */
  function Strip(s: string): string
  {
    Trim(s, IsPySpace)
  }

  /** `str.isdigit()` restricted to ASCII: at least one character, all digits. */
  predicate IsDigitString(s: string)
  {
    |s| > 0 && DigitsOnly(s)
  }

  /** A leading sign split off: whether it was '-', and the rest. */
  function SplitSign(s: string): (bool, string)
  {
    if |s| > 0 && (s[0] == '-' || s[0] == '+') then (s[0] == '-', s[1..]) else (false, s)
  }

  /** Digits with single underscores between them, as `int()` accepts. */
  predicate IsDigitGroups(s: string)
  {
    && |s| > 0 && IsDigit(s[0]) && IsDigit(s[|s| - 1])
    && (forall i :: 0 <= i < |s| ==> IsDigit(s[i]) || s[i] == '_')
    && (forall i :: 0 <= i < |s| - 1 ==> !(s[i] == '_' && s[i + 1] == '_'))
  }

  /** The digits of a digit-and-underscore string. */
  function DropUnderscores(s: string): (r: string)
    requires forall i :: 0 <= i < |s| ==> IsDigit(s[i]) || s[i] == '_'
    ensures DigitsOnly(r) && |r| <= |s|
    ensures DigitsOnly(s) ==> r == s
  {
    if s == [] then [] else (if s[0] == '_' then [] else [s[0]]) + DropUnderscores(s[1..])
  }

  /** `int(text)`: optional surrounding whitespace, an optional sign, digit groups. */
  function ParseInt(text: string): (r: Option<int>)
    ensures text == [] ==> r == None
  {
    var (negative, body) := SplitSign(Strip(text));
    SignedValue(negative, body)
  }

  /** The value of sign-less digit groups, negated after a '-'; `None` when they are malformed. */
  function SignedValue(negative: bool, body: string): (r: Option<int>)
    ensures body == [] ==> r == None
  {
    if IsDigitGroups(body) then
      var v: int := DigitsValue(DropUnderscores(body));
      Some(if negative then -v else v)
    else None
  }

  function Pow10(n: nat): (p: nat)
    ensures p >= 1
  {
    if n == 0 then 1 else 10 * Pow10(n - 1)
  }

  /** The longest prefix of `s` made of digits. */
  function DigitPrefix(s: string): (d: string)
    ensures DigitsOnly(d) && StartsWith(s, d)
    ensures |d| < |s| ==> !IsDigit(s[|d|])
  {
    if s != [] && IsDigit(s[0]) then [s[0]] + DigitPrefix(s[1..]) else []
  }

  /** `digits` "." `fraction` read as a decimal number. */
  function DecimalValue(digits: string, fraction: string): real
    requires DigitsOnly(digits) && DigitsOnly(fraction)
  {
    DigitsValue(digits) as real + DigitsValue(fraction) as real / Pow10(|fraction|) as real
  }

  /**
   * `float(text)` on decimal notation: optional whitespace and sign, then
   * digits with at most one '.', and at least one digit.
   */
  function ParseFloat(text: string): (r: Option<real>)
    ensures text == [] ==> r == None
  {
    var (negative, body) := SplitSign(Strip(text));
    SignedDecimal(negative, body)
  }

  /** The value of sign-less decimal notation, negated after a '-'; `None` when it is malformed. */
  function SignedDecimal(negative: bool, body: string): (r: Option<real>)
    ensures body == [] ==> r == None
  {
    var whole := DigitPrefix(body);
    var rest := body[|whole|..];
    if rest == [] then
      if whole == [] then None
      else Some(if negative then -(DigitsValue(whole) as real) else DigitsValue(whole) as real)
    else if rest[0] == '.' && DigitsOnly(rest[1..]) && |whole| + |rest| > 1 then
      var v := DecimalValue(whole, rest[1..]);
      Some(if negative then -v else v)
    else None
  }

  function Abs(x: int): nat { if x < 0 then -x else x }

  /**
   * `round(y / c, 1)` taken on the exact quotient, in tenths: the nearest
   * tenth, and on a tie the one with an even last digit.
   */
  function RoundTenths(y: int, c: int): (tenths: int)
    requires c > 0
    ensures 2 * Abs(10 * y - tenths * c) <= c
    ensures 2 * Abs(10 * y - tenths * c) == c ==> tenths % 2 == 0
  {
    var q, r := (10 * y) / c, (10 * y) % c;
    assert 10 * y == q * c + r;
    assert (q + 1) * c == q * c + c;
    if 2 * r < c then q
    else if 2 * r > c then q + 1
    else if q % 2 == 0 then q
    else q + 1
  }

  /** A digit string is its own strip. */
  lemma StripDigits(s: string)
    requires IsDigitString(s)
    ensures Strip(s) == s
  {
    TrimUnspaced(s, IsPySpace);
  }

  /** `int()` reads a plain digit string as its decimal value. */
  lemma ParseIntDigits(s: string)
    requires IsDigitString(s)
    ensures ParseInt(s) == Some(DigitsValue(s))
  {
    StripDigits(s);
  }

  /** `int()` reads "-" followed by digits as the negated value. */
  lemma ParseIntNegative(s: string)
    requires IsDigitString(s)
    ensures ParseInt("-" + s) == Some(0 - DigitsValue(s))
  {
    StripSigned(s);
    ParseIntSplit("-" + s, true, s);
  }

  /** `int()` of a text whose stripped form splits into a sign and plain digits. */
  lemma ParseIntSplit(text: string, negative: bool, digits: string)
    requires IsDigitString(digits) && SplitSign(Strip(text)) == (negative, digits)
    ensures ParseInt(text) == Some(if negative then 0 - DigitsValue(digits) else DigitsValue(digits))
  {
    DigitGroupsOfDigits(digits);
    assert SignedValue(negative, digits) == Some(if negative then 0 - DigitsValue(digits) else DigitsValue(digits));
  }

  /** A sign followed by digits has no surrounding white space to strip; the sign splits off. */
  lemma StripSigned(s: string)
    requires IsDigitString(s)
    ensures SplitSign(Strip("-" + s)) == (true, s)
  {
    var t := "-" + s;
    assert t[0] == '-' && t[1..] == s && t[|t| - 1] == s[|s| - 1];
    TrimUnspaced(t, IsPySpace);
  }

  /** A digit string is a single digit group with no underscores to drop. */
  lemma DigitGroupsOfDigits(s: string)
    requires IsDigitString(s)
    ensures IsDigitGroups(s) && DropUnderscores(s) == s
  {
    assert IsDigit(s[0]) && IsDigit(s[|s| - 1]);
  }

  /** `float()` reads a plain digit string as its decimal value. */
  lemma ParseFloatDigits(s: string)
    requires IsDigitString(s)
    ensures ParseFloat(s) == Some(DigitsValue(s) as real)
  {
    StripDigits(s);
    DigitPrefixAll(s);
  }

  lemma {:induction false} DigitPrefixAll(s: string)
    requires DigitsOnly(s)
    ensures DigitPrefix(s) == s
  {
    if s != [] {
      DigitPrefixAll(s[1..]);
    }
  }
  /** The digit prefix of `d + rest` is `d` when `rest` starts with a non-digit. */
  lemma {:induction false} DigitPrefixUpTo(s: string, d: string)
    requires DigitsOnly(d) && StartsWith(s, d) && |d| < |s| && !IsDigit(s[|d|])
    ensures DigitPrefix(s) == d
  {
    if d != [] {
      assert s[1..][..|d| - 1] == d[1..];
      DigitPrefixUpTo(s[1..], d[1..]);
    }
  }

  /** Digits, one separator that is neither space nor sign, digits: nothing to strip, no sign. */
  lemma StripUnsigned(a: string, sep: char, b: string)
    requires IsDigitString(a) && IsDigitString(b) && !IsPySpace(sep)
    ensures SplitSign(Strip(a + [sep] + b)) == (false, a + [sep] + b)
  {
    var t := a + [sep] + b;
    assert t[0] == a[0] && t[|t| - 1] == b[|b| - 1];
    TrimUnspaced(t, IsPySpace);
  }

  /** The digit prefix of digits, a non-digit, and more is the first digits. */
  lemma DigitPrefixOfSeparated(a: string, sep: char, b: string)
    requires IsDigitString(a) && !IsDigit(sep)
    ensures DigitPrefix(a + [sep] + b) == a
    ensures (a + [sep] + b)[|a|..] == [sep] + b
  {
    var t := a + [sep] + b;
    assert t == a + ([sep] + b);
    assert t[..|a|] == a && t[|a|..] == [sep] + b;
    assert t[|a|] == sep;
    DigitPrefixUpTo(t, a);
  }

  /** `float()` reads digits, '.', digits as the decimal number they write. */
  lemma ParseFloatDecimal(a: string, b: string)
    requires IsDigitString(a) && IsDigitString(b)
    ensures ParseFloat(a + "." + b) == Some(DecimalValue(a, b))
  {
    StripUnsigned(a, '.', b);
    DigitPrefixOfSeparated(a, '.', b);
    DecimalOfSeparated(a, b);
  }

  lemma DecimalOfSeparated(a: string, b: string)
    requires IsDigitString(a) && IsDigitString(b)
    requires DigitPrefix(a + ['.'] + b) == a && (a + ['.'] + b)[|a|..] == ['.'] + b
    ensures SignedDecimal(false, a + ['.'] + b) == Some(DecimalValue(a, b))
  {
    var rest := ['.'] + b;
    assert rest[1..] == b;
  }

  /** `float()` rejects a '-' between digits, as in "4-6". */
  lemma ParseFloatRejectsInnerDash(a: string, b: string)
    requires IsDigitString(a) && IsDigitString(b)
    ensures ParseFloat(a + "-" + b) == None
  {
    StripUnsigned(a, '-', b);
    DigitPrefixOfSeparated(a, '-', b);
  }
}

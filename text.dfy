/**
 * Character and string operations shared by the scrapers, the query builders
 * and the client. Strings are `seq<char>`; case mapping is ASCII only.
 */
module Text {
  import opened Wrappers

  predicate IsDigit(c: char) { '0' <= c <= '9' }

  /** Every character is an ASCII digit (vacuously true of ""). */
  predicate DigitsOnly(s: string)
  {
    forall i :: 0 <= i < |s| ==> IsDigit(s[i])
  }

  lemma DigitsConcat(a: string, b: string)
    requires DigitsOnly(a) && DigitsOnly(b)
    ensures DigitsOnly(a + b)
  {
    assert forall i :: 0 <= i < |a + b| ==> (a + b)[i] == if i < |a| then a[i] else b[i - |a|];
  }

  /** A character that is not a digit does not occur in a digit string. */
  lemma NonDigitAbsent(s: string, c: char)
    requires DigitsOnly(s) && !IsDigit(c)
    ensures c !in s
  {
  }

  /** Decimal value of a digit string, most significant digit first; "" is 0. */
  function DigitsValue(s: string): nat
    requires DigitsOnly(s)
    decreases |s|
  {
    if s == [] then 0 else 10 * DigitsValue(s[..|s| - 1]) + (s[|s| - 1] as int - '0' as int)
  }

  function DigitChar(d: nat): (c: char)
    requires d < 10
    ensures IsDigit(c) && c as int - '0' as int == d
  {
    ('0' as int + d) as char
  }

  /** Decimal rendering without leading zeros, as template literals and f-strings print a count. */
  function NatToString(n: nat): (s: string)
    ensures |s| > 0 && DigitsOnly(s)
    ensures n > 0 ==> s[0] != '0'
  {
    if n < 10 then [DigitChar(n)] else NatToString(n / 10) + [DigitChar(n % 10)]
  }

  /** Reading back a rendered number gives the number. */
  lemma {:induction false} NatToStringRoundTrip(n: nat)
    ensures DigitsValue(NatToString(n)) == n
  {
    if n >= 10 {
      NatToStringRoundTrip(n / 10);
      var s := NatToString(n);
      assert s[..|s| - 1] == NatToString(n / 10);
    }
  }

  /** Distinct numbers render as distinct strings. */
  lemma NatToStringInjective(m: nat, n: nat)
    requires NatToString(m) == NatToString(n)
    ensures m == n
  {
    NatToStringRoundTrip(m);
    NatToStringRoundTrip(n);
  }

  function IntToString(i: int): string
  {
    if i < 0 then "-" + NatToString(-i) else NatToString(i)
  }

  predicate IsUpper(c: char) { 'A' <= c <= 'Z' }

  function LowerChar(c: char): (l: char)
    ensures !IsUpper(l)
    ensures !IsUpper(c) ==> l == c
  {
    if IsUpper(c) then (c as int + 32) as char else c
  }

  /** ASCII lower-casing, character by character. */
  function ToLower(s: string): (r: string)
    ensures |r| == |s|
    ensures forall i :: 0 <= i < |s| ==> r[i] == LowerChar(s[i])
  {
    if s == [] then [] else [LowerChar(s[0])] + ToLower(s[1..])
  }

  predicate StartsWith(s: string, prefix: string)
  {
    |prefix| <= |s| && s[..|prefix|] == prefix
  }

  /** `sub` occurs somewhere in `s` (Python `in`, JavaScript `includes`). */
  predicate Contains(s: string, sub: string)
    decreases |s|
  {
    StartsWith(s, sub) || (|s| > 0 && Contains(s[1..], sub))
  }

  /** Position of the first occurrence of `sub` in `s`. */
  function IndexOf(s: string, sub: string): (r: Option<nat>)
    decreases |s|
    ensures r.Some? <==> Contains(s, sub)
    ensures r.Some? ==> r.value + |sub| <= |s| && s[r.value..r.value + |sub|] == sub
    ensures r.Some? ==> forall k :: 0 <= k < r.value ==> !StartsWith(s[k..], sub)
  {
    if StartsWith(s, sub) then Some(0)
    else if s == [] then None
    else match IndexOf(s[1..], sub)
      case None => None
      case Some(k) =>
        assert s[1..][k..k + |sub|] == s[k + 1..k + 1 + |sub|];
        forall j | 0 <= j < k + 1
          ensures !StartsWith(s[j..], sub)
        {
          if j == 0 {
            assert s[0..] == s;
          } else {
            assert s[1..][j - 1..] == s[j..];
          }
        }
        Some(k + 1)
  }

  /**
   * Every occurrence of `pat` replaced by `rep`, scanning left to right without
   * overlap: Python's `str.replace(pat, rep)` and JavaScript's
   * `replace(/pat/g, rep)` for a literal pattern.
   */
  function ReplaceAll(s: string, pat: string, rep: string): string
    requires |pat| > 0
    decreases |s|
  {
    if |s| < |pat| then s
    else if s[..|pat|] == pat then rep + ReplaceAll(s[|pat|..], pat, rep)
    else [s[0]] + ReplaceAll(s[1..], pat, rep)
  }

  /** JavaScript's `replace(pat, rep)` with a string pattern: the first occurrence only. */
  function ReplaceFirst(s: string, pat: string, rep: string): string
  {
    match IndexOf(s, pat)
    case None => s
    case Some(k) => s[..k] + rep + s[k + |pat|..]
  }

  /** Replacing a character that does not occur changes nothing. */
  lemma {:induction false} ReplaceAbsentChar(s: string, c: char, rep: string)
    requires c !in s
    ensures ReplaceAll(s, [c], rep) == s
  {
    if |s| >= 1 {
      assert s[..1] == [s[0]];
      ReplaceAbsentChar(s[1..], c, rep);
      assert [s[0]] + s[1..] == s;
    }
  }

  /**
   * After replacing every `c` by `rep`: `c` survives only if `rep` holds it, and
   * any other character present was already in `s` or comes from `rep`.
   */
  lemma {:induction false} ReplaceCharMembers(s: string, c: char, rep: string)
    ensures c !in rep ==> c !in ReplaceAll(s, [c], rep)
    ensures forall d :: d in ReplaceAll(s, [c], rep) ==> (d in s && d != c) || d in rep
  {
    if |s| >= 1 {
      ReplaceCharMembers(s[1..], c, rep);
      assert s[..1] == [s[0]];
      assert forall d :: d in s[1..] ==> d in s;
    }
  }

  /** Replacing a character splits at its first occurrence: the part before it is kept. */
  lemma {:induction false} ReplaceCharFirst(a: string, c: char, b: string, rep: string)
    requires c !in a
    ensures ReplaceAll(a + [c] + b, [c], rep) == a + rep + ReplaceAll(b, [c], rep)
  {
    var t := a + [c] + b;
    if a == [] {
      assert t == [c] + b && t[..1] == [c] && t[1..] == b;
    } else {
      assert t[..1] == [a[0]] && t[1..] == a[1..] + [c] + b;
      ReplaceCharFirst(a[1..], c, b, rep);
      assert a == [a[0]] + a[1..];
    }
  }

  /** Deleting the one occurrence of `c` joins the parts around it. */
  lemma RemoveChar(a: string, c: char, b: string)
    requires c !in a && c !in b
    ensures ReplaceAll(a + [c] + b, [c], "") == a + b
  {
    var empty: string := [];
    calc {
      ReplaceAll(a + [c] + b, [c], empty);
      { ReplaceCharFirst(a, c, b, empty); }
      a + empty + ReplaceAll(b, [c], empty);
      { ReplaceAbsentChar(b, c, empty); }
      a + empty + b;
      { assert a + empty == a; }
      a + b;
    }
  }

  /** Replacing one character by at most one character never lengthens a string. */
  lemma {:induction false} ReplaceCharLength(s: string, c: char, rep: string)
    requires |rep| <= 1
    ensures |ReplaceAll(s, [c], rep)| <= |s|
    ensures |rep| == 1 ==> |ReplaceAll(s, [c], rep)| == |s|
  {
    if |s| >= 1 {
      ReplaceCharLength(s[1..], c, rep);
      assert s[..1] == [s[0]];
    }
  }

  /** The elements of `xs` with `sep` between consecutive ones (Python and JavaScript `join`). */
  function Join(sep: string, xs: seq<string>): string
  {
    if xs == [] then "" else if |xs| == 1 then xs[0] else xs[0] + sep + Join(sep, xs[1..])
  }

  /** `n` copies of `x`. */
  function Repeat(x: string, n: nat): (r: seq<string>)
    ensures |r| == n && forall i :: 0 <= i < n ==> r[i] == x
  {
    if n == 0 then [] else [x] + Repeat(x, n - 1)
  }

  /** `s` without its leading characters satisfying `isSpace`. */
  function TrimStart(s: string, isSpace: char -> bool): (r: string)
    ensures |r| <= |s| && r == s[|s| - |r|..]
    ensures r != [] ==> !isSpace(r[0])
    ensures forall i :: 0 <= i < |s| - |r| ==> isSpace(s[i])
    decreases |s|
  {
    if s != [] && isSpace(s[0]) then TrimStart(s[1..], isSpace) else s
  }

  /** `s` without its trailing characters satisfying `isSpace`. */
  function TrimEnd(s: string, isSpace: char -> bool): (r: string)
    ensures |r| <= |s| && r == s[..|r|]
    ensures r != [] ==> !isSpace(r[|r| - 1])
    ensures forall i :: |r| <= i < |s| ==> isSpace(s[i])
    decreases |s|
  {
    if s != [] && isSpace(s[|s| - 1]) then TrimEnd(s[..|s| - 1], isSpace) else s
  }

  /** `s` without leading and trailing characters satisfying `isSpace`. */
  function Trim(s: string, isSpace: char -> bool): (r: string)
    ensures r != [] ==> !isSpace(r[0]) && !isSpace(r[|r| - 1])
    ensures |r| <= |s|
    ensures forall c :: c in r ==> c in s
  {
    TrimEnd(TrimStart(s, isSpace), isSpace)
  }

  /** Trimming a string that neither starts nor ends with a space changes nothing. */
  lemma TrimUnspaced(s: string, isSpace: char -> bool)
    requires s != [] ==> !isSpace(s[0]) && !isSpace(s[|s| - 1])
    ensures Trim(s, isSpace) == s
  {
  }
}

/**
  String helpers shared by the query builder and the file-name checks:
  Python's rendering of an integer inside an f-string, and the substring
  and suffix tests that the properties of the generated SQL are stated with.
*/
module Text {

  predicate IsDigitChar(c: char) {
    '0' <= c <= '9'
  }

  function DigitChar(d: nat): (c: char)
    requires d < 10
    ensures IsDigitChar(c)
  {
    ('0' as int + d) as char
  }

  function DigitValue(c: char): (d: nat)
    requires IsDigitChar(c)
    ensures d < 10
  {
    c as int - '0' as int
  }

  predicate AllDigits(s: string) {
    forall i :: 0 <= i < |s| ==> IsDigitChar(s[i])
  }

  /** Decimal digits of a natural number, most significant first. */
  function NatToDecimal(n: nat): string
    decreases n
  {
    if n < 10 then [DigitChar(n)] else NatToDecimal(n / 10) + [DigitChar(n % 10)]
  }

  /** The rendering of a natural number is a non-empty run of digits without a leading zero. */
  lemma {:induction false} NatToDecimalDigits(n: nat)
    ensures |NatToDecimal(n)| >= 1 && AllDigits(NatToDecimal(n))
    ensures |NatToDecimal(n)| > 1 ==> NatToDecimal(n)[0] != '0'
    decreases n
  {
    if n >= 10 {
      NatToDecimalDigits(n / 10);
      var s := NatToDecimal(n);
      assert s[0] == NatToDecimal(n / 10)[0];
      if n / 10 < 10 {
        assert NatToDecimal(n / 10)[0] == DigitChar(n / 10);
      }
    }
  }

  /** `str(i)` in Python: a minus sign for negative numbers, then the digits. */
  function Decimal(i: int): string {
    if i < 0 then "-" + NatToDecimal(-i) else NatToDecimal(i)
  }

  /** The rendering of an integer is non-empty, starts with '-' exactly for a negative number, and is all digits otherwise. */
  lemma DecimalShape(i: int)
    ensures |Decimal(i)| >= 1
    ensures Decimal(i)[0] == '-' <==> i < 0
    ensures i >= 0 ==> AllDigits(Decimal(i))
  {
    if i < 0 {
      NatToDecimalDigits(-i);
    } else {
      NatToDecimalDigits(i);
    }
  }

  /** The value of a string of decimal digits: the reading back of NatToDecimal. */
  function DecimalValue(s: string): nat
    requires AllDigits(s)
  {
    if s == [] then 0 else DecimalValue(s[..|s| - 1]) * 10 + DigitValue(s[|s| - 1])
  }

  lemma {:induction false} DecimalValueOfNat(n: nat)
    ensures AllDigits(NatToDecimal(n))
    ensures DecimalValue(NatToDecimal(n)) == n
    decreases n
  {
    NatToDecimalDigits(n);
    var s := NatToDecimal(n);
    if n < 10 {
      assert s[..0] == [];
    } else {
      DecimalValueOfNat(n / 10);
      assert s[..|s| - 1] == NatToDecimal(n / 10);
    }
  }

  lemma SignDropped(digits: string)
    ensures ("-" + digits)[1..] == digits
  {
  }

  /** Distinct natural numbers have distinct digit strings. */
  lemma NatToDecimalInjective(m: nat, n: nat)
    requires NatToDecimal(m) == NatToDecimal(n)
    ensures m == n
  {
    DecimalValueOfNat(m);
    DecimalValueOfNat(n);
  }

  /** Distinct integers are rendered as distinct texts. */
  lemma DecimalInjective(a: int, b: int)
    requires Decimal(a) == Decimal(b)
    ensures a == b
  {
    DecimalShape(a);
    DecimalShape(b);
    if a < 0 {
      SignDropped(NatToDecimal(-a));
      SignDropped(NatToDecimal(-b));
      NatToDecimalInjective(-a, -b);
    } else {
      NatToDecimalInjective(a, b);
    }
  }

  predicate StartsWith(s: string, prefix: string) {
    |prefix| <= |s| && s[..|prefix|] == prefix
  }

  /** Python's `s.endswith(suffix)`, case-sensitive; every string ends with "". */
  predicate EndsWith(s: string, suffix: string) {
    |suffix| <= |s| && s[|s| - |suffix|..] == suffix
  }

  /** `x in s` for Python strings: `x` occurs in `s` at some position. */
  predicate Contains(s: string, x: string) {
    exists i :: 0 <= i <= |s| - |x| && StartsWith(s[i..], x)
  }

  lemma ContainsAt(pre: string, x: string, post: string)
    ensures Contains(pre + x + post, x)
  {
    var s := pre + x + post;
    assert s[|pre|..][..|x|] == x;
    assert StartsWith(s[|pre|..], x);
  }

  lemma ContainsExtended(pre: string, s: string, post: string, x: string)
    requires Contains(s, x)
    ensures Contains(pre + s + post, x)
  {
    var i :| 0 <= i <= |s| - |x| && StartsWith(s[i..], x);
    var t := pre + s + post;
    assert t[|pre| + i..][..|x|] == s[i..][..|x|];
    assert StartsWith(t[|pre| + i..], x);
  }

  lemma ContainsSuffix(pre: string, x: string)
    ensures Contains(pre + x, x)
  {
    ContainsAt(pre, x, "");
    assert pre + x + "" == pre + x;
  }

  lemma ContainsAppend(s: string, t: string, x: string)
    requires Contains(s, x)
    ensures Contains(s + t, x)
  {
    ContainsExtended("", s, t, x);
    assert "" + s + t == s + t;
  }

  lemma StartsWithAppend(s: string, t: string, p: string)
    requires StartsWith(s, p)
    ensures StartsWith(s + t, p)
  {
    assert (s + t)[..|p|] == s[..|p|];
  }

  lemma EndsWithPrepend(s: string, t: string, x: string)
    requires EndsWith(t, x)
    ensures EndsWith(s + t, x)
  {
    assert (s + t)[|s + t| - |x|..] == t[|t| - |x|..];
  }

  lemma ContainsRight(s: string, a: string, b: string)
    requires Contains(s, a + b)
    ensures Contains(s, b)
  {
    var i :| 0 <= i <= |s| - |a + b| && StartsWith(s[i..], a + b);
    assert s[i + |a|..][..|b|] == s[i..][..|a + b|][|a|..];
    assert StartsWith(s[i + |a|..], b);
  }

  /** The first n texts, one after another. */
  function ConcatUpTo(parts: seq<string>, n: int): string
    requires 0 <= n <= |parts|
    decreases n
  {
    if n == 0 then "" else ConcatUpTo(parts, n - 1) + parts[n - 1]
  }

  /** All the texts, one after another: `"".join(parts)`. */
  function Concat(parts: seq<string>): string {
    ConcatUpTo(parts, |parts|)
  }

  lemma ConcatOne(x: string)
    ensures Concat([x]) == x
  {
    assert Concat([x]) == ConcatUpTo([x], 0) + [x][0];
    assert "" + x == x;
  }

  /** When no text is empty, the first n texts make at least n characters. */
  lemma {:induction false} ConcatUpToLength(parts: seq<string>, n: int)
    requires 0 <= n <= |parts|
    requires forall i :: 0 <= i < |parts| ==> |parts[i]| > 0
    ensures |ConcatUpTo(parts, n)| >= n
    decreases n
  {
    if n > 0 {
      ConcatUpToLength(parts, n - 1);
    }
  }

  /** The first n texts of a list do not depend on what follows them. */
  lemma {:induction false} ConcatUpToPrefix(p: seq<string>, q: seq<string>, n: int)
    requires 0 <= n <= |p|
    ensures ConcatUpTo(p + q, n) == ConcatUpTo(p, n)
    decreases n
  {
    if n > 0 {
      ConcatUpToPrefix(p, q, n - 1);
      assert (p + q)[n - 1] == p[n - 1];
    }
  }

  lemma {:induction false} ConcatUpToAppend(p: seq<string>, q: seq<string>, n: int)
    requires 0 <= n <= |q|
    ensures ConcatUpTo(p + q, |p| + n) == Concat(p) + ConcatUpTo(q, n)
    decreases n
  {
    if n == 0 {
      ConcatUpToPrefix(p, q, |p|);
    } else {
      ConcatUpToAppend(p, q, n - 1);
      var before := Concat(p);
      var middle := ConcatUpTo(q, n - 1);
      var last := q[n - 1];
      assert ConcatUpTo(p + q, |p| + n) == before + middle + last;
      assert before + middle + last == before + (middle + last);
    }
  }

  /** Joining two lists one after the other joins each and puts the results side by side. */
  lemma ConcatAppend(p: seq<string>, q: seq<string>)
    ensures Concat(p + q) == Concat(p) + Concat(q)
  {
    ConcatUpToAppend(p, q, |q|);
  }

  predicate IsBlankChar(c: char) {
    c == ' ' || c == '\t' || c == '\n'
  }

  predicate IsBlank(s: string) {
    forall i :: 0 <= i < |s| ==> IsBlankChar(s[i])
  }

  /** `text` is `core` with only whitespace around it: `text.strip() == core` for such a core. */
  predicate Padded(text: string, core: string) {
    exists lead :: 0 <= lead <= |text| - |core|
      && IsBlank(text[..lead])
      && text[lead..][..|core|] == core
      && IsBlank(text[lead + |core|..])
  }

  lemma PaddedAt(lead: string, core: string, trail: string)
    requires IsBlank(lead) && IsBlank(trail)
    ensures Padded(lead + core + trail, core)
  {
    var text := lead + core + trail;
    assert text[..|lead|] == lead;
    assert text[|lead|..][..|core|] == core;
    assert text[|lead| + |core|..] == trail;
  }
}

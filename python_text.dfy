/**
 * The pieces of Python 2's built-in text handling that the handlers rely on:
 * `str.strip()`, `str.upper()`, the slice `s[:k]` and `str(i)` of an integer.
 * Strings are byte strings read in the C locale, so whitespace and case are ASCII.
 */
module PythonText {

  /** Whitespace as `str.strip()` sees it: space, tab, newline, vertical tab, form feed, carriage return. */
  predicate IsSpace(c: char) {
    c == ' ' || '\t' <= c <= '\r'
  }

  predicate IsDigit(c: char) {
    '0' <= c <= '9'
  }

  /** No whitespace at either end. */
  predicate Trimmed(s: string) {
    |s| > 0 ==> !IsSpace(s[0]) && !IsSpace(s[|s| - 1])
  }

  predicate AllSpace(s: string) {
    forall k :: 0 <= k < |s| ==> IsSpace(s[k])
  }

  /** `s.strip()`: the text without its leading and trailing whitespace. */
  function Strip(s: string): (r: string)
    ensures Trimmed(r)
  {
    if |s| > 0 && IsSpace(s[0]) then Strip(s[1..])
    else if |s| > 0 && IsSpace(s[|s| - 1]) then Strip(s[..|s| - 1])
    else s
  }

  /** Stripping removes exactly the surrounding whitespace: whatever padding surrounds a
      trimmed text, `strip()` gives back that text. */
  lemma {:induction false} StripRemovesPadding(before: string, t: string, after: string)
    requires AllSpace(before) && AllSpace(after) && Trimmed(t)
    ensures Strip(before + t + after) == t
    decreases |before| + |after|
  {
    var s := before + t + after;
    if before != [] {
      assert s[0] == before[0] && s[1..] == before[1..] + t + after;
      StripRemovesPadding(before[1..], t, after);
    } else if after != [] {
      if t == [] {
        assert s == after && s[1..] == [] + t + after[1..];
        StripRemovesPadding([], t, after[1..]);
      } else {
        assert s[0] == t[0] && s[|s| - 1] == after[|after| - 1];
        assert s[..|s| - 1] == [] + t + after[..|after| - 1];
        StripRemovesPadding([], t, after[..|after| - 1]);
      }
    } else {
      assert s == t;
    }
  }

  /** `strip()` keeps a middle piece of the text and drops only whitespace around it:
      the text is the dropped whitespace `before`, the stripped text and `after`. */
  lemma {:induction false} StripDropsSpace(s: string) returns (before: string, after: string)
    ensures AllSpace(before) && AllSpace(after)
    ensures s == before + Strip(s) + after
    decreases |s|
  {
    if |s| > 0 && IsSpace(s[0]) {
      var b, a := StripDropsSpace(s[1..]);
      before, after := [s[0]] + b, a;
      assert Strip(s) == Strip(s[1..]);
      assert s == [s[0]] + s[1..] == [s[0]] + (b + Strip(s) + a);
    } else if |s| > 0 && IsSpace(s[|s| - 1]) {
      var init := s[..|s| - 1];
      var b, a := StripDropsSpace(init);
      before, after := b, a + [s[|s| - 1]];
      assert Strip(s) == Strip(init);
      assert s == init + [s[|s| - 1]] == (b + Strip(s) + a) + [s[|s| - 1]];
    } else {
      before, after := [], [];
    }
  }

  /** Stripping twice is stripping once. */
  lemma StripIdempotent(s: string)
    ensures Strip(Strip(s)) == Strip(s)
  {
    var t := Strip(s);
    StripRemovesPadding([], t, []);
    assert [] + t + [] == t;
  }

  /** `c.upper()` for one ASCII character. */
  function UpperChar(c: char): char {
    if 'a' <= c <= 'z' then (c as int - 32) as char else c
  }

  /** `s.upper()`. */
  function Upper(s: string): (r: string)
    ensures |r| == |s|
  {
    if s == [] then [] else [UpperChar(s[0])] + Upper(s[1..])
  }

  /** Each character of `s.upper()` is the upper-cased character of `s`. */
  lemma {:induction false} UpperAt(s: string, k: nat)
    requires k < |s|
    ensures Upper(s)[k] == UpperChar(s[k])
  {
    if k > 0 {
      UpperAt(s[1..], k - 1);
    }
  }

  /** The slice `s[:k]`: never an index error, the whole of `s` when it is shorter than `k`. */
  function Head(s: string, k: nat): (r: string)
    ensures r <= s
    ensures |r| == if |s| < k then |s| else k
  {
    if |s| <= k then s else s[..k]
  }

  function Pow10(k: nat): (p: nat)
    ensures p >= 1
  {
    if k == 0 then 1 else 10 * Pow10(k - 1)
  }

  /** The number of decimal digits of `n` (0 has one). */
  function NumDigits(n: nat): (d: nat)
    ensures d >= 1
    ensures n < Pow10(d)
  {
    if n < 10 then 1 else 1 + NumDigits(n / 10)
  }

  function DigitChar(d: nat): (c: char)
    requires d < 10
    ensures IsDigit(c)
  {
    ('0' as int + d) as char
  }

  function DigitValue(c: char): nat
    requires IsDigit(c)
  {
    c as int - '0' as int
  }

  /** `str(n)` for a non-negative integer: its decimal digits, most significant first. */
  function NatText(n: nat): (r: string)
    ensures |r| == NumDigits(n)
    ensures forall k :: 0 <= k < |r| ==> IsDigit(r[k])
  {
    if n < 10 then [DigitChar(n)] else NatText(n / 10) + [DigitChar(n % 10)]
  }

  /** `str(i)` for any integer: a minus sign before the digits of a negative one. */
  function IntText(i: int): (r: string)
    ensures r != []
    ensures r[0] == '-' <==> i < 0
  {
    if i < 0 then "-" + NatText(-i) else NatText(i)
  }

  /** `int(s)` for a string of decimal digits. */
  function ParseNat(s: string): nat
    requires forall k :: 0 <= k < |s| ==> IsDigit(s[k])
  {
    if s == [] then 0 else 10 * ParseNat(s[..|s| - 1]) + DigitValue(s[|s| - 1])
  }

  /** Reading back the decimal text of `n` gives `n`. */
  lemma {:induction false} ParseNatText(n: nat)
    ensures ParseNat(NatText(n)) == n
  {
    var s := NatText(n);
    if n >= 10 {
      assert s[..|s| - 1] == NatText(n / 10);
      ParseNatText(n / 10);
    }
  }

  /** Distinct integers have distinct decimal texts. */
  lemma IntTextInjective(i: int, j: int)
    requires IntText(i) == IntText(j)
    ensures i == j
  {
    assert i < 0 <==> j < 0;
    if i < 0 {
      var t := IntText(i);
      assert t[1..] == NatText(-i) && t[1..] == NatText(-j);
      NatTextInjective(-i, -j);
    } else {
      NatTextInjective(i, j);
    }
  }

  lemma NatTextInjective(m: nat, n: nat)
    requires NatText(m) == NatText(n)
    ensures m == n
  {
    ParseNatText(m);
    ParseNatText(n);
  }

  lemma DivideBy(n: int, d: int, a: int, rem: int)
    requires d > 0 && 0 <= rem < d && n == d * a + rem
    ensures n / d == a
  {
    var q, r := n / d, n % d;
    var m := a - q;
    assert d * m == r - rem by {
      assert d * a - d * q == d * (a - q);
    }
  }

  lemma DivOfDiv10(n: nat, k: nat)
    ensures n / 10 / Pow10(k) == n / Pow10(k + 1)
  {
    var p := Pow10(k);
    var q := n / 10;
    var a := q / p;
    assert q == p * a + q % p;
    assert n == 10 * q + n % 10;
    assert n == (10 * p) * a + (10 * (q % p) + n % 10);
    DivideBy(n, 10 * p, a, 10 * (q % p) + n % 10);
  }

  /** The character at position `i` (0 = most significant) of `str(n)` is the digit
      `n // 10**(d - 1 - i) % 10`, where `d` is the number of digits. */
  lemma {:induction false} NatTextAt(n: nat, i: nat)
    requires i < NumDigits(n)
    ensures NatText(n)[i] == DigitChar(n / Pow10(NumDigits(n) - 1 - i) % 10)
  {
    if n >= 10 {
      var d := NumDigits(n);
      if i < d - 1 {
        NatTextAt(n / 10, i);
        DivOfDiv10(n, d - 2 - i);
      }
    }
  }
}

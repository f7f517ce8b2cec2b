/**
 * Number allocation shared by the document modules.
 *
 * Requisitions, quotations, purchase orders, inventories, quotes and tickets take
 * `COALESCE(MAX(CAST(numero AS INTEGER)), 0) + 1` over the company's rows and
 * render it with `String(n).padStart(6, '0')`; exchanges and employees use
 * `COUNT(*) + 1` behind a fixed prefix; the configurable sequence table renders
 * prefix + left-pad(last + 1, size, '0') + suffix.
 */
module Numbering {

  predicate IsDigit(c: char) { '0' <= c <= '9' }

  predicate AllDigits(s: string) { forall i :: 0 <= i < |s| ==> IsDigit(s[i]) }

  function DigitChar(d: nat): (c: char)
    requires d < 10
    ensures IsDigit(c)
  {
    (('0' as int) + d) as char
  }

  function DigitValue(c: char): (d: nat)
    requires IsDigit(c)
    ensures d < 10
  {
    (c as int) - ('0' as int)
  }

  /** `String(n)` for a natural number: its decimal digits, no leading zero. */
  function Digits(n: nat): (s: string)
    ensures |s| >= 1 && AllDigits(s)
    ensures n < 10 <==> |s| == 1
  {
    if n < 10 then [DigitChar(n)] else Digits(n / 10) + [DigitChar(n % 10)]
  }

  /** The number a digit string denotes (leading zeros contribute nothing). */
  function ValueOf(s: string): nat
    requires AllDigits(s)
  {
    if s == [] then 0 else ValueOf(s[..|s| - 1]) * 10 + DigitValue(s[|s| - 1])
  }

  lemma {:induction false} ValueOfDigits(n: nat)
    ensures ValueOf(Digits(n)) == n
  {
    if n >= 10 {
      var s := Digits(n);
      assert s[..|s| - 1] == Digits(n / 10);
      ValueOfDigits(n / 10);
    }
  }

  /** `k` copies of `c` (none when `k` is not positive). */
  function Repeat(c: char, k: int): (r: string)
    ensures |r| == if k > 0 then k else 0
    ensures forall i :: 0 <= i < |r| ==> r[i] == c
  {
    if k <= 0 then [] else seq(k, _ => c)
  }

  /** `str.padStart(width, c)`: unchanged when already `width` long, else `c`s in front. */
  function LeftPad(s: string, width: int, c: char): (r: string)
    ensures |r| == if |s| >= width then |s| else width
  {
    if |s| >= width then s else Repeat(c, width - |s|) + s
  }

  /** Padding keeps the text as a suffix and puts only fill characters in front of it. */
  lemma {:induction false} LeftPadSuffix(s: string, width: int, c: char)
    ensures |s| <= |LeftPad(s, width, c)|
    ensures LeftPad(s, width, c)[|LeftPad(s, width, c)| - |s|..] == s
    ensures forall i :: 0 <= i < |LeftPad(s, width, c)| - |s| ==> LeftPad(s, width, c)[i] == c
  {
    if |s| < width {
      var z := Repeat(c, width - |s|);
      assert (z + s)[|z|..] == s;
    }
  }

  lemma {:induction false} ValueOfLeadingZeros(z: string, s: string)
    requires forall i :: 0 <= i < |z| ==> z[i] == '0'
    requires AllDigits(s)
    ensures AllDigits(z + s) && ValueOf(z + s) == ValueOf(s)
    ensures ValueOf(z) == 0
    decreases |s|, |z|
  {
    assert AllDigits(z + s);
    if s != [] {
      var t := z + s;
      assert t[..|t| - 1] == z + s[..|s| - 1];
      ValueOfLeadingZeros(z, s[..|s| - 1]);
    } else {
      assert z + s == z;
      if z != [] {
        assert z[..|z| - 1] + [] == z[..|z| - 1];
        ValueOfLeadingZeros(z[..|z| - 1], []);
      }
    }
  }

  /** `String(n)` read back by `CAST(… AS INTEGER)` is `n`. */
  lemma {:induction false} CastDigits(n: nat)
    ensures CastInteger(Digits(n)) == n
  {
    LeadingDigitsOfDigits(Digits(n));
    ValueOfDigits(n);
  }

  /** `String(n).padStart(width, '0')`. */
  function Padded(n: nat, width: int): string
  {
    LeftPad(Digits(n), width, '0')
  }

  lemma {:induction false} PaddedRoundTrip(n: nat, width: int)
    ensures AllDigits(Padded(n, width))
    ensures ValueOf(Padded(n, width)) == n
    ensures |Padded(n, width)| == if |Digits(n)| >= width then |Digits(n)| else width
  {
    var d := Digits(n);
    var z := Repeat('0', width - |d|);
    assert Padded(n, width) == z + d by {
      if |d| >= width {
        assert z == [];
        assert [] + d == d;
      }
    }
    ValueOfLeadingZeros(z, d);
    ValueOfDigits(n);
  }

  lemma {:induction false} PaddedInjective(n: nat, m: nat, width: int)
    ensures Padded(n, width) == Padded(m, width) <==> n == m
  {
    PaddedRoundTrip(n, width);
    PaddedRoundTrip(m, width);
  }

  /** The digits at the front of `s`, up to the first non-digit. */
  function LeadingDigits(s: string): (r: string)
    ensures AllDigits(r) && r <= s
    ensures r == s || !IsDigit(s[|r|])
  {
    if s == [] || !IsDigit(s[0]) then [] else [s[0]] + LeadingDigits(s[1..])
  }

  /**
   * SQLite's `CAST(numero AS INTEGER)` on the numbers this system stores: the
   * value of the leading digits, 0 when the text does not start with one.
   */
  function CastInteger(s: string): nat
  {
    ValueOf(LeadingDigits(s))
  }

  lemma {:induction false} LeadingDigitsOfDigits(s: string)
    requires AllDigits(s)
    ensures LeadingDigits(s) == s
  {
    if s != [] {
      LeadingDigitsOfDigits(s[1..]);
      assert [s[0]] + s[1..] == s;
    }
  }

  lemma {:induction false} CastPadded(n: nat, width: int)
    ensures CastInteger(Padded(n, width)) == n
  {
    PaddedRoundTrip(n, width);
    LeadingDigitsOfDigits(Padded(n, width));
  }

  /** `MAX(values)` with SQL's `COALESCE(…, 0)` for the empty case. */
  function MaxOf(values: seq<nat>): (m: nat)
    ensures forall i :: 0 <= i < |values| ==> values[i] <= m
    ensures values == [] ==> m == 0
    ensures values != [] ==> m in values
  {
    if values == [] then 0
    else
      var rest := MaxOf(values[1..]);
      if values[0] >= rest then values[0] else rest
  }

  /** `MAX(CAST(numero AS INTEGER))` over the rows in scope. */
  function MaxNumero(numeros: seq<string>): nat
  {
    if numeros == [] then 0
    else
      var rest := MaxNumero(numeros[1..]);
      var here := CastInteger(numeros[0]);
      if here >= rest then here else rest
  }

  lemma {:induction false} MaxNumeroBounds(numeros: seq<string>)
    ensures forall i :: 0 <= i < |numeros| ==> CastInteger(numeros[i]) <= MaxNumero(numeros)
  {
    if numeros != [] {
      MaxNumeroBounds(numeros[1..]);
      forall i | 1 <= i < |numeros|
        ensures CastInteger(numeros[i]) <= MaxNumero(numeros)
      {
        assert numeros[i] == numeros[1..][i - 1];
      }
    }
  }

  /** `COALESCE(MAX(CAST(numero AS INTEGER)), 0) + 1`, rendered on six digits. */
  function NextNumero(numeros: seq<string>): string
  {
    Padded(MaxNumero(numeros) + 1, 6)
  }

  /**
   * The allocated number reads back as max + 1, is at least six characters
   * long, and differs from every number already in scope.
   */
  lemma {:induction false} NextNumeroFresh(numeros: seq<string>)
    ensures CastInteger(NextNumero(numeros)) == MaxNumero(numeros) + 1
    ensures |NextNumero(numeros)| >= 6 && AllDigits(NextNumero(numeros))
    ensures forall i :: 0 <= i < |numeros| ==> CastInteger(numeros[i]) < CastInteger(NextNumero(numeros))
    ensures NextNumero(numeros) !in numeros
  {
    CastPadded(MaxNumero(numeros) + 1, 6);
    PaddedRoundTrip(MaxNumero(numeros) + 1, 6);
    MaxNumeroBounds(numeros);
  }

  /** A prefixed counter number, `prefix + String(count + 1).padStart(width, '0')`. */
  function CounterNumero(prefix: string, count: nat, width: int): string
  {
    prefix + Padded(count + 1, width)
  }

  /** Different counts give different prefixed numbers. */
  lemma {:induction false} CounterNumeroInjective(prefix: string, c1: nat, c2: nat, width: int)
    ensures CounterNumero(prefix, c1, width) == CounterNumero(prefix, c2, width) <==> c1 == c2
  {
    var a, b := CounterNumero(prefix, c1, width), CounterNumero(prefix, c2, width);
    if a == b {
      assert a[|prefix|..] == Padded(c1 + 1, width);
      assert b[|prefix|..] == Padded(c2 + 1, width);
      PaddedInjective(c1 + 1, c2 + 1, width);
    }
  }

  /** prefix + left-pad(n, width, '0') + suffix, as the sequence table renders it. */
  function Formatted(prefix: string, n: nat, width: int, suffix: string): string
  {
    prefix + Padded(n, width) + suffix
  }

  /** The middle of a formatted number reads back as `n`. */
  lemma {:induction false} FormattedMiddle(prefix: string, n: nat, width: int, suffix: string)
    ensures var f := Formatted(prefix, n, width, suffix);
      |f| >= |prefix| + |suffix| && AllDigits(f[|prefix|..|f| - |suffix|]) &&
      ValueOf(f[|prefix|..|f| - |suffix|]) == n
  {
    var f := Formatted(prefix, n, width, suffix);
    assert f[|prefix|..|f| - |suffix|] == Padded(n, width);
    PaddedRoundTrip(n, width);
  }

  /** With the same prefix, size and suffix, distinct counters give distinct numbers. */
  lemma {:induction false} FormattedInjective(prefix: string, n: nat, m: nat, width: int, suffix: string)
    ensures Formatted(prefix, n, width, suffix) == Formatted(prefix, m, width, suffix) <==> n == m
  {
    FormattedMiddle(prefix, n, width, suffix);
    FormattedMiddle(prefix, m, width, suffix);
  }

  /** `String(n)` of a JavaScript integer. */
  function IntText(n: int): string
  {
    if n < 0 then "-" + Digits(-n) else Digits(n)
  }

  /** The text starts with a minus sign exactly for negative numbers. */
  lemma {:induction false} IntTextSign(n: int)
    ensures |IntText(n)| >= 1 && (IntText(n)[0] == '-' <==> n < 0)
  {
    if n >= 0 {
      assert IsDigit(Digits(n)[0]);
    }
  }

  /** Different integers have different decimal texts. */
  lemma {:induction false} IntTextInjective(a: int, b: int)
    ensures IntText(a) == IntText(b) <==> a == b
  {
    if IntText(a) == IntText(b) {
      IntTextSameNumber(a, b);
    }
  }

  lemma {:induction false} IntTextSameNumber(a: int, b: int)
    requires IntText(a) == IntText(b)
    ensures a == b
  {
    IntTextSign(a);
    IntTextSign(b);
    if a < 0 {
      assert Digits(-a) == IntText(a)[1..] == IntText(b)[1..] == Digits(-b);
      DigitsInjective(-a, -b);
    } else {
      DigitsInjective(a, b);
    }
  }

  lemma {:induction false} DigitsInjective(m: nat, n: nat)
    requires Digits(m) == Digits(n)
    ensures m == n
  {
    ValueOfDigits(m);
    ValueOfDigits(n);
  }
}

/**
 * Digit rendering as Rust's `{}`, `{:x}` and `{:08x}` formats do it for
 * unsigned integers, and the reading back of such digits by a parser.
 */
module Numerals {
  import opened Options

  function Pow(base: nat, k: nat): (r: nat)
    ensures base >= 1 ==> r >= 1
  {
    if k == 0 then 1 else base * Pow(base, k - 1)
  }

  /** The lower-case character for digit `d`. */
  function DigitChar(d: nat): (c: char)
    requires d < 16
    ensures ('0' <= c <= '9') || ('a' <= c <= 'f')
    ensures DigitValue(c) == d
  {
    if d < 10 then (('0' as int) + d) as char else (('a' as int) + d - 10) as char
  }

  /** The value of a digit character, or 16 when `c` is not one. */
  function DigitValue(c: char): (d: nat)
    ensures d <= 16
  {
    if '0' <= c <= '9' then (c as int) - ('0' as int)
    else if 'a' <= c <= 'f' then (c as int) - ('a' as int) + 10
    else 16
  }

  predicate IsDigit(c: char, base: nat) {
    DigitValue(c) < base
  }

  /** Shortest rendering of `n` in `base`: `{}` for base 10, `{:x}` for base 16. */
  function Digits(n: nat, base: nat): (r: string)
    requires 2 <= base <= 16
    ensures |r| >= 1
    ensures forall i :: 0 <= i < |r| ==> IsDigit(r[i], base)
    ensures |r| > 1 ==> r[0] != '0'
    decreases n
  {
    if n < base then [DigitChar(n)]
    else
      DivisionStep(n, base);
      Digits(n / base, base) + [DigitChar(n % base)]
  }

  /** Dividing a number of two or more digits leaves a shorter, non-zero number. */
  lemma DivisionStep(n: nat, base: nat)
    requires 2 <= base <= n
    ensures 1 <= n / base < n && n % base < base
  {
    var q, m := n / base, n % base;
    assert q * base + m == n && m < base;
    MulMonotone(2, base, q);
    assert 2 * q <= q * base <= n;
    assert 0 < q * base;
  }

  /** The last `width` digits of `n`, zero-padded: `{:08x}` is width 8, base 16. */
  function PaddedDigits(n: nat, base: nat, width: nat): (r: string)
    requires 2 <= base <= 16
    ensures |r| == width
    ensures forall i :: 0 <= i < |r| ==> IsDigit(r[i], base)
  {
    if width == 0 then "" else PaddedDigits(n / base, base, width - 1) + [DigitChar(n % base)]
  }

  function Decimal(n: nat): string { Digits(n, 10) }
  function LowerHex(n: nat): string { Digits(n, 16) }
  function Hex8(n: nat): string { PaddedDigits(n, 16, 8) }

  /** The number a string of digits denotes, most significant first. */
  function ValueOf(s: string, base: nat): nat
  {
    if s == [] then 0
    else ValueOf(s[..|s| - 1], base) * base + DigitValue(s[|s| - 1])
  }

  /** A parser's reading of an unsigned literal: a non-empty run of digits. */
  function ParseDigits(s: string, base: nat): Option<nat>
  {
    if s != [] && forall i :: 0 <= i < |s| ==> IsDigit(s[i], base)
    then Some(ValueOf(s, base)) else None
  }

  lemma Decompose(n: nat, b: nat)
    requires b >= 1
    ensures (n / b) * b + n % b == n
  {
  }

  /** Appending a digit multiplies the value by the base and adds the digit. */
  lemma ValueOfSnoc(p: string, c: char, base: nat)
    ensures ValueOf(p + [c], base) == ValueOf(p, base) * base + DigitValue(c)
  {
    assert (p + [c])[..|p|] == p;
  }

  /** The value of `(n / base) * base + n % base` written out digit by digit is `n`. */
  lemma DigitsValueStep(n: nat, base: nat)
    requires 2 <= base <= 16 && n >= base
    requires ValueOf(Digits(n / base, base), base) == n / base
    ensures ValueOf(Digits(n, base), base) == n
  {
    var q, m := n / base, n % base;
    var p := Digits(q, base);
    assert Digits(n, base) == p + [DigitChar(m)];
    ValueOfSnoc(p, DigitChar(m), base);
    Decompose(n, base);
  }

  lemma {:induction false} DigitsValue(n: nat, base: nat)
    requires 2 <= base <= 16
    ensures ValueOf(Digits(n, base), base) == n
    decreases n
  {
    if n < base {
      assert Digits(n, base)[..0] == [];
    } else {
      DigitsValue(n / base, base);
      DigitsValueStep(n, base);
    }
  }

  /** Rendering and reading back are inverse. */
  lemma DigitsRoundTrip(n: nat, base: nat)
    requires 2 <= base <= 16
    ensures ParseDigits(Digits(n, base), base) == Some(n)
  {
    DigitsValue(n, base);
  }

  lemma PaddedDigitsValueStep(n: nat, base: nat, width: nat)
    requires 2 <= base <= 16 && width >= 1
    requires ValueOf(PaddedDigits(n / base, base, width - 1), base) == n / base
    ensures ValueOf(PaddedDigits(n, base, width), base) == n
  {
    var q, m := n / base, n % base;
    var p := PaddedDigits(q, base, width - 1);
    assert PaddedDigits(n, base, width) == p + [DigitChar(m)];
    ValueOfSnoc(p, DigitChar(m), base);
    Decompose(n, base);
  }

  /** A value that fits in `width` hexadecimal digits reads back from its padded rendering. */
  lemma {:induction false} PaddedHexValue(n: nat, width: nat)
    requires n < Pow(16, width)
    ensures ValueOf(PaddedDigits(n, 16, width), 16) == n
  {
    if width == 0 {
      assert n == 0;
    } else {
      var p := Pow(16, width - 1);
      assert Pow(16, width) == 16 * p;
      QuotientBound(n, 16, p);
      PaddedHexValue(n / 16, width - 1);
      PaddedDigitsValueStep(n, 16, width);
    }
  }

  lemma QuotientBound(n: nat, b: nat, p: nat)
    requires b >= 1 && n < b * p
    ensures n / b < p
  {
    var q := n / b;
    if q >= p {
      MulMonotone(p, q, b);
    }
  }

  lemma MulMonotone(a: nat, c: nat, b: nat)
    requires a <= c
    ensures a * b <= c * b
  {
    assert c * b == a * b + (c - a) * b;
  }
}

/**
 * The literal encoder (`gen_num` in src/generator.rs) and, as its partner,
 * the reading the script runtime gives the emitted text: Rhai parses the
 * argument of `u64(..)` as a signed 64-bit literal, and the host's
 * `u64_big(high, low)` computes `(high as u64) << 32 | (low as u64)`
 * (src/main.rs:42).
 */
module Literals {
  import opened Options
  import opened Ast
  import opened Numerals

  /** 2^63: values from here on do not fit a signed 64-bit literal. */
  const SignBoundary: nat := 0x8000_0000_0000_0000
  /** 2^32, the weight of the high word. */
  const Word: nat := 0x1_0000_0000
  /** 2^64. */
  const U64Modulus: nat := 0x1_0000_0000_0000_0000
  /** The largest value a runtime integer literal may have (`i64::MAX`). */
  const I64Max: nat := 0x7FFF_FFFF_FFFF_FFFF

  /** `(v >> 32) as u32`. */
  function HighWord(v: u64): (h: nat)
    ensures h < Word
  {
    v / Word
  }

  /** `v as u32`: truncation to the low 32 bits. */
  function LowWord(v: u64): (l: nat)
    ensures l < Word
  {
    v % Word
  }

  /** The script text of a numeric literal. */
  function GenNum(v: u64, style: NumStyle): (r: string)
    ensures |r| > 4 && r[..3] == "u64" && r[|r| - 1] == ')'
    ensures r[3] == '_' <==> v >= SignBoundary
  {
    if v >= SignBoundary then
      "u64_big(0x" + Hex8(HighWord(v)) + ", 0x" + Hex8(LowWord(v)) + ")"
    else match style
      case Dec => "u64(" + Decimal(v) + ")"
      case Hex => "u64(0x" + LowerHex(v) + ")"
  }

  // ---- the runtime side ----

  /** Bitwise or of two naturals, bit by bit from the least significant. */
  function OrBits(a: nat, b: nat): nat
    decreases a + b
  {
    if a == 0 then b
    else if b == 0 then a
    else 2 * OrBits(a / 2, b / 2) + (if a % 2 == 1 || b % 2 == 1 then 1 else 0)
  }

  /** `x << k` on `u64`: bits shifted past bit 63 are lost. */
  function ShiftLeft64(x: nat, k: nat): (r: nat)
    ensures r < U64Modulus
  {
    (x * Pow(2, k)) % U64Modulus
  }

  /** What the host's `u64_big(high, low)` returns for non-negative arguments. */
  function U64Big(high: nat, low: nat): (r: nat)
    ensures r < U64Modulus
  {
    U64Bits();
    OrBitsBelow(ShiftLeft64(high % U64Modulus, 32), low % U64Modulus, 64);
    OrBits(ShiftLeft64(high % U64Modulus, 32), low % U64Modulus)
  }

  /** Which of the three emitted forms a literal takes. */
  datatype LiteralForm = DecimalForm | HexForm | SplitForm

  /** The form `gen_num` picks: the split form exactly from the sign boundary on. */
  function FormOf(v: u64, style: NumStyle): LiteralForm
  {
    if v >= SignBoundary then SplitForm
    else if style == Dec then DecimalForm else HexForm
  }

  /** A runtime integer literal: its digits, rejected when it overflows `i64`. */
  function RuntimeInt(digits: string, base: nat): Option<nat>
    requires 2 <= base <= 16
  {
    match ParseDigits(digits, base)
    case Some(n) => if n <= I64Max then Some(n) else None
    case None => None
  }

  /**
   * The value the runtime computes from emitted literal text, with the form
   * it was written in; `None` for text it would reject.
   */
  function ReadLiteral(t: string): (r: Option<(nat, LiteralForm)>)
    ensures r.Some? ==> r.value.0 < U64Modulus
    ensures r.Some? && r.value.1 != SplitForm ==> r.value.0 <= I64Max
  {
    if |t| == 31 && t[..10] == "u64_big(0x" && t[18..22] == ", 0x" && t[30..] == ")" then
      match (RuntimeInt(t[10..18], 16), RuntimeInt(t[22..30], 16))
      case (Some(h), Some(l)) => Some((U64Big(h, l), SplitForm))
      case _ => None
    else if |t| >= 7 && t[..6] == "u64(0x" && t[|t| - 1] == ')' then
      match RuntimeInt(t[6..|t| - 1], 16)
      case Some(n) => Some((n, HexForm))
      case None => None
    else if |t| >= 5 && t[..4] == "u64(" && t[|t| - 1] == ')' then
      match RuntimeInt(t[4..|t| - 1], 10)
      case Some(n) => Some((n, DecimalForm))
      case None => None
    else None
  }

  /** Or-ing in a value below `2^k` adds it to a multiple of `2^k`. */
  lemma {:induction false} OrBitsDisjoint(a: nat, b: nat, k: nat)
    requires b < Pow(2, k)
    ensures OrBits(a * Pow(2, k), b) == a * Pow(2, k) + b
    decreases k
  {
    if k == 0 {
      assert b == 0;
    } else if a == 0 {
    } else if b == 0 {
    } else {
      var p := Pow(2, k - 1);
      assert a * Pow(2, k) == 2 * (a * p);
      assert (a * Pow(2, k)) / 2 == a * p;
      assert (a * Pow(2, k)) % 2 == 0;
      assert b / 2 < p;
      OrBitsDisjoint(a, b / 2, k - 1);
      assert OrBits(a * Pow(2, k), b) == 2 * OrBits(a * p, b / 2) + b % 2;
    }
  }

  lemma {:induction false} PowTwoByFour(k: nat)
    ensures Pow(2, 4 * k) == Pow(16, k)
  {
    if k > 0 {
      PowTwoByFour(k - 1);
      var j := 4 * (k - 1);
      assert Pow(2, j + 1) == 2 * Pow(2, j);
      assert Pow(2, j + 2) == 2 * Pow(2, j + 1);
      assert Pow(2, j + 3) == 2 * Pow(2, j + 2);
      assert Pow(2, j + 4) == 2 * Pow(2, j + 3);
    }
  }

  /** The two words `gen_num` emits recombine to the literal's value. */
  lemma SplitRecombines(v: u64)
    ensures U64Big(HighWord(v), LowWord(v)) == v
  {
    var h, l := HighWord(v), LowWord(v);
    assert h * Word + l == v;
    U64BigAdds(h, l);
  }

  /** On two 32-bit words the host's shift-and-or is `high * 2^32 + low`. */
  lemma U64BigAdds(high: nat, low: nat)
    requires high < Word && low < Word
    ensures U64Big(high, low) == high * Word + low
  {
    PowTwoByFour(8);
    var p := Pow(2, 32);
    assert p == Word;
    assert high * p < U64Modulus;
    assert high % U64Modulus == high && low % U64Modulus == low;
    assert ShiftLeft64(high, 32) == high * p;
    OrBitsDisjoint(high, low, 32);
    assert U64Big(high, low) == OrBits(high * p, low);
  }

  /** Or-ing two values below `2^k` stays below `2^k`. */
  lemma {:induction false} OrBitsBelow(a: nat, b: nat, k: nat)
    requires a < Pow(2, k) && b < Pow(2, k)
    ensures OrBits(a, b) < Pow(2, k)
    decreases k
  {
    if k > 0 && a != 0 && b != 0 {
      OrBitsBelow(a / 2, b / 2, k - 1);
    }
  }

  lemma U64Bits()
    ensures Pow(2, 64) == U64Modulus
  {
    PowTwoByFour(8);
    assert Pow(16, 8) == Word;
    PowAdd(2, 32, 32);
    assert Word * Word == U64Modulus;
  }

  lemma {:induction false} PowAdd(b: nat, m: nat, n: nat)
    ensures Pow(b, m + n) == Pow(b, m) * Pow(b, n)
    decreases n
  {
    if n > 0 {
      PowAdd(b, m, n - 1);
      var x, y := Pow(b, m), Pow(b, n - 1);
      assert Pow(b, m + n) == b * (x * y);
      assert b * (x * y) == x * (b * y);
    }
  }

  lemma PaddedWord(x: nat)
    requires x < Word
    ensures RuntimeInt(Hex8(x), 16) == Some(x)
  {
    assert Pow(16, 8) == Word;
    PaddedHexValue(x, 8);
  }

  lemma PlainRuntimeInt(v: nat, base: nat)
    requires 2 <= base <= 16 && v <= I64Max
    ensures RuntimeInt(Digits(v, base), base) == Some(v)
  {
    DigitsRoundTrip(v, base);
  }

  /**
   * Every literal round-trips: the runtime reads back exactly `v`, in the
   * decimal or hexadecimal form the style asks for below the sign boundary
   * and in the split form from it on.
   */
  lemma LiteralRoundTrip(v: u64, style: NumStyle)
    ensures ReadLiteral(GenNum(v, style)) == Some((v, FormOf(v, style)))
  {
    var t := GenNum(v, style);
    if v >= SignBoundary {
      var hs, ls := Hex8(HighWord(v)), Hex8(LowWord(v));
      assert t == "u64_big(0x" + hs + ", 0x" + ls + ")";
      assert t[..10] == "u64_big(0x";
      assert t[10..18] == hs;
      assert t[18..22] == ", 0x";
      assert t[22..30] == ls;
      assert t[30..] == ")";
      PaddedWord(HighWord(v));
      PaddedWord(LowWord(v));
      SplitRecombines(v);
    } else if style == Hex {
      var ds := LowerHex(v);
      assert t == "u64(0x" + ds + ")";
      assert t[..6] == "u64(0x";
      assert |t| >= 10 ==> t[..10] != "u64_big(0x" by { assert t[3] == '(' && "u64_big(0x"[3] == '_'; }
      assert t[6..|t| - 1] == ds;
      PlainRuntimeInt(v, 16);
    } else {
      var ds := Decimal(v);
      assert t == "u64(" + ds + ")";
      assert t[..4] == "u64(";
      assert |t| >= 10 ==> t[..10] != "u64_big(0x" by { assert t[3] == '(' && "u64_big(0x"[3] == '_'; }
      assert t[4] != 'x' by { assert IsDigit(ds[0], 10); }
      assert |t| >= 7 ==> t[..6] != "u64(0x" by { assert |ds| == 1 || t[5] == ds[1]; }
      assert t[4..|t| - 1] == ds;
      PlainRuntimeInt(v, 10);
    }
  }

  /** Distinct values never share a literal text. */
  lemma GenNumInjective(v: u64, s: NumStyle, w: u64, s': NumStyle)
    requires GenNum(v, s) == GenNum(w, s')
    ensures v == w
  {
    LiteralRoundTrip(v, s);
    LiteralRoundTrip(w, s');
  }
}

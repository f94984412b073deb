/** That the binary arithmetic rounds as IEEE 754 and Python promise: to the
    nearest representable value, ties to even. */
module Rounding {
  import opened Common
  import opened Floating

  /** q is the integer nearest to num / den, the even one of two. */
  ghost predicate NearestTo(num: nat, den: nat, q: nat) {
    var off := if num >= q * den then num - q * den else q * den - num;
    2 * off <= den && (2 * off == den ==> q % 2 == 0)
  }

  lemma RoundDivIsNearest(num: nat, den: nat)
    requires den > 0
    ensures NearestTo(num, den, RoundDiv(num, den))
  {
    var q, r := num / den, num % den;
    assert num == q * den + r && (q + 1) * den == q * den + den;
  }

  lemma {:induction false} DownIsPower(limit: nat, num: nat, den: nat, e: int)
    requires limit > 1 && den > 0
    ensures var (d, e') := ScaleDown(limit, num, den, e);
            e' >= e && d == den * Pow2(e' - e) && (e' > e ==> 2 * num >= d * limit)
    decreases num - den
  {
    assert Pow2(0) == 1;
    if num >= den * limit {
      assert den * limit >= den * 2;
      DownIsPower(limit, num, 2 * den, e + 1);
      var (d, e') := ScaleDown(limit, num, 2 * den, e + 1);
      HalvePower(den, 1, e' - e);
      assert 2 * num >= 2 * (den * limit) == 2 * den * limit;
    }
  }

  lemma {:induction false} UpIsPower(limit: nat, num: nat, den: nat, e: int)
    requires limit > 1 && den > 0 && 0 < num < den * limit
    ensures var (n, e') := ScaleUp(limit, num, den, e);
            e' <= e && n == num * Pow2(e - e')
    decreases den * limit - num
  {
    assert Pow2(0) == 1;
    if 2 * num < den * limit {
      UpIsPower(limit, 2 * num, den, e - 1);
      var (n, e') := ScaleUp(limit, 2 * num, den, e - 1);
      HalvePower(num, 1, e - e');
    }
  }

  /** 2^e for e >= 0, else 1. */
  function Above(e: int): nat {
    if e >= 0 then Pow2(e) else 1
  }

  /** A rounded quotient has a mantissa of the full precision, and is the nearest
      such value: q * 2^e, where q == limit is written as limit / 2 * 2. */
  lemma RoundIsNearest(limit: nat, num: nat, den: nat) returns (q: nat, e: int)
    requires limit > 2 && limit % 2 == 0 && den > 0 && num > 0
    ensures Round(limit, num, den) == if q == limit then Float(false, limit / 2, e + 1) else Float(false, q, e)
    ensures limit / 2 <= q <= limit
    ensures NearestTo(num * Above(-e), den * Above(e), q)
    ensures num * Above(-e) < den * Above(e) * limit <= 2 * (num * Above(-e))
  {
    var (den', up) := ScaleDown(limit, num, den, 0);
    var (num', e') := ScaleUp(limit, num, den', up);
    DownIsPower(limit, num, den, 0);
    UpIsPower(limit, num, den', up);
    assert Pow2(0) == 1;
    q, e := RoundDiv(num', den'), e';
    assert num' == num * Above(-e) && den' == den * Above(e);
    RoundDivIsNearest(num', den');
    RoundDivBounds(limit, num', den');
  }

  lemma TimesMonotone(a: nat, b: nat, d: nat)
    requires a <= b
    ensures a * d <= b * d
  {
  }

  lemma RoundDivBounds(limit: nat, num: nat, den: nat)
    requires den > 0 && limit % 2 == 0 && num < den * limit <= 2 * num
    ensures limit / 2 <= RoundDiv(num, den) <= limit
  {
    var q, half := num / den, limit / 2;
    QuotientBounds(num, den);
    assert den * limit == limit * den && limit * den == 2 * (half * den) by { assert limit == 2 * half; }
    if q >= limit { TimesMonotone(limit, q, den); }
    if q < half { TimesMonotone(q + 1, half, den); }
  }

  lemma QuotientBounds(num: nat, den: nat)
    requires den > 0
    ensures num / den * den <= num < (num / den + 1) * den
  {
  }

  /** round(x, 2) is the nearest number of hundredths. */
  lemma HundredthsAreNearest(f: Float)
    ensures var n := Hundredths(f);
            var size: nat := if n < 0 then -n else n;
            && (n == 0 || (n < 0 <==> f.negative))
            && if f.exponent >= 0 then size == 100 * f.mantissa * Pow2(f.exponent)
               else NearestTo(100 * f.mantissa, Pow2(-f.exponent), size)
  {
    if f.exponent < 0 {
      RoundDivIsNearest(100 * f.mantissa, Pow2(-f.exponent));
    }
  }

  // ---------------------------------------------------------- reading bits

  /** A non-negative value in units of 2^least. */
  function Units(f: Float, least: int): nat
    requires !f.negative && f.exponent >= least
  {
    f.mantissa * Pow2(f.exponent - least)
  }

  /** The upper and the lower part of the next number. */
  lemma NextParts(n: nat, unit: nat)
    requires unit > 1
    ensures if n % unit + 1 == unit then (n + 1) / unit == n / unit + 1 && (n + 1) % unit == 0
            else (n + 1) / unit == n / unit && (n + 1) % unit == n % unit + 1
  {
    var q, r := n / unit, n % unit;
    if r + 1 == unit { DivModUnique(n + 1, unit, q + 1, 0); } else { DivModUnique(n + 1, unit, q, r + 1); }
  }

  /** The value with these exponent and fraction bits. */
  function Positive(half: nat, least: int, biased: nat, fraction: nat): Float {
    if biased == 0 then Float(false, fraction, if fraction == 0 then 0 else least)
    else Float(false, half + fraction, least + biased - 1)
  }

  lemma PositiveSteps(half: nat, least: int, biased: nat, fraction: nat)
    requires fraction < half && least <= 0
    ensures var f := Positive(half, least, biased, fraction);
            var g := if fraction + 1 == half then Positive(half, least, biased + 1, 0)
                     else Positive(half, least, biased, fraction + 1);
            Units(g, least) == Units(f, least) + Pow2(if biased == 0 then 0 else biased - 1)
  {
    assert Pow2(0) == 1;
    if biased > 0 {
      NextBinade(half, biased - 1);
      NextFraction(half + fraction, biased - 1);
    }
  }

  lemma NextBinade(half: nat, e: nat)
    requires half > 0
    ensures half * Pow2(e + 1) == (2 * half - 1) * Pow2(e) + Pow2(e)
  {
  }

  lemma NextFraction(m: nat, e: nat)
    ensures (m + 1) * Pow2(e) == m * Pow2(e) + Pow2(e)
  {
  }

  lemma SingleIs(bits: nat)
    requires bits < 0x8000_0000
    ensures SingleFromBits(bits)
         == if bits < 0x7f80_0000 then Some(Positive(0x80_0000, -149, bits / 0x80_0000, bits % 0x80_0000)) else None
    ensures bits < 0x80_0000 <==> bits / 0x80_0000 == 0
  {
  }

  lemma DoubleIs(bits: nat)
    requires bits < TwoTo64 / 2
    ensures DoubleFromBits(bits)
         == if bits < 0x7ff0_0000_0000_0000
            then Some(Positive(0x10_0000_0000_0000, -1074, bits / 0x10_0000_0000_0000, bits % 0x10_0000_0000_0000))
            else None
    ensures bits < 0x10_0000_0000_0000 <==> bits / 0x10_0000_0000_0000 == 0
  {
  }

  /** The bit patterns of binary32 count up through the non-negative values, from
      zero, in steps of 2^-149 that double with every exponent from the second on;
      those from 0x7f80_0000 on are no values. */
  lemma SinglesAreSpaced(bits: nat)
    requires bits < 0x8000_0000
    ensures SingleFromBits(0) == Some(Zero) && (SingleFromBits(bits).Some? <==> bits < 0x7f80_0000)
    ensures SingleFromBits(bits).Some? ==>
              !SingleFromBits(bits).value.negative && SingleFromBits(bits).value.exponent >= -149
    ensures bits + 1 < 0x7f80_0000 ==>
              Units(SingleFromBits(bits + 1).value, -149)
              == Units(SingleFromBits(bits).value, -149) + Pow2(if bits < 0x80_0000 then 0 else bits / 0x80_0000 - 1)
  {
    SingleIs(0);
    SingleIs(bits);
    if bits + 1 < 0x8000_0000 { SingleIs(bits + 1); }
    NextParts(bits, 0x80_0000);
    PositiveSteps(0x80_0000, -149, bits / 0x80_0000, bits % 0x80_0000);
  }

  /** The top bit of a binary32 is the sign. */
  lemma SinglesAreSigned(bits: nat)
    requires bits < 0x8000_0000
    ensures SingleFromBits(bits + 0x8000_0000)
         == match SingleFromBits(bits) case Some(f) => Some(f.(negative := true)) case None => None
  {
    var biased, fraction := bits / 0x80_0000, bits % 0x80_0000;
    DivModUnique(bits + 0x8000_0000, 0x80_0000, biased + 256, fraction);
  }

  /** The same for binary64, from 2^-1074 on. */
  lemma DoublesAreSpaced(bits: nat)
    requires bits < TwoTo64 / 2
    ensures DoubleFromBits(0) == Some(Zero) && (DoubleFromBits(bits).Some? <==> bits < 0x7ff0_0000_0000_0000)
    ensures DoubleFromBits(bits).Some? ==>
              !DoubleFromBits(bits).value.negative && DoubleFromBits(bits).value.exponent >= -1074
    ensures bits + 1 < 0x7ff0_0000_0000_0000 ==>
              Units(DoubleFromBits(bits + 1).value, -1074)
              == Units(DoubleFromBits(bits).value, -1074)
                 + Pow2(if bits < 0x10_0000_0000_0000 then 0 else bits / 0x10_0000_0000_0000 - 1)
  {
    DoubleIs(0);
    DoubleIs(bits);
    if bits + 1 < TwoTo64 / 2 { DoubleIs(bits + 1); }
    NextParts(bits, 0x10_0000_0000_0000);
    PositiveSteps(0x10_0000_0000_0000, -1074, bits / 0x10_0000_0000_0000, bits % 0x10_0000_0000_0000);
  }

  lemma DoublesAreSigned(bits: nat)
    requires bits < TwoTo64 / 2
    ensures DoubleFromBits(bits + TwoTo64 / 2)
         == match DoubleFromBits(bits) case Some(f) => Some(f.(negative := true)) case None => None
  {
    var biased, fraction := bits / 0x10_0000_0000_0000, bits % 0x10_0000_0000_0000;
    DivModUnique(bits + TwoTo64 / 2, 0x10_0000_0000_0000, biased + 2048, fraction);
  }
}

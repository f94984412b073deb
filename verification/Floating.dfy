/** Binary floating point as IEEE 754 defines it: a result is the exact value
    rounded to the precision, ties to even. A precision of p bits is given by
    limit == 2^p. Overflow and subnormal results do not occur for the values
    the two programs compute, whose magnitudes lie between 2^-20 and 2^80. */
module Floating {
  import opened Common

  /** The value (-1)^negative * mantissa * 2^exponent. */
  datatype Float = Float(negative: bool, mantissa: nat, exponent: int)

  const Zero := Float(false, 0, 0)
  const Single: nat := 0x100_0000
  const Double: nat := 0x20_0000_0000_0000

  /** The nearest integer to num / den, ties to even. */
  function RoundDiv(num: nat, den: nat): nat
    requires den > 0
  {
    var q, r := num / den, num % den;
    if 2 * r < den || (2 * r == den && q % 2 == 0) then q else q + 1
  }

  /** Doubles the denominator until the quotient is below limit. */
  function ScaleDown(limit: nat, num: nat, den: nat, e: int): (r: (nat, int))
    requires limit > 1 && den > 0
    ensures r.0 > 0 && num < r.0 * limit
    decreases num - den
  {
    if num >= den * limit then
      assert den * limit >= den * 2;
      ScaleDown(limit, num, 2 * den, e + 1)
    else (den, e)
  }

  /** Doubles the numerator until the quotient is at least limit / 2. */
  function ScaleUp(limit: nat, num: nat, den: nat, e: int): (r: (nat, int))
    requires limit > 1 && den > 0 && 0 < num < den * limit
    ensures r.0 > 0 && r.0 < den * limit <= 2 * r.0
    decreases den * limit - num
  {
    if 2 * num < den * limit then ScaleUp(limit, 2 * num, den, e - 1) else (num, e)
  }

  /** num / den rounded to the precision. */
  function Round(limit: nat, num: nat, den: nat): (f: Float)
    requires limit > 1 && den > 0
    ensures !f.negative
  {
    if num == 0 then Zero
    else
      var (den', up) := ScaleDown(limit, num, den, 0);
      var (num', e) := ScaleUp(limit, num, den', up);
      var m := RoundDiv(num', den');
      if m == limit then Float(false, m / 2, e + 1) else Float(false, m, e)
  }

  /** a * f / b rounded to the precision. */
  function Scale(limit: nat, f: Float, a: nat, b: nat): (r: Float)
    requires limit > 1 && b > 0
    ensures r.negative == f.negative
  {
    var r := if f.exponent >= 0 then Round(limit, f.mantissa * Pow2(f.exponent) * a, b)
             else Round(limit, f.mantissa * a, b * Pow2(-f.exponent));
    r.(negative := f.negative)
  }

  function FromInt(limit: nat, n: int): Float
    requires limit > 1
  {
    if n >= 0 then Round(limit, n, 1) else Round(limit, -n, 1).(negative := true)
  }

  /** int(): the integer part. */
  function Truncate(f: Float): (n: int)
    ensures !f.negative ==> n >= 0
  {
    var n: nat := if f.exponent >= 0 then f.mantissa * Pow2(f.exponent) else Quotient(f.mantissa, Pow2(-f.exponent));
    if f.negative then 0 - n else n
  }

  function Quotient(n: nat, d: nat): nat
    requires d > 0
  {
    n / d
  }

  /** The nearest number of hundredths, ties to even: round(x, 2) in Python. */
  function Hundredths(f: Float): int {
    var n := if f.exponent >= 0 then 100 * f.mantissa * Pow2(f.exponent)
             else RoundDiv(100 * f.mantissa, Pow2(-f.exponent));
    if f.negative then -n else n
  }

  // ------------------------------------------------------- binary32 encoding

  predicate IsSingle(f: Float) {
    f == Zero || (0x80_0000 <= f.mantissa < Single && -149 <= f.exponent <= 104)
  }

  function SingleBits(f: Float): (bits: nat)
    requires IsSingle(f)
    ensures bits < 0x1_0000_0000
  {
    (if f.negative then 0x8000_0000 else 0) +
    if f.mantissa == 0 then 0 else (f.exponent + 150) * 0x80_0000 + (f.mantissa - 0x80_0000)
  }

  /** None for the infinities and the NaNs. */
  function SingleFromBits(bits: nat): Option<Float>
    requires bits < 0x1_0000_0000
  {
    var negative, biased, fraction := bits >= 0x8000_0000, bits / 0x80_0000 % 0x100, bits % 0x80_0000;
    if biased == 0xff then None
    else if biased == 0 then Some(Float(negative, fraction, if fraction == 0 then 0 else -149))
    else Some(Float(negative, 0x80_0000 + fraction, biased - 150))
  }

  lemma SingleBitsRoundTrip(f: Float)
    requires IsSingle(f)
    ensures SingleFromBits(SingleBits(f)) == Some(f)
  {
    if f.mantissa != 0 {
      var biased, fraction := f.exponent + 150, f.mantissa - 0x80_0000;
      var bits := SingleBits(f);
      var high := (if f.negative then 0x100 else 0) + biased;
      assert bits == high * 0x80_0000 + fraction;
      assert bits / 0x80_0000 == high && bits % 0x80_0000 == fraction;
      assert high % 0x100 == biased;
    }
  }

  /** Bits 52..62 are the exponent of a binary64, the low 52 the fraction. */
  function DoubleFromBits(bits: nat): Option<Float>
    requires bits < TwoTo64
  {
    var negative, biased, fraction :=
      bits >= TwoTo64 / 2, bits / 0x10_0000_0000_0000 % 0x800, bits % 0x10_0000_0000_0000;
    if biased == 0x7ff then None
    else if biased == 0 then Some(Float(negative, fraction, if fraction == 0 then 0 else -1074))
    else Some(Float(negative, 0x10_0000_0000_0000 + fraction, biased - 1075))
  }

  // ------------------------------------------------ when nothing is rounded

  lemma {:induction false} Pow2Add(a: nat, b: nat)
    ensures Pow2(a + b) == Pow2(a) * Pow2(b)
  {
    if a > 0 {
      Pow2Add(a - 1, b);
      assert Pow2(a + b) == 2 * Pow2(a - 1 + b);
    }
  }

  ghost predicate IsInteger(f: Float, n: nat) {
    !f.negative && if f.exponent >= 0 then f.mantissa * Pow2(f.exponent) == n else f.mantissa == n * Pow2(-f.exponent)
  }

  lemma {:induction false} ScaleDownExact(limit: nat, num: nat, den: nat, e: int, k: nat, t: nat) returns (t': nat)
    requires limit > 1 && den > 0 && 0 < k < limit && num == den * (k * Pow2(t))
    ensures var (d, e') := ScaleDown(limit, num, den, e); num == d * (k * Pow2(t')) && e' + t' == e + t
    decreases num - den
  {
    if num >= den * limit {
      assert t > 0 by {
        if t == 0 {
          MulLess(den, k, limit);
        }
      }
      assert den * limit >= den * 2;
      HalvePower(den, k, t);
      t' := ScaleDownExact(limit, num, 2 * den, e + 1, k, t - 1);
    } else {
      t' := t;
    }
  }

  lemma HalvePower(den: nat, k: nat, t: nat)
    requires t > 0
    ensures den * (k * Pow2(t)) == (2 * den) * (k * Pow2(t - 1))
  {
    assert k * Pow2(t) == 2 * (k * Pow2(t - 1));
  }

  lemma {:induction false} ScaleUpExact(limit: nat, num: nat, den: nat, e: int, k: nat, t: nat) returns (t': nat)
    requires limit > 1 && den > 0 && 0 < num < den * limit && num == den * (k * Pow2(t))
    ensures var (n, e') := ScaleUp(limit, num, den, e); n == den * (k * Pow2(t')) && e' + t' == e + t
    decreases den * limit - num
  {
    if 2 * num < den * limit {
      HalvePower(den, k, t + 1);
      t' := ScaleUpExact(limit, 2 * num, den, e - 1, k, t + 1);
    } else {
      t' := t;
    }
  }

  lemma MulLess(d: nat, x: nat, y: nat)
    requires d > 0 && x < y
    ensures d * x < d * y
  {
    assert d * y == d * x + d * (y - x);
    assert d * (y - x) >= 1;
  }

  lemma MulAdd(d: int, x: int, y: int)
    ensures d * (x + y) == d * x + d * y
  {
  }

  lemma MulAtLeast(d: nat, k: nat)
    requires k >= 1
    ensures d * k >= d
  {
  }

  lemma MulAssoc(x: int, y: int, z: int)
    ensures x * (y * z) == x * y * z
    ensures x * y * z == x * z * y
  {
  }

  lemma DivModUnique(n: nat, d: nat, q: nat, r: nat)
    requires d > 0 && n == d * q + r && r < d
    ensures n / d == q && n % d == r
  {
    var q', r' := n / d, n % d;
    assert n == d * q' + r';
    if q' < q {
      MulAdd(d, q', q - q');
      MulAtLeast(d, q - q');
    } else if q' > q {
      MulAdd(d, q, q' - q);
      MulAtLeast(d, q' - q);
    }
  }

  lemma RoundDivExact(den: nat, q: nat)
    requires den > 0
    ensures RoundDiv(den * q, den) == q
  {
    DivModUnique(den * q, den, q, 0);
  }

  /** A quotient that is an integer k * 2^t with k below the limit is represented exactly. */
  lemma RoundExact(limit: nat, num: nat, den: nat, k: nat, t: nat)
    requires limit > 1 && den > 0 && k < limit && num == den * (k * Pow2(t))
    ensures IsInteger(Round(limit, num, den), k * Pow2(t))
  {
    if k > 0 {
      assert num > 0 by {
        assert k * Pow2(t) > 0;
      }
      var (d, up) := ScaleDown(limit, num, den, 0);
      var t1 := ScaleDownExact(limit, num, den, 0, k, t);
      var (n, e) := ScaleUp(limit, num, d, up);
      var t2 := ScaleUpExact(limit, num, d, up, k, t1);
      var m := k * Pow2(t2);
      RoundDivExact(d, m);
      if m >= limit {
        if m > limit {
          MulLess(d, limit, m);
        }
        assert false;
      }
      ExactValue(k, t, t2, e);
    }
  }

  lemma ExactValue(k: nat, t: nat, t2: nat, e: int)
    requires e + t2 == t
    ensures IsInteger(Float(false, k * Pow2(t2), e), k * Pow2(t))
  {
    if e >= 0 {
      Pow2Add(t2, e);
      MulAssoc(k, Pow2(t2), Pow2(e));
    } else {
      Pow2Add(t, -e);
      MulAssoc(k, Pow2(t), Pow2(-e));
    }
  }

  /** Exact scaling of an exactly represented integer. */
  lemma ScaleExact(limit: nat, f: Float, n: nat, a: nat, b: nat, k: nat, t: nat)
    requires limit > 1 && b > 0 && k < limit && IsInteger(f, n) && n * a == b * (k * Pow2(t))
    ensures IsInteger(Scale(limit, f, a, b), k * Pow2(t))
  {
    if f.exponent >= 0 {
      RoundExact(limit, f.mantissa * Pow2(f.exponent) * a, b, k, t);
    } else {
      var d := Pow2(-f.exponent);
      assert f.mantissa * a == (b * d) * (k * Pow2(t)) by {
        assert f.mantissa * a == n * d * a == n * a * d;
        assert n * a * d == b * (k * Pow2(t)) * d == (b * d) * (k * Pow2(t));
      }
      RoundExact(limit, f.mantissa * a, b * d, k, t);
    }
  }

  lemma TruncateInteger(f: Float, n: nat)
    requires IsInteger(f, n)
    ensures Truncate(f) == n
    ensures f.exponent < 0 ==> f.mantissa % Pow2(-f.exponent) == 0
  {
    if f.exponent < 0 {
      var d := Pow2(-f.exponent);
      assert f.mantissa == d * n;
      DivModUnique(f.mantissa, d, n, 0);
    }
  }

  // ------------------------------------------------------ the rounding error

  /** num / den == (a / b) / 2^e. */
  ghost predicate Ratio(num: nat, den: nat, e: int, a: nat, b: nat) {
    if e >= 0 then num * b * Pow2(e) == den * a else num * b == den * a * Pow2(-e)
  }

  lemma Double3(x: int, y: int, p: int)
    ensures 2 * x * y == 2 * (x * y)
    ensures x * (2 * p) == 2 * (x * p)
    ensures 2 * x * p == 2 * (x * p)
  {
  }

  lemma HalveRatio(num: nat, den: nat, e: int, a: nat, b: nat)
    requires Ratio(num, den, e, a, b)
    ensures Ratio(num, 2 * den, e + 1, a, b)
  {
    Double3(den, a, 1);
    if e >= 0 {
      Double3(num * b, 1, Pow2(e));
      assert Pow2(e + 1) == 2 * Pow2(e);
    } else {
      Double3(den * a, 1, Pow2(-e - 1));
      assert Pow2(-e) == 2 * Pow2(-e - 1);
      assert Pow2(0) == 1;
    }
  }

  lemma DoubleRatio(num: nat, den: nat, e: int, a: nat, b: nat)
    requires Ratio(num, den, e, a, b)
    ensures Ratio(2 * num, den, e - 1, a, b)
  {
    Double3(num, b, 1);
    if e > 0 {
      Double3(num * b, 1, Pow2(e - 1));
      assert Pow2(e) == 2 * Pow2(e - 1);
    } else {
      Double3(den * a, 1, Pow2(-e));
      assert Pow2(1 - e) == 2 * Pow2(-e);
      assert Pow2(0) == 1;
    }
  }

  lemma {:induction false} ScaleDownRatio(limit: nat, num: nat, den: nat, e: int, a: nat, b: nat)
    requires limit > 1 && den > 0 && Ratio(num, den, e, a, b)
    ensures var (d, e') := ScaleDown(limit, num, den, e); Ratio(num, d, e', a, b)
    decreases num - den
  {
    if num >= den * limit {
      assert den * limit >= den * 2;
      HalveRatio(num, den, e, a, b);
      ScaleDownRatio(limit, num, 2 * den, e + 1, a, b);
    }
  }

  lemma {:induction false} ScaleUpRatio(limit: nat, num: nat, den: nat, e: int, a: nat, b: nat)
    requires limit > 1 && den > 0 && 0 < num < den * limit && Ratio(num, den, e, a, b)
    ensures var (n, e') := ScaleUp(limit, num, den, e); Ratio(n, den, e', a, b)
    decreases den * limit - num
  {
    if 2 * num < den * limit {
      DoubleRatio(num, den, e, a, b);
      ScaleUpRatio(limit, 2 * num, den, e - 1, a, b);
    }
  }

  ghost predicate Within(x: int, bound: int) {
    -bound <= x <= bound
  }

  lemma RoundDivError(num: nat, den: nat)
    requires den > 0
    ensures Within(2 * (RoundDiv(num, den) * den - num), den)
  {
    var q, r := num / den, num % den;
    assert num == q * den + r;
    assert (q + 1) * den == q * den + den;
  }

  lemma RoundDivNearest(num: nat, den: nat, k: nat)
    requires den > 0 && Within(2 * (k * den - num), den - 1)
    ensures RoundDiv(num, den) == k
  {
    RoundDivError(num, den);
    NearestUnique(num, den, RoundDiv(num, den), k);
  }

  lemma NearestUnique(num: nat, den: nat, q: int, k: int)
    requires den > 0 && Within(2 * (k * den - num), den - 1) && Within(2 * (q * den - num), den)
    ensures q == k
  {
    MulAdd(den, k, q - k);
    if q > k {
      MulAtLeast(den, q - k);
    } else if q < k {
      MulAtLeast(den, k - q);
    }
  }

  // ------------------------------------------------- hundredths as binary32

  /** The float that `(float)centi / 100.0f` yields: two roundings. */
  function CentiFloat(centi: int): Float {
    Scale(Single, FromInt(Single, centi), 1, 100)
  }

  /** Half an ulp of a quotient below 2^23 / 100 is less than half a hundredth. */
  lemma CentiClose(n: nat, d: nat, e: int, m: nat, c: nat)
    requires d > 0 && 0 < c < 0x80_0000 && Ratio(n, d, e, c, 100)
    requires d * Single <= 2 * n && Within(2 * (m * d - n), d)
    ensures e < 0 && Pow2(-e) > 100 && Within(2 * (c * Pow2(-e) - 100 * m), 100)
  {
    var half := 0x80_0000;
    assert n >= d * half;
    if e >= 0 {
      MulAtLeast(n * 100, Pow2(e));
      MulLess(d, c, half * 100);
      assert false;
    }
    var p := Pow2(-e);
    MulAssoc(d, c, p);
    CancelFactor(d, half * 100, c * p);
    CancelLess(c, 100, p);
    MulAdd(d, 100 * m, -(c * p));
    var x := c * p - 100 * m;
    assert d * x == n * 100 - m * d * 100;
    CancelFactor(d, x, 50);
    CancelFactor(d, -x, 50);
  }

  lemma CancelFactor(d: int, x: int, bound: int)
    requires d > 0 && d * x <= d * bound
    ensures x <= bound
  {
  }

  lemma CancelLess(d: int, x: int, y: int)
    requires d > 0 && d * x < d * y
    ensures x < y
  {
  }

  lemma RatioOfScale(f: Float, c: nat) returns (num: nat, den: nat)
    requires IsInteger(f, c)
    ensures den > 0 && Scale(Single, f, 1, 100) == Round(Single, num, den)
    ensures Ratio(num, den, 0, c, 100)
  {
    assert Pow2(0) == 1;
    if f.exponent >= 0 {
      num, den := f.mantissa * Pow2(f.exponent) * 1, 100;
    } else {
      num, den := f.mantissa * 1, 100 * Pow2(-f.exponent);
      MulAssoc(100, Pow2(-f.exponent), c);
    }
  }

  lemma CentiExactPositive(c: nat)
    requires 0 < c < 0x80_0000
    ensures Hundredths(CentiFloat(c)) == c
  {
    RoundExact(Single, c, 1, c, 0);
    var num, den := RatioOfScale(FromInt(Single, c), c);
    var (d, up) := ScaleDown(Single, num, den, 0);
    ScaleDownRatio(Single, num, den, 0, c, 100);
    assert num > 0;
    var (n, e) := ScaleUp(Single, num, d, up);
    ScaleUpRatio(Single, num, d, up, c, 100);
    var m := RoundDiv(n, d);
    RoundDivError(n, d);
    CentiClose(n, d, e, m, c);
    var p := Pow2(-e);
    if m == Single {
      var q := Pow2(-e - 1);
      assert p == 2 * q && 100 * m == 2 * (100 * (m / 2)) && c * p == 2 * (c * q) by {
        Double3(c, 1, q);
      }
      assert Pow2(0) == 1;
      assert CentiFloat(c) == Float(false, m / 2, e + 1);
      RoundDivNearest(100 * (m / 2), q, c);
    } else {
      RoundDivNearest(100 * m, p, c);
    }
  }

  /** Rounding a binary32 hundredth to two decimals gives back the hundredths. */
  lemma CentiExact(centi: int)
    requires -0x80_0000 < centi < 0x80_0000
    ensures Hundredths(CentiFloat(centi)) == centi
  {
    if centi > 0 {
      CentiExactPositive(centi);
    } else if centi < 0 {
      CentiExactPositive(-centi);
      assert CentiFloat(centi) == CentiFloat(-centi).(negative := true);
    } else {
      assert Pow2(0) == 1;
    }
  }

  // --------------------------------------------------------- ranges of Round

  lemma {:induction false} Pow2Mono(a: nat, b: nat)
    requires a <= b
    ensures Pow2(a) <= Pow2(b)
  {
    Pow2Add(a, b - a);
    MulAtLeast(Pow2(a), Pow2(b - a));
  }

  lemma {:induction false} ScaleDownRange(limit: nat, num: nat, den: nat, e: int, j: nat)
    requires limit > 1 && den > 0 && num < den * limit * Pow2(j)
    ensures var (d, e') := ScaleDown(limit, num, den, e);
            e <= e' <= e + j && ((d == den && e' == e) || d * limit <= 2 * num)
    decreases num - den
  {
    assert Pow2(0) == 1;
    if num >= den * limit {
      assert den * limit >= den * 2;
      Double3(den, limit, 1);
      Double3(den * limit, 1, Pow2(j - 1));
      ScaleDownRange(limit, num, 2 * den, e + 1, j - 1);
    }
  }

  lemma {:induction false} ScaleUpRange(limit: nat, num: nat, den: nat, e: int, j: nat)
    requires limit > 1 && den > 0 && 0 < num < den * limit <= 2 * num * Pow2(j)
    ensures e - j <= ScaleUp(limit, num, den, e).1 <= e
    decreases den * limit - num
  {
    assert Pow2(0) == 1;
    if 2 * num < den * limit {
      Double3(2 * num, 1, Pow2(j - 1));
      ScaleUpRange(limit, 2 * num, den, e - 1, j - 1);
    }
  }

  lemma RoundRange(limit: nat, num: nat, den: nat, down: nat, up: nat)
    requires limit > 1 && limit % 2 == 0 && den > 0 && num > 0
    requires num < den * limit * Pow2(down) && den * limit <= 2 * num * Pow2(up)
    ensures var f := Round(limit, num, den);
            limit / 2 <= f.mantissa < limit && 0 - up <= f.exponent <= down + 1
  {
    var (d, e) := ScaleDown(limit, num, den, 0);
    ScaleDownRange(limit, num, den, 0, down);
    var (n, e') := ScaleUp(limit, num, d, e);
    if d == den && e == 0 {
      ScaleUpRange(limit, num, d, e, up);
    } else {
      assert Pow2(0) == 1;
      ScaleUpRange(limit, num, d, e, 0);
    }
    MantissaRange(limit, n, d);
  }

  lemma MantissaRange(limit: nat, n: nat, d: nat)
    requires d > 0 && limit % 2 == 0 && n < d * limit <= 2 * n
    ensures limit / 2 <= RoundDiv(n, d) <= limit
  {
    var m, half := RoundDiv(n, d), limit / 2;
    RoundDivError(n, d);
    assert d * limit == 2 * (d * half);
    if m < half {
      MulAdd(d, m, half - m);
      MulAtLeast(d, half - m);
    } else if m > limit {
      MulAdd(d, limit, m - limit);
      MulAtLeast(d, m - limit);
    }
  }

  lemma SomePowers()
    ensures Pow2(8) == 0x100 && Pow2(9) == 0x200 && Pow2(23) == 0x80_0000 && Pow2(30) == 0x4000_0000
  {
    assert Pow2(4) == 16;
    Pow2Add(4, 4);
    Pow2Add(8, 1);
    Pow2Add(8, 8);
    Pow2Add(16, 4);
    Pow2Add(20, 3);
    assert Pow2(3) == 8 && Pow2(1) == 2;
    Pow2Add(23, 4);
    Pow2Add(27, 3);
  }

  lemma PositiveCentiIsSingle(c: nat)
    requires 0 < c <= 0x8000_0000
    ensures var r := Scale(Single, Round(Single, c, 1), 1, 100);
            0x80_0000 <= r.mantissa < Single && -30 <= r.exponent <= 10
  {
    SomePowers();
    RoundRange(Single, c, 1, 8, 23);
    HundredthRange(Round(Single, c, 1));
  }

  /** Every value the encoder computes is an ordinary binary32 number. */
  lemma CentiIsSingle(centi: int)
    requires -0x8000_0000 <= centi < 0x8000_0000
    ensures IsSingle(CentiFloat(centi).(negative := false))
    ensures centi != 0 ==> CentiFloat(centi).mantissa != 0
    ensures CentiFloat(centi).negative <==> centi < 0
  {
    assert Pow2(0) == 1;
    if centi != 0 { PositiveCentiIsSingle(if centi > 0 then centi else -centi); }
  }

  lemma HundredthRange(f: Float)
    requires 0x80_0000 <= f.mantissa < Single && -23 <= f.exponent <= 9
    ensures var r := Scale(Single, f, 1, 100); 0x80_0000 <= r.mantissa < Single && -30 <= r.exponent <= 10
  {
    assert Pow2(0) == 1;
    SomePowers();
    if f.exponent >= 0 {
      Pow2Mono(f.exponent, 9);
      MulAtLeast(f.mantissa, Pow2(f.exponent));
      ProductBound(f.mantissa, Pow2(f.exponent), Single, 0x200);
      RoundRange(Single, f.mantissa * Pow2(f.exponent) * 1, 100, 9, 30);
    } else {
      Pow2Mono(-f.exponent, 23);
      RoundRange(Single, f.mantissa * 1, 100 * Pow2(-f.exponent), 0, 30);
    }
  }

  lemma ProductBound(x: nat, y: nat, a: nat, b: nat)
    requires x <= a && y <= b
    ensures x * y <= a * b
  {
    assert x * y <= x * b;
  }

  // -------------------------------------------------------- bounds of Round

  lemma {:induction false} ScaleDownKeeps(limit: nat, num: nat, den: nat, e: int)
    requires limit > 1 && den > 0
    ensures var (d, e') := ScaleDown(limit, num, den, e);
            e' >= e && (e' == e ==> d == den) && (e' > e ==> num >= den * limit)
    decreases num - den
  {
    if num >= den * limit {
      assert den * limit >= den * 2;
      ScaleDownKeeps(limit, num, 2 * den, e + 1);
    }
  }

  lemma {:induction false} ScaleUpKeeps(limit: nat, num: nat, den: nat, e: int)
    requires limit > 1 && den > 0 && 0 < num < den * limit
    ensures var (n, e') := ScaleUp(limit, num, den, e); e' <= e && n == num * Pow2(e - e')
    decreases den * limit - num
  {
    assert Pow2(0) == 1;
    if 2 * num < den * limit {
      ScaleUpKeeps(limit, 2 * num, den, e - 1);
      var (n, e') := ScaleUp(limit, 2 * num, den, e - 1);
      Double3(num, 1, Pow2(e - 1 - e'));
    }
  }

  lemma RoundDivAtLeast(num: nat, den: nat, k: nat)
    requires den > 0 && num >= den * k
    ensures RoundDiv(num, den) >= k
  {
    QuotientAtLeast(num, den, k);
  }

  lemma QuotientAtLeast(num: nat, den: nat, k: nat)
    requires den > 0 && num >= den * k
    ensures num / den >= k
  {
    var q := num / den;
    assert num == den * q + num % den;
    if q < k { MulAdd(den, q + 1, k - q - 1); MulAdd(den, q, 1); }
  }

  /** The carry of a rounded mantissa changes nothing. */
  lemma CarryKeepsValue(m: nat, e: int)
    requires m % 2 == 0
    ensures Truncate(Float(false, m / 2, e + 1)) == Truncate(Float(false, m, e))
  {
    assert Pow2(0) == 1;
    if e >= 0 {
      Double3(m / 2, 1, Pow2(e));
    } else if e == -1 {
      assert Pow2(1) == 2;
    } else {
      HalveBoth(m / 2, Pow2(-e - 1));
    }
  }

  lemma HalveBoth(x: nat, d: nat)
    requires d > 0
    ensures Quotient(x, d) == Quotient(2 * x, 2 * d)
  {
    var q, r := x / d, x % d;
    assert x == d * q + r;
    Double3(d, q, 1);
    DivModUnique(2 * x, 2 * d, q, 2 * r);
  }

  /** The result of Round, before the carry. */
  lemma RoundSteps(limit: nat, num: nat, den: nat) returns (d: nat, up: int, n: nat, e: int, m: nat)
    requires limit > 1 && limit % 2 == 0 && den > 0 && num > 0
    ensures d > 0 && (d, up) == ScaleDown(limit, num, den, 0) && num < d * limit
    ensures (n, e) == ScaleUp(limit, num, d, up) && m == RoundDiv(n, d) && limit / 2 <= m <= limit
    ensures Truncate(Round(limit, num, den)) == Truncate(Float(false, m, e))
  {
    var r := ScaleDown(limit, num, den, 0);
    d, up := r.0, r.1;
    var r' := ScaleUp(limit, num, d, up);
    n, e := r'.0, r'.1;
    m := RoundDiv(n, d);
    MantissaRange(limit, n, d);
    if m == limit { CarryKeepsValue(m, e); }
  }

  /** Rounding does not go below an integer that is represented exactly. */
  lemma RoundAtLeast(limit: nat, num: nat, den: nat, k: nat)
    requires limit > 1 && limit % 2 == 0 && den > 0 && k <= limit && num >= den * k
    ensures Truncate(Round(limit, num, den)) >= k
  {
    if num > 0 {
      var d, up, n, e, m := RoundSteps(limit, num, den);
      ScaleDownKeeps(limit, num, den, 0);
      if up > 0 {
        ScaledDownIsFar(limit, num, den);
        assert Pow2(1) == 2;
        Pow2Mono(1, e);
        ProductBound(limit / 2, 2, m, Pow2(e));
      } else {
        ScaleUpKeeps(limit, num, den, 0);
        UnscaledAtLeast(num, den, k, Pow2(-e));
        assert Pow2(0) == 1;
        if e < 0 { QuotientAtLeast(m, Pow2(-e), k); }
      }
    } else if k > 0 {
      MulAtLeast(den, k);
    }
  }

  lemma ScaledDownIsFar(limit: nat, num: nat, den: nat)
    requires limit > 1 && den > 0 && num > 0 && ScaleDown(limit, num, den, 0).1 > 0
    ensures var (d, up) := ScaleDown(limit, num, den, 0); ScaleUp(limit, num, d, up) == (num, up)
  {
    ScaleDownFar(limit, num, den, 0);
  }

  lemma {:induction false} ScaleDownFar(limit: nat, num: nat, den: nat, e: int)
    requires limit > 1 && den > 0
    ensures var (d, e') := ScaleDown(limit, num, den, e); e' > e ==> d * limit <= 2 * num
    decreases num - den
  {
    if num >= den * limit {
      assert den * limit >= den * 2;
      Double3(den, limit, 1);
      ScaleDownKeeps(limit, num, 2 * den, e + 1);
      ScaleDownFar(limit, num, 2 * den, e + 1);
    }
  }

  lemma UnscaledAtLeast(num: nat, den: nat, k: nat, p: nat)
    requires den > 0 && num >= den * k
    ensures RoundDiv(num * p, den) >= k * p
  {
    ProductBound(den * k, p, num, p);
    MulAssoc(den, k, p);
    RoundDivAtLeast(num * p, den, k * p);
  }

  /** Rounding stays within a power of two times the limit. */
  lemma RoundAtMost(limit: nat, num: nat, den: nat, down: nat)
    requires limit > 1 && limit % 2 == 0 && den > 0 && num < den * limit * Pow2(down)
    ensures Truncate(Round(limit, num, den)) <= limit * Pow2(down)
  {
    if num > 0 {
      var d, up, n, e, m := RoundSteps(limit, num, den);
      ScaleDownRange(limit, num, den, 0, down);
      ScaleUpKeeps(limit, num, d, up);
      if e >= 0 {
        Pow2Mono(e, down);
        ProductBound(m, Pow2(e), limit, Pow2(down));
      } else {
        MulAtLeast(limit, Pow2(down));
        QuotientAtMost(m, Pow2(-e));
      }
    }
  }

  lemma QuotientAtMost(n: nat, d: nat)
    requires d > 0
    ensures Quotient(n, d) <= n
  {
    MulAtLeast(n / d, d);
    assert n == n / d * d + n % d;
  }

  lemma RoundDivBelow(num: nat, den: nat, k: nat)
    requires den > 0 && num <= den * k
    ensures RoundDiv(num, den) <= k
  {
    var q := num / den;
    assert num == den * q + num % den;
    if q >= k { MulAdd(den, k, q - k); MulAtLeast(q - k, den); }
  }

  /** Without scaling down, the mantissa is a rounded multiple of the quotient. */
  lemma UnscaledSteps(limit: nat, num: nat, den: nat) returns (s: nat, m: nat)
    requires limit > 1 && limit % 2 == 0 && den > 0 && 0 < num < den * limit
    ensures m == RoundDiv(num * Pow2(s), den) && m <= limit && den * limit <= 2 * (num * Pow2(s))
    ensures Round(limit, num, den) == if m == limit then Float(false, m / 2, 1 - s) else Float(false, m, 0 - s)
  {
    var d, up, n, e, m' := RoundSteps(limit, num, den);
    ScaleDownKeeps(limit, num, den, 0);
    ScaleUpKeeps(limit, num, den, 0);
    s, m := 0 - e, m';
  }

  lemma Halves(k: nat, s: nat, t: nat, half: nat)
    requires s > 0 && 2 * half * Pow2(t) <= k * Pow2(s)
    ensures half * Pow2(t) <= k * Pow2(s - 1)
  {
    MulAssoc(2, half, Pow2(t));
    Double3(k, 1, Pow2(s - 1));
    assert k * Pow2(s) == 2 * (k * Pow2(s - 1));
  }

  /** Rounding does not exceed a number k / 2^t that is represented exactly. */
  lemma RoundBelow(limit: nat, num: nat, den: nat, k: nat, t: nat)
    requires limit > 1 && limit % 2 == 0 && den > 0 && k < limit && num * Pow2(t) <= den * k
    ensures var f := Round(limit, num, den);
            f.exponent <= 0 && f.mantissa * Pow2(t) <= k * Pow2(0 - f.exponent)
  {
    if num > 0 {
      UnscaledBound(limit, num, den, k, t);
      var s, m := UnscaledSteps(limit, num, den);
      FineEnough(limit, num, den, k, t, s);
      Pow2Add(t, s - t);
      MantissaBelow(num, den, k, Pow2(t), Pow2(s - t), m);
      MulAtLeast(m, Pow2(t));
      assert Pow2(0) == 1;
      if m == limit && s > 0 { Halves(k, s, t, m / 2); }
    }
  }

  lemma UnscaledBound(limit: nat, num: nat, den: nat, k: nat, t: nat)
    requires den > 0 && k < limit && num * Pow2(t) <= den * k
    ensures num < den * limit
  {
    MulAtLeast(num, Pow2(t));
    MulAdd(den, k, limit - k);
    MulAtLeast(limit - k, den);
  }

  /** The grid of the result contains k / 2^t. */
  lemma FineEnough(limit: nat, num: nat, den: nat, k: nat, t: nat, s: nat)
    requires den > 0 && k < limit && num * Pow2(t) <= den * k && den * limit <= 2 * (num * Pow2(s))
    ensures s >= t
  {
    MulLess(den, k, limit);
    if s < t { DoublePower(num, s, t); }
  }

  lemma DoublePower(num: nat, s: nat, t: nat)
    requires s < t
    ensures 2 * (num * Pow2(s)) <= num * Pow2(t)
  {
    Pow2Mono(s + 1, t);
    Double3(num, 1, Pow2(s));
    ProductBound(num, Pow2(s + 1), num, Pow2(t));
  }

  /** Here p is 2^t, and p * r the power of two the numerator was scaled by. */
  lemma MantissaBelow(num: nat, den: nat, k: nat, p: nat, r: nat, m: nat)
    requires den > 0 && num * p <= den * k && m == RoundDiv(num * (p * r), den)
    ensures m * p <= k * (p * r)
  {
    MulAssoc(num, p, r);
    ProductBound(num * p, r, den * k, r);
    MulAssoc(den, k, r);
    RoundDivBelow(num * (p * r), den, k * r);
    ProductBound(m, p, k * r, p);
    MulAssoc(k, r, p);
    MulAssoc(k, p, r);
  }
}

/** What becomes of a number of milliseconds on its way through binary64 seconds,
    a datetime and binary64 nanoseconds: until the year 2106 the datetime shows
    exactly these milliseconds, and the database key is less than a microsecond
    off, so that different milliseconds have different keys in the same order. */
module MillisecondKeys {
  import opened Common
  import opened Floating
  import opened Rounding
  import opened UnixTime

  /** Milliseconds up to 2^32 seconds. */
  const Limit: nat := 1000 * 0x1_0000_0000

  predicate InRange(value: nat) {
    MillisecondThreshold < value < Limit
  }

  // ---------------------------------------------------------------- arithmetic

  ghost predicate Within(x: int, y: int, c: int) {
    -c <= x - y <= c
  }

  lemma Cancel(a: nat, x: int, y: int)
    requires a > 0 && a * x <= a * y
    ensures x <= y
  {
    var d := x - y;
    assert a * d == a * x - a * y;
    if d > 0 { TimesMore(a, 1, d); }
  }

  lemma TimesMore(a: nat, b: nat, c: nat)
    requires b <= c
    ensures a * b <= a * c && b * a <= c * a
  {
  }

  lemma {:induction false} PowAtLeast(k: nat, n: nat)
    requires k >= n
    ensures Pow2(k) >= Pow2(n)
  {
    if k > n { PowAtLeast(k - 1, n); }
  }

  lemma PowTwenty()
    ensures Pow2(20) == 0x10_0000 && Pow2(31) == 0x8000_0000
  {
    PowTen();
    PowEleven();
    Pow2Add(10, 10);
    Pow2Add(20, 11);
  }

  /** An integer off by less than half the denominator is the rounded quotient. */
  lemma RoundDivIs(num: nat, den: nat, n: nat)
    requires den > 0 && 0 - den < 2 * (num - n * den) < den
    ensures RoundDiv(num, den) == n
  {
    if num >= n * den {
      DivModUnique(num, den, n, num - n * den);
    } else {
      assert n > 0 && (n - 1) * den == n * den - den;
      DivModUnique(num, den, n - 1, num - (n - 1) * den);
    }
  }

  // ------------------------------------------------------------------- seconds

  lemma SecondsScale(value: nat, a: nat, e: int)
    requires InRange(value) && a > 0
    requires 1000 * a * Above(e) * Double <= 2 * (value * a * Above(-e))
    ensures e <= -21
  {
    PowTwenty();
    assert Pow2(21) == 2 * Pow2(20) && Pow2(0) == 1;
    if e > -21 {
      if e < 0 { PowAtLeast(20, -e); }
      assert Above(e) >= 1 && Above(-e) <= 0x10_0000;
      ScaleTooSmall(value, a, Above(e), Above(-e));
    }
  }

  lemma ScaleTooSmall(value: nat, a: nat, down: nat, up: nat)
    requires value < Limit && a > 0 && down >= 1 && up <= 0x10_0000
    ensures 1000 * a * down * Double > 2 * (value * a * up)
  {
    TimesMore(1000 * a, 1, down);
    TimesMore(1000 * a * down, Double, Double);
    assert 1000 * a * down * Double >= 1000 * a * Double by {
      TimesMore(Double, 1000 * a, 1000 * a * down);
    }
    assert value * a * up <= value * a * 0x10_0000 by { TimesMore(value * a, up, 0x10_0000); }
    assert value * a < Limit * a by { MulLess(a, value, Limit); }
  }

  /** A thousandth of the value, rounded: at least 20 binary places, and off by at
      most half of the last one. */
  lemma SecondsNear(value: nat, a: nat) returns (m: nat, e: int)
    requires InRange(value) && a > 0
    ensures Round(Double, value * a, 1000 * a) == Float(false, m, e) && e <= -20
    ensures Within(1000 * m, value * Pow2(-e), 500)
  {
    var q, e' := RoundIsNearest(Double, value * a, 1000 * a);
    SecondsScale(value, a, e');
    var unit := Pow2(-e');
    SecondsOff(value, a, unit, q);
    if q == Double {
      m, e := Double / 2, e' + 1;
      HalfUnit(value, unit, Pow2(-e));
    } else {
      m, e := q, e';
    }
  }

  lemma HalfUnit(value: nat, unit: nat, half: nat)
    requires unit == 2 * half
    ensures value * unit == 2 * (value * half)
  {
  }

  lemma SecondsOff(value: nat, a: nat, unit: nat, q: nat)
    requires a > 0 && NearestTo(value * a * unit, 1000 * a * 1, q)
    ensures Within(1000 * q, value * unit, 500)
  {
    assert value * a * unit == a * (value * unit) && q * (1000 * a * 1) == a * (1000 * q);
    var off := value * unit - 1000 * q;
    assert a * (2 * off) == 2 * (a * (value * unit) - a * (1000 * q));
    Cancel(a, 2 * off, 1000);
    Cancel(a, -2 * off, 1000);
  }

  // -------------------------------------------------------------- microseconds

  lemma ManyPlaces(den: nat, w: nat)
    requires den >= 0x10_0000 && w >= 0x8000_0000
    ensures den + 1_000_000 * w < den * w
  {
    var d := den - 1_000_000;
    assert den * w == d * w + 1_000_000 * w;
    TimesMore(d, 0x8000_0000, w);
  }

  lemma FractionScale(num: nat, den: nat, e: int)
    requires den > 0 && num <= 1_000_000 * den
    requires den * Above(e) * Double <= 2 * (num * Above(-e))
    ensures e <= -31
  {
    PowTwenty();
    assert Pow2(0) == 1;
    if e > -31 {
      if e < 0 { PowAtLeast(31, -e); }
      assert Above(e) >= 1 && Above(-e) <= 0x8000_0000;
      TimesMore(den, 1, Above(e));
      TimesMore(Double, den, den * Above(e));
      TimesMore(num, Above(-e), 0x8000_0000);
    }
  }

  /** What is close to an integer rounds to it, even after the product was rounded. */
  lemma NearInteger(num: nat, den: nat, n: nat)
    requires den >= 0x10_0000 && num <= 1_000_000 * den && Within(num, n * den, 500_000)
    ensures Nearest(Round(Double, num, den)) == n
  {
    assert Pow2(0) == 1;
    if num == 0 {
      if n > 0 { TimesMore(den, 1, n); }
      assert Round(Double, num, den) == Zero;
    } else {
      var q, e := RoundIsNearest(Double, num, den);
      FractionScale(num, den, e);
      var w := Pow2(-e);
      PowTwenty();
      PowAtLeast(-e, 31);
      StaysNear(num, den, n, q, w);
      if q == Double {
        var half := Pow2(-e - 1);
        assert w == 2 * half && n * w == 2 * (n * half);
        RoundDivIs(Double / 2, half, n);
      } else {
        RoundDivIs(q, w, n);
      }
    }
  }

  lemma StaysNear(num: nat, den: nat, n: nat, q: nat, w: nat)
    requires den >= 0x10_0000 && w >= 0x8000_0000 && Within(num, n * den, 500_000)
    requires NearestTo(num * w, den * 1, q)
    ensures 0 - w < 2 * (q - n * w) < w
  {
    var off, far := q - n * w, num - n * den;
    Regrouped(num, den, n, q, w);
    TimesFar(w, far);
    ManyPlaces(den, w);
    if 2 * off >= w { TimesMore(den, w, 2 * off); }
    if 0 - 2 * off >= w { TimesMore(den, w, 0 - 2 * off); }
  }

  lemma Regrouped(num: nat, den: nat, n: nat, q: nat, w: nat)
    ensures den * (q - n * w) == (q * den - num * w) + w * (num - n * den)
    ensures den * (2 * (q - n * w)) == 2 * (den * (q - n * w))
  {
    assert den * (q - n * w) == den * q - den * (n * w);
    assert w * (num - n * den) == w * num - w * (n * den);
    MulAssoc(den, n, w);
    MulAssoc(w, n, den);
  }

  lemma TimesFar(w: nat, far: int)
    requires -500_000 <= far <= 500_000
    ensures -500_000 * w <= w * far <= 500_000 * w
  {
    assert w * (far + 500_000) >= 0 && w * (500_000 - far) >= 0;
  }

  lemma SecondsOf(value: nat) returns (m: nat, e: int)
    requires InRange(value)
    ensures Seconds(value) == Float(false, m, e) && e <= -20 && Within(1000 * m, value * Pow2(-e), 500)
  {
    var f := FromInt(Double, value);
    assert Pow2(0) == 1;
    RoundExact(Double, value, 1, value, 0);
    ThousandthIs(f, value);
    m, e := SecondsNear(value, Above(-f.exponent));
  }

  lemma ThousandthIs(f: Float, value: nat)
    requires IsInteger(f, value)
    ensures Scale(Double, f, 1, 1000) == Round(Double, value * Above(-f.exponent), 1000 * Above(-f.exponent))
  {
    assert Pow2(0) == 1;
    assert f.exponent < 0 ==> f.mantissa * 1 == value * Above(-f.exponent);
  }

  /** The microseconds of the fraction of a second. */
  lemma FractionIs(value: nat, m: nat, unit: nat) returns (n: nat)
    requires unit >= 0x10_0000 && Within(1000 * m, value * unit, 500)
    ensures n == 1000 * value - m / unit * 1_000_000
    ensures Within(m % unit * 1_000_000, n * unit, 500_000) && m % unit * 1_000_000 <= 1_000_000 * unit
  {
    var whole, part := m / unit, m % unit;
    assert m == whole * unit + part;
    var rest := 1000 * value - whole * 1_000_000;
    assert rest * unit == 1000 * (value * unit) - 1_000_000 * (whole * unit);
    assert part * 1_000_000 - rest * unit == 1000 * (1000 * m - value * unit);
    Cancel(unit, -2 * rest, 1);
    n := rest;
  }

  lemma MicrosecondsAre(value: nat, m: nat, e: int)
    requires e <= -20 && Within(1000 * m, value * Pow2(-e), 500)
    ensures Microseconds(Float(false, m, e)) == 1000 * value
  {
    var unit := Pow2(-e);
    PowTwenty();
    PowAtLeast(-e, 20);
    var n := FractionIs(value, m, unit);
    NearInteger(m % unit * 1_000_000, unit, n);
    assert Scale(Double, Float(false, m % unit, e), 1_000_000, 1) == Round(Double, m % unit * 1_000_000, 1 * unit);
  }

  /** The datetime shows exactly these milliseconds. */
  lemma MillisecondsAreKept(value: nat)
    requires InRange(value)
    ensures Microseconds(Seconds(value)) == 1000 * value
  {
    var m, e := SecondsOf(value);
    MicrosecondsAre(value, m, e);
  }

  // --------------------------------------------------------------- nanoseconds

  lemma NanosScale(value: nat, m: nat, unit: nat, e: int)
    requires InRange(value) && unit >= 0x10_0000 && Within(1000 * m, value * unit, 500)
    requires m * 1_000_000_000 * Above(-e) < unit * Above(e) * Double <= 2 * (m * 1_000_000_000 * Above(-e))
    ensures e >= 0 && Pow2(e) <= 954
  {
    var num := m * 1_000_000_000;
    assert Pow2(0) == 1;
    assert value * unit >= 10_000_000_001 * unit by { TimesMore(unit, 10_000_000_001, value); }
    if e < 0 {
      assert Above(-e) == 2 * Pow2(-e - 1);
      TimesMore(num, 2, Above(-e));
    } else {
      assert value * unit <= Limit * unit by { TimesMore(unit, value, Limit); }
      if Pow2(e) >= 955 { TimesMore(unit, 955, Pow2(e)); }
    }
  }

  lemma NanosOff(value: nat, m: nat, unit: nat, p: nat, q: nat)
    requires unit >= 0x10_0000 && p <= 954 && Within(1000 * m, value * unit, 500)
    requires NearestTo(m * 1_000_000_000 * 1, unit * p, q)
    ensures Within(q * p, 1_000_000 * value, 999)
  {
    var off := q * p - 1_000_000 * value;
    MulAssoc(q, p, unit);
    assert q * (unit * p) == unit * (q * p) by { MulAssoc(q, unit, p); }
    assert unit * off == unit * (q * p) - 1_000_000 * (value * unit);
    TimesMore(unit, p, 954);
    OffByUnits(unit, off);
  }

  lemma OffByUnits(unit: nat, off: int)
    requires unit >= 0x10_0000 && Within(unit * off, 0, 477 * unit + 500_000_000)
    ensures Within(off, 0, 999)
  {
    Cancel(unit, off, 999);
    Cancel(unit, 0 - off, 999);
  }

  lemma NanosAre(value: nat, m: nat, e: int)
    requires InRange(value) && e <= -20 && Within(1000 * m, value * Pow2(-e), 500)
    ensures Within(Truncate(Scale(Double, Float(false, m, e), 1_000_000_000, 1)), 1_000_000 * value, 999)
  {
    var unit := Pow2(-e);
    PowTwenty();
    PowAtLeast(-e, 20);
    TimesMore(unit, 1, value);
    var q, e' := RoundIsNearest(Double, m * 1_000_000_000, unit);
    NanosScale(value, m, unit, e');
    NanosOff(value, m, unit, Pow2(e'), q);
    assert Scale(Double, Float(false, m, e), 1_000_000_000, 1) == Round(Double, m * 1_000_000_000, 1 * unit);
    TruncateIs(q, e');
  }

  lemma TruncateIs(q: nat, e: int)
    requires e >= 0
    ensures Truncate(if q == Double then Float(false, Double / 2, e + 1) else Float(false, q, e)) == q * Pow2(e)
  {
    assert Pow2(e + 1) == 2 * Pow2(e);
    MulAssoc(Double / 2, 2, Pow2(e));
  }

  /** The database key is less than a microsecond off. */
  lemma KeyIsNear(value: nat)
    requires InRange(value)
    ensures TimestampNs(value).Ok? && Within(TimestampNs(value).value, 1_000_000 * value, 999)
  {
    MillisecondsAreKept(value);
    var m, e := SecondsNear(value, 1000);
    NanosAre(value, m, e);
  }

  /** Different milliseconds have different keys, in the order of time. */
  lemma KeysAreInOrder(earlier: nat, later: nat)
    requires InRange(earlier) && InRange(later) && earlier < later
    ensures TimestampNs(earlier).Ok? && TimestampNs(later).Ok?
    ensures TimestampNs(earlier).value < TimestampNs(later).value
  {
    KeyIsNear(earlier);
    KeyIsNear(later);
  }
}

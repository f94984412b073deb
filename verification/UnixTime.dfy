/** parse_timestamp and timestamp_ns of the ingest service for Unix times: the
    value passes through binary64 seconds and a datetime with whole
    microseconds before it becomes the nanoseconds of the database key. */
module UnixTime {
  import opened Common
  import opened Floating
  import FD = FieldDecoder

  /** Values above this are milliseconds. */
  const MillisecondThreshold := 10_000_000_000

  /** The first second of the year 10000, which datetime cannot represent. */
  const EndOfTime := 253_402_300_800

  /** `float(value) / 1000` or `float(value)`. */
  function Seconds(value: nat): Float {
    var f := FromInt(Double, value);
    if value > MillisecondThreshold then Scale(Double, f, 1, 1000) else f
  }

  /** The nearest integer, ties to even. */
  function Nearest(f: Float): nat
    requires !f.negative
  {
    if f.exponent >= 0 then Truncate(f) else RoundDiv(f.mantissa, Pow2(-f.exponent))
  }

  /** fromtimestamp: the fraction times 1e6, rounded half to even, with carry. */
  function Microseconds(seconds: Float): nat
    requires !seconds.negative
  {
    var whole: nat := Truncate(seconds);
    if seconds.exponent >= 0 then whole * 1_000_000
    else
      var unit := Pow2(-seconds.exponent);
      var fraction := Float(false, seconds.mantissa % unit, seconds.exponent);
      var scaled := Scale(Double, fraction, 1_000_000, 1);
      whole * 1_000_000 + Nearest(scaled)
  }

  /** From this second on the year does not fit the C int of struct tm. */
  const EndOfYears := 67_768_036_191_676_800

  /** A ValueError when datetime refuses the year, an OSError when gmtime cannot express it. */
  function TimestampNs(value: nat): Result<nat, FD.Error> {
    var micros := Microseconds(Seconds(value));
    if micros >= EndOfYears * 1_000_000 then Err(FD.OsError)
    else if micros >= EndOfTime * 1_000_000 then Err(FD.ValueError)
    else
      var seconds := Round(Double, micros, 1_000_000);
      var ns := Truncate(Scale(Double, seconds, 1_000_000_000, 1));
      Ok(ns)
  }

  /** Nothing is rounded when the nanoseconds k * 2^t have a mantissa that fits. */
  lemma WholeSecondsNs(value: nat, s: nat, k: nat, t: nat)
    requires IsInteger(Seconds(value), s) && s < EndOfTime
    requires s * 1_000_000_000 == k * Pow2(t) && k < Double
    ensures TimestampNs(value) == Ok(s * 1_000_000_000)
  {
    var f := Seconds(value);
    assert Pow2(0) == 1;
    TruncateInteger(f, s);
    WholeMicroseconds(f, s);
    RoundExact(Double, s * 1_000_000, 1_000_000, s, 0);
    var seconds := Round(Double, s * 1_000_000, 1_000_000);
    ScaleExact(Double, seconds, s, 1_000_000_000, 1, k, t);
    TruncateInteger(Scale(Double, seconds, 1_000_000_000, 1), s * 1_000_000_000);
  }

  // ------------------------------------------------------- what is exact

  /** n without its factors of two. */
  function OddPart(n: nat): (odd: nat)
    ensures odd <= n && (n > 0 ==> odd % 2 == 1)
  {
    if n == 0 then 0 else if n % 2 == 0 then OddPart(n / 2) else n
  }

  lemma OddPartDouble(n: nat)
    ensures OddPart(2 * n) == OddPart(n)
  {
    assert 2 * n / 2 == n;
  }

  lemma {:induction false} OddPartShift(n: nat, t: nat)
    ensures OddPart(n * Pow2(t)) == OddPart(n)
  {
    if t > 0 {
      OddPartShift(n, t - 1);
      OddPartDouble(n * Pow2(t - 1));
      Double3(n, 1, Pow2(t - 1));
    }
  }

  lemma {:induction false} Decompose(n: nat) returns (t: nat)
    ensures n == OddPart(n) * Pow2(t)
  {
    assert Pow2(0) == 1;
    t := 0;
    if n > 0 && n % 2 == 0 {
      t := Decompose(n / 2);
      Double3(OddPart(n), 1, Pow2(t));
      t := t + 1;
    }
  }

  lemma OddTimesOdd(a: nat, b: nat)
    ensures (2 * a + 1) * (2 * b + 1) == 2 * (2 * a * b + a + b) + 1
  {
  }

  lemma OddProduct(x: nat, y: nat)
    requires x % 2 == 1 && y % 2 == 1
    ensures x * y % 2 == 1
  {
    OddTimesOdd(x / 2, y / 2);
    assert x == 2 * (x / 2) + 1 && y == 2 * (y / 2) + 1;
  }

  lemma OddPartOfOdd(n: nat)
    requires n % 2 == 1
    ensures OddPart(n) == n
  {
  }

  lemma OddPartTimes(n: nat, odd: nat)
    requires odd % 2 == 1
    ensures OddPart(n * odd) == OddPart(n) * odd
  {
    if n > 0 {
      var o := OddPart(n);
      var t := Decompose(n);
      TimesShifted(n, o, Pow2(t), odd);
      OddProduct(o, odd);
      OddPartShift(o * odd, t);
      OddPartOfOdd(o * odd);
    }
  }

  lemma TimesShifted(n: nat, o: nat, p: nat, odd: nat)
    requires n == o * p
    ensures n * odd == o * odd * p
  {
    MulAssoc(o, p, odd);
  }

  lemma RoundedMantissa(limit: nat, num: nat, den: nat)
    requires limit > 1 && limit % 2 == 0 && den > 0
    ensures Round(limit, num, den).mantissa < limit
  {
    if num > 0 {
      var (d, e) := ScaleDown(limit, num, den, 0);
      var (n, e') := ScaleUp(limit, num, d, e);
      MantissaRange(limit, n, d);
    }
  }

  /** An integer read off a binary64 has no more than 53 significant bits. */
  lemma TruncatedIsShort(f: Float)
    requires !f.negative && f.mantissa < Double
    ensures OddPart(Truncate(f)) < Double
  {
    if f.exponent >= 0 { OddPartShift(f.mantissa, f.exponent); }
    else { QuotientAtMost(f.mantissa, Pow2(-f.exponent)); }
  }

  /** The nanoseconds of the second s need no more than 53 significant bits. */
  predicate Fits(s: nat) {
    OddPart(s) * 1_953_125 < Double
  }

  lemma OddPartOfNs(s: nat)
    ensures OddPart(s * 1_000_000_000) == OddPart(s) * 1_953_125
  {
    Pow2NineTwelve();
    OddPartShift(s * 1_953_125, 9);
    OddPartTimes(s, 1_953_125);
    assert s * 1_000_000_000 == s * 1_953_125 * Pow2(9);
  }

  /** Every second until one in the year 2116 fits. */
  lemma FitsUntil2116(s: nat)
    ensures s <= 4_611_686_018 ==> Fits(s)
    ensures !Fits(4_611_686_019)
  {
  }

  lemma Pow2NineTwelve()
    ensures Pow2(9) == 512 && Pow2(12) == 4096
  {
    assert Pow2(3) == 8;
    Pow2Add(3, 3);
    Pow2Add(6, 3);
    Pow2Add(9, 3);
  }

  lemma SecondsOfMs(s: nat)
    requires 10_000_000 < s < EndOfTime
    ensures IsInteger(Seconds(1000 * s), s)
  {
    assert Pow2(0) == 1;
    RoundExact(Double, 1000 * s, 1, 1000 * s, 0);
    ScaleExact(Double, FromInt(Double, 1000 * s), 1000 * s, 1, 1000, s, 0);
  }

  lemma NsWhenFitting(s: nat)
    requires 10_000_000 < s < EndOfTime && Fits(s)
    ensures TimestampNs(1000 * s) == Ok(s * 1_000_000_000)
  {
    SecondsOfMs(s);
    OddPartOfNs(s);
    var t := Decompose(s * 1_000_000_000);
    WholeSecondsNs(1000 * s, s, OddPart(s) * 1_953_125, t);
  }

  lemma NsIsShort(value: nat)
    requires TimestampNs(value).Ok?
    ensures OddPart(TimestampNs(value).value) < Double
  {
    var seconds := Round(Double, Microseconds(Seconds(value)), 1_000_000);
    ScaledMantissa(seconds);
    TruncatedIsShort(Scale(Double, seconds, 1_000_000_000, 1));
  }

  lemma ScaledMantissa(f: Float)
    ensures Scale(Double, f, 1_000_000_000, 1).mantissa < Double
  {
    if f.exponent >= 0 {
      RoundedMantissa(Double, f.mantissa * Pow2(f.exponent) * 1_000_000_000, 1);
    } else {
      RoundedMantissa(Double, f.mantissa * 1_000_000_000, 1 * Pow2(-f.exponent));
    }
  }

  lemma NsBelowThreshold(s: nat)
    requires s <= 10_000_000
    ensures TimestampNs(1000 * s) == Ok(1000 * s * 1_000_000_000)
  {
    assert Pow2(0) == 1;
    Pow2NineTwelve();
    RoundExact(Double, 1000 * s, 1, 1000 * s, 0);
    WholeSecondsNs(1000 * s, 1000 * s, s * 244_140_625, 12);
  }

  /** The firmware sends whole seconds as milliseconds. The key is exactly those
      seconds if and only if the milliseconds are zero, or above the threshold
      that separates them from seconds and short enough for binary64. */
  lemma KeyOfWholeSeconds(s: nat)
    requires s < EndOfTime
    ensures TimestampNs(1000 * s) == Ok(s * 1_000_000_000) <==> s == 0 || (s > 10_000_000 && Fits(s))
  {
    if s <= 10_000_000 {
      NsBelowThreshold(s);
    } else if Fits(s) {
      NsWhenFitting(s);
    } else {
      OddPartOfNs(s);
      if TimestampNs(1000 * s).Ok? { NsIsShort(1000 * s); }
    }
  }

  // ------------------------------------------------- which times are refused

  /** Scaling by 1/1000 keeps the order with respect to whole seconds. */
  lemma ThousandthBounds(f: Float, low: nat)
    requires !f.negative && f.mantissa < Double && low <= Double && Truncate(f) >= 1000 * low
    requires f.exponent >= 0 ==> f.mantissa * Pow2(f.exponent) <= TwoTo64
    ensures low <= Truncate(Scale(Double, f, 1, 1000)) <= 4 * Double
  {
    assert Pow2(2) == 4 && Pow2(0) == 1;
    if f.exponent >= 0 {
      RoundAtLeast(Double, f.mantissa * Pow2(f.exponent) * 1, 1000, low);
      RoundAtMost(Double, f.mantissa * Pow2(f.exponent) * 1, 1000, 2);
    } else {
      var d := Pow2(-f.exponent);
      ThousandsOf(f.mantissa, d, low);
      RoundAtLeast(Double, f.mantissa * 1, 1000 * d, low);
      MulAtLeast(Double, d);
      assert 1000 * d * Double * Pow2(0) == 1000 * (Double * d);
      RoundAtMost(Double, f.mantissa * 1, 1000 * d, 0);
    }
  }

  lemma ThousandsOf(n: nat, d: nat, low: nat)
    requires d > 0 && Quotient(n, d) >= 1000 * low
    ensures n >= 1000 * d * low
  {
    assert n == d * (n / d) + n % d;
    ProductBound(d, 1000 * low, d, n / d);
    MulAssoc(d, 1000, low);
  }

  /** The microseconds are those of the whole seconds and at most 2^53 + 1 more. */
  lemma MicrosecondsBounds(f: Float)
    requires !f.negative && f.mantissa < Double
    ensures Truncate(f) * 1_000_000 <= Microseconds(f) <= Truncate(f) * 1_000_000 + Double + 1
  {
    if f.exponent < 0 {
      var unit := Pow2(-f.exponent);
      var fraction := Float(false, f.mantissa % unit, f.exponent);
      ScaledFraction(fraction.mantissa, unit);
      var scaled := Round(Double, fraction.mantissa * 1_000_000, 1 * unit);
      assert Scale(Double, fraction, 1_000_000, 1) == scaled;
      RoundedMantissa(Double, fraction.mantissa * 1_000_000, 1 * unit);
      RoundAtMost(Double, fraction.mantissa * 1_000_000, 1 * unit, 0);
      assert Pow2(0) == 1;
      if scaled.exponent < 0 { RoundDivAtMost(scaled.mantissa, Pow2(-scaled.exponent)); }
    }
  }

  lemma ScaledFraction(n: nat, unit: nat)
    requires n < unit
    ensures n * 1_000_000 < 1 * unit * Double * Pow2(0)
  {
    assert Pow2(0) == 1;
    MulAssoc(unit, Double, 1);
  }

  lemma RoundDivAtMost(n: nat, d: nat)
    requires d > 0
    ensures RoundDiv(n, d) <= n + 1
  {
    QuotientAtMost(n, d);
  }

  /** A number of milliseconds from the year 10000 on that fits 64 bits is refused with a ValueError. */
  lemma LateIsRefused(value: nat)
    requires 1000 * EndOfTime <= value < TwoTo64
    ensures TimestampNs(value) == Err(FD.ValueError)
  {
    var f := FromInt(Double, value);
    assert Pow2(0) == 1;
    MsBounds(value);
    ThousandthBounds(f, EndOfTime);
    var seconds := Seconds(value);
    ThousandthMantissa(f);
    MicrosecondsBounds(seconds);
  }

  lemma MsBounds(value: nat)
    requires 1000 * EndOfTime <= value < TwoTo64
    ensures var f := FromInt(Double, value);
            && !f.negative && f.mantissa < Double && Truncate(f) >= 1000 * EndOfTime
            && (f.exponent >= 0 ==> f.mantissa * Pow2(f.exponent) <= TwoTo64)
  {
    PowEleven();
    RoundedMantissa(Double, value, 1);
    RoundAtLeast(Double, value, 1, 1000 * EndOfTime);
    RoundAtMost(Double, value, 1, 11);
  }

  /** gmtime can express whatever fits 64 bits. */
  lemma NeverOsError(value: nat)
    requires value < TwoTo64
    ensures TimestampNs(value) != Err(FD.OsError)
  {
    var f := FromInt(Double, value);
    PowEleven();
    assert Pow2(0) == 1;
    RoundedMantissa(Double, value, 1);
    if value > MillisecondThreshold {
      RoundAtMost(Double, value, 1, 11);
      ThousandthBounds(f, 0);
      ThousandthMantissa(f);
    } else {
      RoundAtMost(Double, value, 1, 0);
    }
    MicrosecondsBounds(Seconds(value));
  }

  lemma PowEleven()
    ensures Pow2(11) == 2048
  {
    Pow2NineTwelve();
    assert Pow2(12) == 2 * Pow2(11);
  }

  lemma ThousandthMantissa(f: Float)
    ensures Scale(Double, f, 1, 1000).mantissa < Double
  {
    if f.exponent >= 0 { RoundedMantissa(Double, f.mantissa * Pow2(f.exponent) * 1, 1000); }
    else { RoundedMantissa(Double, f.mantissa * 1, 1000 * Pow2(-f.exponent)); }
  }

  /** The last number below EndOfTime with ten binary places. */
  const LastPlaces: nat := 1024 * EndOfTime - 1

  lemma PowTen()
    ensures Pow2(10) == 1024
  {
    PowEleven();
    assert Pow2(11) == 2 * Pow2(10);
  }

  /** The quotient by 1000 of a number of milliseconds stays below the year 10000. */
  lemma SecondsBelow(value: nat)
    requires MillisecondThreshold < value < 1000 * EndOfTime
    ensures var f := Seconds(value);
            !f.negative && f.exponent <= 0 && f.mantissa * 1024 <= LastPlaces * Pow2(-f.exponent)
  {
    var f := FromInt(Double, value);
    PowTen();
    assert Pow2(0) == 1;
    RoundExact(Double, value, 1, value, 0);
    if f.exponent >= 0 {
      RoundBelow(Double, f.mantissa * Pow2(f.exponent) * 1, 1000, LastPlaces, 10);
    } else {
      ThousandthBelow(value, Pow2(-f.exponent));
      RoundBelow(Double, f.mantissa * 1, 1000 * Pow2(-f.exponent), LastPlaces, 10);
    }
  }

  lemma ThousandthBelow(value: nat, unit: nat)
    requires value < 1000 * EndOfTime
    ensures value * unit * 1024 <= 1000 * unit * LastPlaces
  {
    MulAssoc(value, unit, 1024);
    MulAssoc(1000, LastPlaces, unit);
    ProductBound(value * 1024, unit, 1000 * LastPlaces, unit);
  }

  lemma NearestBelow(f: Float, k: nat)
    requires !f.negative && f.exponent <= 0 && f.mantissa <= k * Pow2(-f.exponent)
    ensures Nearest(f) <= k
  {
    assert Pow2(0) == 1;
    if f.exponent < 0 { RoundDivBelow(f.mantissa, Pow2(-f.exponent), k); }
  }

  /** A fraction of at most k millionths rounds to at most k microseconds. */
  lemma FractionBelow(n: nat, unit: nat, k: nat)
    requires unit > 0 && k <= 1_000_000 && n * 1_000_000 <= unit * k
    ensures Nearest(Round(Double, n * 1_000_000, unit)) <= k
  {
    assert Pow2(0) == 1;
    RoundBelow(Double, n * 1_000_000, unit, k, 0);
    NearestBelow(Round(Double, n * 1_000_000, unit), k);
  }

  /** What is left of a second below the year 10000. */
  lemma LastFraction(mantissa: nat, unit: nat)
    requires unit > 0 && mantissa * 1024 <= LastPlaces * unit
    ensures var whole, n := mantissa / unit, mantissa % unit;
            whole <= EndOfTime - 1 && n * 1_000_000 <= unit * if whole == EndOfTime - 1 then 999_024 else 1_000_000
  {
    var whole, n := mantissa / unit, mantissa % unit;
    assert mantissa == unit * whole + n;
    WholeBelow(whole, n, unit);
    if whole == EndOfTime - 1 { LastSecond(n, unit); }
  }

  lemma WholeBelow(whole: nat, n: nat, unit: nat)
    requires unit > 0 && (unit * whole + n) * 1024 <= LastPlaces * unit
    ensures whole <= EndOfTime - 1
  {
    if whole >= EndOfTime { ProductBound(unit, EndOfTime, unit, whole); }
  }

  lemma LastSecond(n: nat, unit: nat)
    requires (unit * (EndOfTime - 1) + n) * 1024 <= LastPlaces * unit
    ensures n * 1_000_000 <= unit * 999_024
  {
  }

  lemma MicrosecondsBelow(f: Float)
    requires !f.negative && f.exponent <= 0 && f.mantissa * 1024 <= LastPlaces * Pow2(-f.exponent)
    ensures Microseconds(f) < EndOfTime * 1_000_000
  {
    var unit := Pow2(-f.exponent);
    assert Pow2(0) == 1;
    LastFraction(f.mantissa, unit);
    if f.exponent < 0 {
      var whole, n := f.mantissa / unit, f.mantissa % unit;
      assert Scale(Double, Float(false, n, f.exponent), 1_000_000, 1) == Round(Double, n * 1_000_000, unit);
      FractionBelow(n, unit, if whole == EndOfTime - 1 then 999_024 else 1_000_000);
    }
  }

  /** Every number of milliseconds before the year 10000 is accepted. */
  lemma EarlyIsAccepted(value: nat)
    requires value < 1000 * EndOfTime
    ensures TimestampNs(value).Ok?
  {
    if value <= MillisecondThreshold {
      assert Pow2(0) == 1;
      RoundExact(Double, value, 1, value, 0);
      WholeMicroseconds(Seconds(value), value);
    } else {
      SecondsBelow(value);
      MicrosecondsBelow(Seconds(value));
    }
  }

  lemma WholeMicroseconds(f: Float, s: nat)
    requires IsInteger(f, s)
    ensures Microseconds(f) == s * 1_000_000
  {
    TruncateInteger(f, s);
    assert Pow2(0) == 1;
    if f.exponent < 0 {
      assert Scale(Double, Float(false, 0, f.exponent), 1_000_000, 1) == Zero;
    }
  }
}

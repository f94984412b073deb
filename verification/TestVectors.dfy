/** The times and values of the messages in the ingest service's own tests, byte
    for byte as the firmware writes them. */
module TestVectors {
  import opened Common
  import opened Wire
  import opened Floating
  import S = Sparkplug

  lemma {:induction false} ScaleUpSkips(limit: nat, num: nat, den: nat, e: int, k: nat)
    requires limit > 1 && den > 0 && 0 < num && num * Pow2(k) < den * limit
    ensures num < den * limit && ScaleUp(limit, num, den, e) == ScaleUp(limit, num * Pow2(k), den, e - k)
    decreases k
  {
    assert Pow2(0) == 1;
    if k > 0 {
      assert num * Pow2(k) == 2 * num * Pow2(k - 1);
      assert num * Pow2(k) >= 2 * num by { assert Pow2(k - 1) >= 1; }
      ScaleUpSkips(limit, 2 * num, den, e - 1, k - 1);
    }
  }

  /** Rounding n / d when k doublings of n give the full precision. */
  lemma RoundBy(limit: nat, n: nat, d: nat, k: nat)
    requires limit > 1 && d > 0 && n > 0 && n * Pow2(k) < d * limit <= 2 * (n * Pow2(k))
    requires RoundDiv(n * Pow2(k), d) < limit
    ensures Round(limit, n, d) == Float(false, RoundDiv(n * Pow2(k), d), 0 - k)
  {
    ScaleUpSkips(limit, n, d, 0, k);
  }

  lemma Powers()
    ensures Pow2(10) == 1024 && Pow2(12) == 0x1000 && Pow2(17) == 0x2_0000 && Pow2(19) == 0x8_0000
    ensures Pow2(23) == 0x80_0000
  {
    assert Pow2(4) == 16;
    Pow2Add(4, 4);
    Pow2Add(8, 2);
    Pow2Add(10, 2);
    Pow2Add(12, 5);
    Pow2Add(17, 2);
    Pow2Add(19, 4);
  }

  /** 28.45, 97.4, -1.25 and 97.38. */
  lemma Values()
    ensures S.CentiBits(2845) == 0x41e3_999a && S.CentiBits(9740) == 0x42c2_cccd
    ensures S.CentiBits(-125) == 0xbfa0_0000 && S.CentiBits(9738) == 0x42c2_c28f
  {
    Powers();
    RoundBy(Single, 2845, 1, 12);
    RoundBy(Single, 11_653_120, 409_600, 19);
    RoundBy(Single, 9740, 1, 10);
    RoundBy(Single, 9_973_760, 102_400, 17);
    RoundBy(Single, 9738, 1, 10);
    RoundBy(Single, 9_971_712, 102_400, 17);
    RoundBy(Single, 125, 1, 17);
    RoundBy(Single, 16_384_000, 13_107_200, 23);
  }

  /** The parts of those messages that are computed: two times as varints, and four
      readings as little-endian floats. */
  lemma ValuesOnWire()
    ensures Varint(1_700_000_000_000) == [0x80, 0xd0, 0x95, 0xff, 0xbc, 0x31]
    ensures Varint(1_700_000_015_000) == [0x98, 0xc5, 0x96, 0xff, 0xbc, 0x31]
    ensures LittleEndian(S.CentiBits(2845), 4) == [0x9a, 0x99, 0xe3, 0x41]
    ensures LittleEndian(S.CentiBits(9740), 4) == [0xcd, 0xcc, 0xc2, 0x42]
    ensures LittleEndian(S.CentiBits(-125), 4) == [0x00, 0x00, 0xa0, 0xbf]
    ensures LittleEndian(S.CentiBits(9738), 4) == [0x8f, 0xc2, 0xc2, 0x42]
  {
    Values();
    Times();
    Floats(S.CentiBits(2845), S.CentiBits(9740), S.CentiBits(-125), S.CentiBits(9738));
  }

  lemma Times()
    ensures Varint(1_700_000_000_000) == [0x80, 0xd0, 0x95, 0xff, 0xbc, 0x31]
    ensures Varint(1_700_000_015_000) == [0x98, 0xc5, 0x96, 0xff, 0xbc, 0x31]
  {
  }

  lemma LowByte(a: nat, high: nat, size: nat)
    requires a < 256 && size > 0
    ensures LittleEndian(a + 256 * high, size) == [a] + LittleEndian(high, size - 1)
  {
    assert (a + 256 * high) % 256 == a && (a + 256 * high) / 256 == high;
  }

  lemma FourBytes(n: nat, a: nat, b: nat, c: nat, d: nat)
    requires a < 256 && b < 256 && c < 256 && d < 256 && n == a + 256 * (b + 256 * (c + 256 * d))
    ensures LittleEndian(n, 4) == [a, b, c, d]
  {
    LowByte(a, b + 256 * (c + 256 * d), 4);
    LowByte(b, c + 256 * d, 3);
    LowByte(c, d, 2);
    LowByte(d, 0, 1);
  }

  lemma Floats(p: nat, q: nat, r: nat, s: nat)
    requires p == 0x41e3_999a && q == 0x42c2_cccd && r == 0xbfa0_0000 && s == 0x42c2_c28f
    ensures LittleEndian(p, 4) == [0x9a, 0x99, 0xe3, 0x41]
    ensures LittleEndian(q, 4) == [0xcd, 0xcc, 0xc2, 0x42]
    ensures LittleEndian(r, 4) == [0x00, 0x00, 0xa0, 0xbf]
    ensures LittleEndian(s, 4) == [0x8f, 0xc2, 0xc2, 0x42]
  {
    FourBytes(p, 0x9a, 0x99, 0xe3, 0x41);
    FourBytes(q, 0xcd, 0xcc, 0xc2, 0x42);
    FourBytes(r, 0x00, 0x00, 0xa0, 0xbf);
    FourBytes(s, 0x8f, 0xc2, 0xc2, 0x42);
  }
}

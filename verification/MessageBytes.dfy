/** Every byte of the two messages that the firmwares send, written out. */
module MessageBytes {
  import opened Common
  import opened Wire
  import S = Sparkplug
  import W = SparkplugWire

  lemma OneField(f: Field)
    requires Encodable(f)
    ensures AllEncodable([f]) && EncodeFields([f]) == EncodeField(f)
  {
    assert [f][1..] == [];
    assert EncodeFields([f]) == EncodeField(f) + EncodeFields([]);
  }

  lemma NumberField(number: nat, n: nat)
    requires 0 < number < 16 && n < TwoTo64
    ensures EncodeField(Field(number, 0, Int(n))) == [8 * number] + Varint(n)
  {
    assert Varint(8 * number + 0) == [8 * number];
  }

  lemma NumberBytes(number: nat, n: nat)
    requires 0 < number < 16 && n < TwoTo64
    ensures EncodeFields([Field(number, 0, Int(n))]) == [8 * number] + Varint(n)
  {
    NumberField(number, n);
    OneField(Field(number, 0, Int(n)));
  }

  /** A field whose value is less than 128. */
  lemma SmallBytes(number: nat, n: nat)
    requires 0 < number < 16 && n < 128
    ensures EncodeFields([Field(number, 0, Int(n))]) == [8 * number, n]
  {
    NumberBytes(number, n);
    assert Varint(n) == [n];
  }

  lemma TextBytes(number: nat, bytes: seq<byte>)
    requires 0 < number < 16 && |bytes| < 128
    ensures EncodeFields([Field(number, 2, Blob(bytes))]) == [8 * number + 2, |bytes|] + bytes
  {
    OneField(Field(number, 2, Blob(bytes)));
    assert [8 * number + 2] + ([|bytes|] + bytes) == [8 * number + 2, |bytes|] + bytes;
  }

  lemma FixedBytes(number: nat, bytes: seq<byte>)
    requires 0 < number < 16 && |bytes| == 4
    ensures EncodeFields([Field(number, 5, Blob(bytes))]) == [8 * number + 5] + bytes
  {
    OneField(Field(number, 5, Blob(bytes)));
  }

  lemma FiveParts(a: seq<Field>, b: seq<Field>, c: seq<Field>, d: seq<Field>, e: seq<Field>)
    requires AllEncodable(a) && AllEncodable(b) && AllEncodable(c) && AllEncodable(d) && AllEncodable(e)
    ensures AllEncodable(a + b + c + d + e)
    ensures EncodeFields(a + b + c + d + e)
         == EncodeFields(a) + EncodeFields(b) + EncodeFields(c) + EncodeFields(d) + EncodeFields(e)
  {
    EncodeFieldsAppend(a + b + c + d, e);
    EncodeFieldsAppend(a + b + c, d);
    EncodeFieldsAppend(a + b, c);
    EncodeFieldsAppend(a, b);
  }

  function Flag(number: nat, set_: bool): seq<byte>
    requires number < 16
  {
    if set_ then [8 * number, 1] else []
  }

  lemma FlagBytes(number: nat, set_: bool)
    requires 0 < number < 16
    ensures EncodeFields(S.FlagPart(number, set_)) == Flag(number, set_)
  {
    if set_ { SmallBytes(number, 1); }
  }

  /** A Float metric: name, timestamp, datatype 9, is_historical if set, float_value. */
  function ReadingBytes(name: seq<byte>, time: seq<byte>, historical: bool, bits: seq<byte>): seq<byte>
    requires |name| < 24
  {
    [0x0a, |name|] + name + ([0x18] + time) + [0x20, 0x09] + Flag(5, historical) + ([0x65] + bits)
  }

  lemma PartsAre(name: seq<byte>, ms: nat, historical: bool, bits: seq<byte>)
    requires |name| < 24 && ms < TwoTo64 && |bits| == 4
    ensures var f1, f3, f4 := [Field(1, 2, Blob(name))], [Field(3, 0, Int(ms))], [Field(4, 0, Int(9))];
            var all := f1 + f3 + f4 + S.FlagPart(5, historical) + [Field(12, 5, Blob(bits))];
            AllEncodable(all) && EncodeFields(all) == ReadingBytes(name, Varint(ms), historical, bits)
  {
    var f1, f3, f4 := [Field(1, 2, Blob(name))], [Field(3, 0, Int(ms))], [Field(4, 0, Int(9))];
    var f5, f12 := S.FlagPart(5, historical), [Field(12, 5, Blob(bits))];
    TextBytes(1, name);
    NumberBytes(3, ms);
    SmallBytes(4, 9);
    FlagBytes(5, historical);
    FixedBytes(12, bits);
    FiveParts(f1, f3, f4, f5, f12);
  }

  lemma ReadingIs(name: seq<byte>, centi: int32, ms: nat, historical: bool)
    requires |name| < 24 && ms < TwoTo64
    ensures EncodeFields(S.MetricFields(S.ReadingMetric(name, centi, ms, historical)))
         == ReadingBytes(name, Varint(ms), historical, LittleEndian(S.CentiBits(centi), 4))
  {
    var bits := LittleEndian(S.CentiBits(centi), 4);
    PartsAre(name, ms, historical, bits);
    assert S.MetricFields(S.ReadingMetric(name, centi, ms, historical))
        == [Field(1, 2, Blob(name))] + [Field(3, 0, Int(ms))] + [Field(4, 0, Int(9))] + S.FlagPart(5, historical)
           + [Field(12, 5, Blob(bits))];
  }

  /** A metric in its message. */
  function Framed(metric: seq<byte>): seq<byte>
    requires |metric| < 128
  {
    [0x12, |metric|] + metric
  }

  lemma VarintSize(n: nat)
    requires n < TwoTo64
    ensures |Varint(n)| <= 10
  {
    S.VarintSizes(n);
  }

  function PairBytes(m: Measurement, historical: bool): seq<byte> {
    var ms := 1000 * m.timestamp % TwoTo64;
    VarintSize(ms);
    Framed(ReadingBytes(S.TemperatureName, Varint(ms), historical, LittleEndian(S.CentiBits(m.temperature), 4))) +
    Framed(ReadingBytes(S.BatteryName, Varint(ms), historical, LittleEndian(S.CentiBits(m.battery), 4)))
  }

  function ReadingsBytes(readings: seq<Measurement>, historical: bool): seq<byte> {
    if readings == [] then [] else PairBytes(readings[0], historical) + ReadingsBytes(readings[1..], historical)
  }

  lemma MetricIs(name: seq<byte>, centi: int32, ms: nat, historical: bool)
    requires |name| < 24 && ms < TwoTo64
    ensures var bytes := ReadingBytes(name, Varint(ms), historical, LittleEndian(S.CentiBits(centi), 4));
            && |bytes| < 128
            && EncodeFields([S.MetricField(S.ReadingMetric(name, centi, ms, historical))]) == Framed(bytes)
  {
    VarintSize(ms);
    ReadingIs(name, centi, ms, historical);
    FramedIs(S.ReadingMetric(name, centi, ms, historical),
      ReadingBytes(name, Varint(ms), historical, LittleEndian(S.CentiBits(centi), 4)));
  }

  lemma PairIs(m: Measurement, historical: bool)
    ensures var two := S.MeasurementMetrics(m, historical);
            EncodeFields([S.MetricField(two[0])] + [S.MetricField(two[1])]) == PairBytes(m, historical)
  {
    var two, ms := S.MeasurementMetrics(m, historical), S.TimestampMs(m.timestamp);
    W.WrappedMs(m.timestamp);
    MetricIs(S.TemperatureName, m.temperature, ms, historical);
    MetricIs(S.BatteryName, m.battery, ms, historical);
    EncodeFieldsAppend([S.MetricField(two[0])], [S.MetricField(two[1])]);
  }

  lemma {:induction false} ReadingsAre(readings: seq<Measurement>, historical: bool)
    ensures EncodeFields(S.ReadingFields(readings, historical)) == ReadingsBytes(readings, historical)
  {
    if readings != [] {
      var two := S.MeasurementMetrics(readings[0], historical);
      PairIs(readings[0], historical);
      ReadingsAre(readings[1..], historical);
      EncodeFieldsAppend([S.MetricField(two[0])] + [S.MetricField(two[1])], S.ReadingFields(readings[1..], historical));
      assert [S.MetricField(two[0]), S.MetricField(two[1])] == [S.MetricField(two[0])] + [S.MetricField(two[1])];
    }
  }

  function Header(ms: nat): seq<byte> {
    if ms != 0 then [0x08] + Varint(ms) else []
  }

  lemma HeaderIs(ms: nat)
    requires ms < TwoTo64
    ensures EncodeFields(S.HeaderFields(ms)) == Header(ms)
  {
    if ms != 0 { NumberBytes(1, ms); }
  }

  /** Every byte of every NDATA: the time of the last reading unless it is zero, the
      readings in order, and the sequence number. */
  lemma NdataIs(readings: seq<Measurement>, current: uint8, historical: bool)
    requires readings != []
    ensures var ms := 1000 * readings[|readings| - 1].timestamp % TwoTo64;
            S.NdataBytes(readings, current, historical) == Header(ms) + ReadingsBytes(readings, historical) +
                                                           ([0x18] + Varint(current))
  {
    var last := readings[|readings| - 1].timestamp;
    W.WrappedMs(last);
    var header := S.HeaderFields(S.TimestampMs(last));
    HeaderIs(S.TimestampMs(last));
    ReadingsAre(readings, historical);
    NumberBytes(3, current);
    EncodeFieldsAppend(header + S.ReadingFields(readings, historical), [S.SeqField(current)]);
    EncodeFieldsAppend(header, S.ReadingFields(readings, historical));
  }

  // ------------------------------------------------------------------- NBIRTH

  /** The Int64 metric bdSeq: name, datatype 4, long_value. */
  function BdSeqBytes(bdSeq: uint8): seq<byte> {
    [0x0a, 5] + S.BdSeqName + [0x20, 0x04] + ([0x58] + Varint(bdSeq))
  }

  lemma BdSeqIs(bdSeq: uint8)
    ensures EncodeFields(S.MetricFields(S.BdSeqMetric(bdSeq))) == BdSeqBytes(bdSeq)
  {
    assert |S.BdSeqName| == 5;
    TextBytes(1, S.BdSeqName);
    SmallBytes(4, 4);
    NumberBytes(11, bdSeq);
    FiveParts([Field(1, 2, Blob(S.BdSeqName))], [Field(4, 0, Int(4))], [], [], [Field(11, 0, Int(bdSeq))]);
    assert S.MetricFields(S.BdSeqMetric(bdSeq))
        == [Field(1, 2, Blob(S.BdSeqName))] + [Field(4, 0, Int(4))] + [] + [] + [Field(11, 0, Int(bdSeq))];
  }

  /** A null Float metric: name, datatype 9, is_null. */
  function NullBytes(name: seq<byte>): seq<byte>
    requires |name| < 24
  {
    [0x0a, |name|] + name + [0x20, 0x09] + [0x38, 0x01]
  }

  lemma NullIs(name: seq<byte>)
    requires |name| < 24
    ensures EncodeFields(S.MetricFields(S.NullMetric(name))) == NullBytes(name)
  {
    TextBytes(1, name);
    SmallBytes(4, 9);
    SmallBytes(7, 1);
    FiveParts([Field(1, 2, Blob(name))], [Field(4, 0, Int(9))], [Field(7, 0, Int(1))], [], []);
    assert S.MetricFields(S.NullMetric(name))
        == [Field(1, 2, Blob(name))] + [Field(4, 0, Int(9))] + [Field(7, 0, Int(1))] + [] + [];
  }

  lemma FramedIs(m: S.Metric, bytes: seq<byte>)
    requires S.ValidMetric(m) && EncodeFields(S.MetricFields(m)) == bytes && |bytes| < 128
    ensures EncodeFields([S.MetricField(m)]) == Framed(bytes)
  {
    TextBytes(2, bytes);
  }

  /** The three metrics. */
  lemma DeclarationsAre(bdSeq: uint8)
    ensures |BdSeqBytes(bdSeq)| < 128
    ensures EncodeFields([S.MetricField(S.BdSeqMetric(bdSeq))]) == Framed(BdSeqBytes(bdSeq))
    ensures EncodeFields([S.MetricField(S.NullMetric(S.TemperatureName))]) == Framed(NullBytes(S.TemperatureName))
    ensures EncodeFields([S.MetricField(S.NullMetric(S.BatteryName))]) == Framed(NullBytes(S.BatteryName))
  {
    VarintSize(bdSeq);
    BdSeqIs(bdSeq);
    NullIs(S.TemperatureName);
    NullIs(S.BatteryName);
    FramedIs(S.BdSeqMetric(bdSeq), BdSeqBytes(bdSeq));
    FramedIs(S.NullMetric(S.TemperatureName), NullBytes(S.TemperatureName));
    FramedIs(S.NullMetric(S.BatteryName), NullBytes(S.BatteryName));
  }

  /** Every byte of every NBIRTH: its time unless it is zero, bdSeq, the two null
      metrics and the sequence number 0. */
  lemma NbirthIs(ms: nat, bdSeq: uint8)
    requires ms < TwoTo64
    ensures |BdSeqBytes(bdSeq)| < 128
    ensures S.NbirthBytes(ms, bdSeq)
         == Header(ms) + Framed(BdSeqBytes(bdSeq)) + Framed(NullBytes(S.TemperatureName)) +
            Framed(NullBytes(S.BatteryName)) + [0x18, 0x00]
  {
    var a, b, c := S.BdSeqMetric(bdSeq), S.NullMetric(S.TemperatureName), S.NullMetric(S.BatteryName);
    DeclarationsAre(bdSeq);
    HeaderIs(ms);
    SmallBytes(3, 0);
    FiveParts(S.HeaderFields(ms), [S.MetricField(a)], [S.MetricField(b)], [S.MetricField(c)], [S.SeqField(0)]);
    assert S.NbirthFields(ms, bdSeq)
        == S.HeaderFields(ms) + [S.MetricField(a)] + [S.MetricField(b)] + [S.MetricField(c)] + [S.SeqField(0)];
  }
}

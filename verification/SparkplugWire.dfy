/** The metrics of a message as they lie on the wire, field by field: what any
    protobuf reader finds in them, the fields the ingest service skips included. */
module SparkplugWire {
  import opened Common
  import opened Wire
  import opened FieldDecoder
  import S = Sparkplug

  /** The fields of the metrics of a message, in order: those with number 2. */
  function MetricBytes(fields: seq<Field>): seq<seq<byte>> {
    if fields == [] then []
    else if fields[0].number == 2 && fields[0].value.Blob? then [fields[0].value.bytes] + MetricBytes(fields[1..])
    else MetricBytes(fields[1..])
  }

  lemma {:induction false} MetricBytesAppend(a: seq<Field>, b: seq<Field>)
    ensures MetricBytes(a + b) == MetricBytes(a) + MetricBytes(b)
  {
    if a == [] {
      assert a + b == b;
    } else {
      assert (a + b)[1..] == a[1..] + b;
      MetricBytesAppend(a[1..], b);
    }
  }

  /** A Float metric (datatype 9 of Sparkplug B) with a value: name, timestamp,
      datatype, is_historical if and only if it is set, and the value's bits. */
  ghost predicate IsReading(bytes: seq<byte>, name: seq<byte>, ms: nat, historical: bool, bits: uint32) {
    TakeFields(bytes)
    == ([Field(1, 2, Blob(name)), Field(3, 0, Int(ms)), Field(4, 0, Int(9))]
        + (if historical then [Field(5, 0, Int(1))] else [])
        + [Field(12, 5, Blob(LittleEndian(bits, 4)))], None)
  }

  lemma ReadingOnWire(name: seq<byte>, centi: int32, ms: nat, historical: bool)
    requires |name| < 24 && ms < TwoTo64
    ensures IsReading(EncodeFields(S.MetricFields(S.ReadingMetric(name, centi, ms, historical))), name, ms, historical,
                      S.CentiBits(centi))
  {
    var fields := S.MetricFields(S.ReadingMetric(name, centi, ms, historical));
    FieldsRoundTrip(fields);
    assert fields == [Field(1, 2, Blob(name)), Field(3, 0, Int(ms)), Field(4, 0, Int(9))]
                     + (if historical then [Field(5, 0, Int(1))] else [])
                     + [Field(12, 5, Blob(LittleEndian(S.CentiBits(centi), 4)))];
  }

  /** The i-th reading of an NDATA is the metrics 2i and 2i + 1. */
  ghost predicate AreReadings(metrics: seq<seq<byte>>, ms: seq<Measurement>, historical: bool) {
    && |metrics| == 2 * |ms|
    && forall i :: 0 <= i < |ms| ==> IsPair(metrics[2 * i], metrics[2 * i + 1], ms[i], historical)
  }

  /** The Unix time in milliseconds, modulo 2^64 as uint64_t keeps it. */
  ghost predicate IsPair(a: seq<byte>, b: seq<byte>, m: Measurement, historical: bool) {
    var ms := 1000 * m.timestamp % TwoTo64;
    && IsReading(a, S.TemperatureName, ms, historical, S.CentiBits(m.temperature))
    && IsReading(b, S.BatteryName, ms, historical, S.CentiBits(m.battery))
  }

  lemma WrappedMs(seconds: int64)
    ensures S.TimestampMs(seconds) == 1000 * seconds % TwoTo64
  {
    var low := seconds % TwoTo64;
    assert seconds == TwoTo64 * (seconds / TwoTo64) + low;
    assert 1000 * seconds == TwoTo64 * (1000 * (seconds / TwoTo64)) + low * 1000;
    WrapsAlike(low * 1000, 1000 * (seconds / TwoTo64));
  }

  lemma WrapsAlike(n: int, k: int)
    ensures (TwoTo64 * k + n) % TwoTo64 == n % TwoTo64
  {
  }

  lemma {:induction false} ReadingsOnWire(ms: seq<Measurement>, historical: bool)
    ensures AreReadings(MetricBytes(S.ReadingFields(ms, historical)), ms, historical)
  {
    if ms != [] {
      ReadingsOnWire(ms[1..], historical);
      var two := S.MeasurementMetrics(ms[0], historical);
      var first, rest := [S.MetricField(two[0]), S.MetricField(two[1])], S.ReadingFields(ms[1..], historical);
      MetricBytesAppend(first, rest);
      assert first[1..][1..] == [];
      WrappedMs(ms[0].timestamp);
      ReadingOnWire(S.TemperatureName, ms[0].temperature, S.TimestampMs(ms[0].timestamp), historical);
      ReadingOnWire(S.BatteryName, ms[0].battery, S.TimestampMs(ms[0].timestamp), historical);
      PairFirst(first[0].value.bytes, first[1].value.bytes, MetricBytes(rest), ms, historical);
    }
  }

  lemma PairFirst(a: seq<byte>, b: seq<byte>, metrics: seq<seq<byte>>, ms: seq<Measurement>, historical: bool)
    requires ms != [] && IsPair(a, b, ms[0], historical) && AreReadings(metrics, ms[1..], historical)
    ensures AreReadings([a, b] + metrics, ms, historical)
  {
    forall i | 0 <= i < |ms|
      ensures IsPair(([a, b] + metrics)[2 * i], ([a, b] + metrics)[2 * i + 1], ms[i], historical)
    {
      if i > 0 { PairLater(a, b, metrics, ms, historical, i); }
    }
  }

  lemma PairLater(a: seq<byte>, b: seq<byte>, metrics: seq<seq<byte>>, ms: seq<Measurement>, historical: bool, i: nat)
    requires 0 < i < |ms| && AreReadings(metrics, ms[1..], historical)
    ensures IsPair(([a, b] + metrics)[2 * i], ([a, b] + metrics)[2 * i + 1], ms[i], historical)
  {
    var k := i - 1;
    assert ms[1..][k] == ms[i] && ([a, b] + metrics)[2 * i] == metrics[2 * k];
    assert ([a, b] + metrics)[2 * i + 1] == metrics[2 * k + 1];
  }

  /** The header and the sequence number are no metrics. */
  lemma MessageMetrics(timestampMs: nat, middle: seq<Field>, current: uint8)
    requires timestampMs < TwoTo64
    ensures MetricBytes(S.HeaderFields(timestampMs) + middle + [S.SeqField(current)]) == MetricBytes(middle)
  {
    var header, end := S.HeaderFields(timestampMs), [S.SeqField(current)];
    MetricBytesAppend(header + middle, end);
    MetricBytesAppend(header, middle);
    assert header == [] || header[1..] == [];
    assert end[1..] == [];
  }

  /** Every metric of an NDATA is marked as historical if and only if the message
      is encoded so, has the datatype Float, and the time of its own reading. */
  lemma NdataOnWire(ms: seq<Measurement>, current: uint8, historical: bool)
    requires ms != []
    ensures var (fields, error) := TakeFields(S.NdataBytes(ms, current, historical));
            error == None && AreReadings(MetricBytes(fields), ms, historical)
  {
    FieldsRoundTrip(S.NdataFields(ms, current, historical));
    MessageMetrics(S.TimestampMs(ms[|ms| - 1].timestamp), S.ReadingFields(ms, historical), current);
    ReadingsOnWire(ms, historical);
  }

  // ------------------------------------------------------------------ NBIRTH

  /** An Int64 metric (datatype 4) with the value n. */
  ghost predicate IsInt64(bytes: seq<byte>, name: seq<byte>, n: nat) {
    TakeFields(bytes) == ([Field(1, 2, Blob(name)), Field(4, 0, Int(4)), Field(11, 0, Int(n))], None)
  }

  /** A Float metric that is null. */
  ghost predicate IsNullFloat(bytes: seq<byte>, name: seq<byte>) {
    TakeFields(bytes) == ([Field(1, 2, Blob(name)), Field(4, 0, Int(9)), Field(7, 0, Int(1))], None)
  }

  lemma BdSeqOnWire(bdSeq: uint8)
    ensures IsInt64(EncodeFields(S.MetricFields(S.BdSeqMetric(bdSeq))), S.BdSeqName, bdSeq)
  {
    var fields := S.MetricFields(S.BdSeqMetric(bdSeq));
    FieldsRoundTrip(fields);
    assert fields == [Field(1, 2, Blob(S.BdSeqName)), Field(4, 0, Int(4)), Field(11, 0, Int(bdSeq))];
  }

  lemma NullOnWire(name: seq<byte>)
    requires |name| < 24
    ensures IsNullFloat(EncodeFields(S.MetricFields(S.NullMetric(name))), name)
  {
    var fields := S.MetricFields(S.NullMetric(name));
    FieldsRoundTrip(fields);
    assert fields == [Field(1, 2, Blob(name)), Field(4, 0, Int(9)), Field(7, 0, Int(1))];
  }

  lemma ThreeMetrics(a: Field, b: Field, c: Field)
    requires a.number == 2 && a.value.Blob? && b.number == 2 && b.value.Blob? && c.number == 2 && c.value.Blob?
    ensures MetricBytes([a, b, c]) == [a.value.bytes, b.value.bytes, c.value.bytes]
  {
    assert [a, b, c][1..] == [b, c] && [b, c][1..] == [c] && [c][1..] == [];
    assert MetricBytes([c]) == [c.value.bytes];
    assert MetricBytes([b, c]) == [b.value.bytes, c.value.bytes];
  }

  lemma BirthMetrics(timestampMs: nat, bdSeq: uint8)
    requires timestampMs < TwoTo64
    ensures MetricBytes(S.NbirthFields(timestampMs, bdSeq))
         == [EncodeFields(S.MetricFields(S.BdSeqMetric(bdSeq))),
             EncodeFields(S.MetricFields(S.NullMetric(S.TemperatureName))),
             EncodeFields(S.MetricFields(S.NullMetric(S.BatteryName)))]
  {
    var a, b, c := S.BdSeqMetric(bdSeq), S.NullMetric(S.TemperatureName), S.NullMetric(S.BatteryName);
    MessageMetrics(timestampMs, [S.MetricField(a), S.MetricField(b), S.MetricField(c)], 0);
    ThreeMetrics(S.MetricField(a), S.MetricField(b), S.MetricField(c));
  }

  /** The NBIRTH declares bdSeq as Int64 and the two readings as null Floats, none
      of them historical and none with a time of its own. */
  lemma NbirthOnWire(timestampMs: nat, bdSeq: uint8)
    requires timestampMs < TwoTo64
    ensures var (fields, error) := TakeFields(S.NbirthBytes(timestampMs, bdSeq));
            var metrics := MetricBytes(fields);
            && error == None && |metrics| == 3
            && IsInt64(metrics[0], S.BdSeqName, bdSeq)
            && IsNullFloat(metrics[1], S.TemperatureName)
            && IsNullFloat(metrics[2], S.BatteryName)
  {
    FieldsRoundTrip(S.NbirthFields(timestampMs, bdSeq));
    BirthMetrics(timestampMs, bdSeq);
    BdSeqOnWire(bdSeq);
    NullOnWire(S.TemperatureName);
    NullOnWire(S.BatteryName);
  }
}

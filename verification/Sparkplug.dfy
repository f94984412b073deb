/** The Sparkplug B encoder of both firmwares (the simple firmware fixes
    historical to true). The structs given to nanopb become lists of their
    present fields in tag order. */
module Sparkplug {
  import opened Common
  import opened Wire
  import opened Floating

  const DatatypeInt64: nat := 4
  const DatatypeFloat: nat := 9

  /** ASCII "temperature", "battery" and "bdSeq". */
  const TemperatureName: seq<byte> := [0x74, 0x65, 0x6d, 0x70, 0x65, 0x72, 0x61, 0x74, 0x75, 0x72, 0x65]
  const BatteryName: seq<byte> := [0x62, 0x61, 0x74, 0x74, 0x65, 0x72, 0x79]
  const BdSeqName: seq<byte> := [0x62, 0x64, 0x53, 0x65, 0x71]

  datatype MetricValue = NoValue | LongValue(n: uint64) | FloatValue(bits: uint32)

  /** Payload.Metric with the has_ flags folded into the fields. */
  datatype Metric = Metric(name: seq<byte>, timestamp: Option<nat>, datatypeCode: nat,
                           historical: bool, isNull: bool, value: MetricValue)

  predicate ValidMetric(m: Metric) {
    && |m.name| < 24
    && (m.timestamp.Some? ==> m.timestamp.value < TwoTo64)
    && m.datatypeCode < 0x1_0000_0000
  }

  function TimePart(m: Metric): seq<Field> {
    if m.timestamp.Some? then [Field(3, 0, Int(m.timestamp.value))] else []
  }

  function FlagPart(number: nat, set_: bool): seq<Field> {
    if set_ then [Field(number, 0, Int(1))] else []
  }

  function ValuePart(m: Metric): seq<Field> {
    match m.value
    case NoValue => []
    case LongValue(n) => [Field(11, 0, Int(n))]
    case FloatValue(bits) => [Field(12, 5, Blob(LittleEndian(bits, 4)))]
  }

  function MetricFields(m: Metric): (fields: seq<Field>)
    requires ValidMetric(m)
    ensures AllEncodable(fields)
  {
    [Field(1, 2, Blob(m.name))] + TimePart(m) + [Field(4, 0, Int(m.datatypeCode))] +
    FlagPart(5, m.historical) + FlagPart(7, m.isNull) + ValuePart(m)
  }

  function BdSeqMetric(bdSeq: uint8): (m: Metric)
    ensures ValidMetric(m)
  {
    Metric(BdSeqName, None, DatatypeInt64, false, false, LongValue(bdSeq))
  }

  /** encode_float_metric with is_null set. */
  function NullMetric(name: seq<byte>): Metric {
    Metric(name, None, DatatypeFloat, false, true, NoValue)
  }

  function ReadingMetric(name: seq<byte>, centi: int32, timestampMs: nat, historical: bool): (m: Metric)
    requires |name| < 24 && timestampMs < TwoTo64
    ensures ValidMetric(m)
  {
    Metric(name, Some(timestampMs), DatatypeFloat, historical, false, FloatValue(CentiBits(centi)))
  }

  /** The bits of `(float)centi / 100.0f`. */
  function CentiBits(centi: int32): uint32 {
    CentiIsSingle(centi);
    var f := CentiFloat(centi);
    SingleBits(if centi == 0 then Zero else f)
  }

  /** `(uint64_t)timestamp * 1000U`: the conversion and the product wrap at 2^64. */
  function TimestampMs(seconds: int64): (ms: nat)
    ensures ms < TwoTo64
  {
    seconds % TwoTo64 * 1000 % TwoTo64
  }

  function MeasurementMetrics(m: Measurement, historical: bool): (metrics: seq<Metric>)
    ensures |metrics| == 2 && ValidMetric(metrics[0]) && ValidMetric(metrics[1])
  {
    var ms := TimestampMs(m.timestamp);
    [ReadingMetric(TemperatureName, m.temperature, ms, historical),
     ReadingMetric(BatteryName, m.battery, ms, historical)]
  }

  /** A metric as an element of the repeated field 2. */
  function MetricField(m: Metric): (f: Field)
    requires ValidMetric(m)
    ensures Encodable(f)
  {
    MetricSize(m);
    Field(2, 2, Blob(EncodeFields(MetricFields(m))))
  }

  function ReadingFields(ms: seq<Measurement>, historical: bool): (fields: seq<Field>)
    ensures AllEncodable(fields)
    ensures |fields| == 2 * |ms|
  {
    if ms == [] then []
    else
      var metrics := MeasurementMetrics(ms[0], historical);
      [MetricField(metrics[0]), MetricField(metrics[1])] + ReadingFields(ms[1..], historical)
  }

  function HeaderFields(timestampMs: nat): (fields: seq<Field>)
    requires timestampMs < TwoTo64
    ensures AllEncodable(fields)
  {
    if timestampMs != 0 then [Field(1, 0, Int(timestampMs))] else []
  }

  function SeqField(current: uint8): (f: Field)
    ensures Encodable(f)
  {
    Field(3, 0, Int(current))
  }

  function NdataFields(ms: seq<Measurement>, current: uint8, historical: bool): (fields: seq<Field>)
    requires ms != []
    ensures AllEncodable(fields)
  {
    HeaderFields(TimestampMs(ms[|ms| - 1].timestamp)) + ReadingFields(ms, historical) + [SeqField(current)]
  }

  function NbirthFields(timestampMs: nat, bdSeq: uint8): (fields: seq<Field>)
    requires timestampMs < TwoTo64
    ensures AllEncodable(fields)
  {
    HeaderFields(timestampMs) +
    [MetricField(BdSeqMetric(bdSeq)), MetricField(NullMetric(TemperatureName)), MetricField(NullMetric(BatteryName))] +
    [SeqField(0)]
  }

  function NdataBytes(ms: seq<Measurement>, current: uint8, historical: bool): seq<byte>
    requires ms != []
  {
    EncodeFields(NdataFields(ms, current, historical))
  }

  function NbirthBytes(timestampMs: nat, bdSeq: uint8): seq<byte>
    requires timestampMs < TwoTo64
  {
    EncodeFields(NbirthFields(timestampMs, bdSeq))
  }

  // -------------------------------------------------------------------- topic

  datatype MessageType = NBIRTH | NDATA

  function TypeName(t: MessageType): string {
    match t case NBIRTH => "NBIRTH" case NDATA => "NDATA"
  }

  function TopicText(group: string, t: MessageType, edge: string): string {
    "spBv1.0" + "/" + (group + "/" + (TypeName(t) + "/" + edge))
  }

  /** aitsm_sparkplug_topic: the capacity includes the terminating NUL. */
  function Topic(group: string, t: MessageType, edge: string, capacity: nat): Result<string, Errno> {
    var text := TopicText(group, t, edge);
    if |text| >= capacity then Err(EMSGSIZE) else Ok(text)
  }

  // -------------------------------------------------------------------- sizes

  lemma VarintSizes(n: nat)
    ensures n < TwoTo64 ==> |Varint(n)| <= 10
    ensures n < 128 ==> |Varint(n)| == 1
    ensures n < 0x4000 ==> |Varint(n)| <= 2
    ensures n < 0x1_0000_0000 ==> |Varint(n)| <= 5
  {
    assert Pow128(5) == 0x8_0000_0000 && Pow128(2) == 0x4000;
    assert Pow128(7) == 128 * Pow128(6) && Pow128(8) == 128 * Pow128(7);
    assert Pow128(9) == 128 * Pow128(8) && Pow128(10) == 128 * Pow128(9);
    if n < TwoTo64 { VarintLength(n, 10); }
    if n < 0x4000 { VarintLength(n, 2); }
    if n < 0x1_0000_0000 { VarintLength(n, 5); }
  }

  /** A field with a one-byte key. */
  lemma FieldSize(f: Field)
    requires Encodable(f) && f.number < 16
    ensures f.wireType == 0 ==> |EncodeField(f)| == 1 + |Varint(f.value.n)|
    ensures f.wireType == 5 ==> |EncodeField(f)| == 5
    ensures f.wireType == 2 && |f.value.bytes| < 128 ==> |EncodeField(f)| == 2 + |f.value.bytes|
  {
    VarintSizes(8 * f.number + f.wireType);
    if f.wireType == 2 {
      VarintSizes(|f.value.bytes|);
    }
  }

  function Size(fields: seq<Field>): nat
    requires AllEncodable(fields)
  {
    |EncodeFields(fields)|
  }

  lemma OneFieldSize(f: Field)
    requires Encodable(f) && f.number < 16
    ensures AllEncodable([f])
    ensures f.wireType == 0 ==> Size([f]) == 1 + |Varint(f.value.n)|
    ensures f.wireType == 5 ==> Size([f]) == 5
    ensures f.wireType == 2 && |f.value.bytes| < 128 ==> Size([f]) == 2 + |f.value.bytes|
  {
    FieldSize(f);
    assert EncodeFields([f][1..]) == [];
    assert EncodeFields([f]) == EncodeField(f) + [];
  }

  lemma FlagSize(number: nat, set_: bool)
    requires 0 < number < 16
    ensures AllEncodable(FlagPart(number, set_)) && Size(FlagPart(number, set_)) == if set_ then 2 else 0
  {
    if set_ {
      OneFieldSize(Field(number, 0, Int(1)));
      VarintSizes(1);
    }
  }

  /** The size of the value on the wire, when there is one. */
  function ValueSize(v: MetricValue): nat {
    match v case NoValue => 0 case LongValue(n) => 1 + |Varint(n)| case FloatValue(_) => 5
  }

  lemma SixParts(a: seq<Field>, b: seq<Field>, c: seq<Field>, d: seq<Field>, e: seq<Field>, f: seq<Field>)
    requires AllEncodable(a) && AllEncodable(b) && AllEncodable(c)
    requires AllEncodable(d) && AllEncodable(e) && AllEncodable(f)
    ensures AllEncodable(a + b + c + d + e + f)
    ensures Size(a + b + c + d + e + f) == Size(a) + Size(b) + Size(c) + Size(d) + Size(e) + Size(f)
  {
    EncodeFieldsAppend(a, b);
    EncodeFieldsAppend(a + b, c);
    EncodeFieldsAppend(a + b + c, d);
    EncodeFieldsAppend(a + b + c + d, e);
    EncodeFieldsAppend(a + b + c + d + e, f);
  }

  /** A metric is the sum of its present fields. */
  lemma MetricSize(m: Metric)
    requires ValidMetric(m)
    ensures Size(MetricFields(m)) ==
            2 + |m.name| + (if m.timestamp.Some? then 1 + |Varint(m.timestamp.value)| else 0)
            + 1 + |Varint(m.datatypeCode)| + (if m.historical then 2 else 0)
            + (if m.isNull then 2 else 0) + ValueSize(m.value)
    ensures Size(MetricFields(m)) <= 63
  {
    var name, code := Field(1, 2, Blob(m.name)), Field(4, 0, Int(m.datatypeCode));
    OneFieldSize(name);
    OneFieldSize(code);
    VarintSizes(m.datatypeCode);
    TimeSize(m);
    FlagSize(5, m.historical);
    FlagSize(7, m.isNull);
    ValuePartSize(m);
    SixParts([name], TimePart(m), [code], FlagPart(5, m.historical), FlagPart(7, m.isNull), ValuePart(m));
  }

  lemma TimeSize(m: Metric)
    requires ValidMetric(m)
    ensures AllEncodable(TimePart(m))
    ensures Size(TimePart(m)) == (if m.timestamp.Some? then 1 + |Varint(m.timestamp.value)| else 0) <= 11
  {
    if m.timestamp.Some? {
      OneFieldSize(TimePart(m)[0]);
      VarintSizes(m.timestamp.value);
    }
  }

  lemma ValuePartSize(m: Metric)
    ensures AllEncodable(ValuePart(m)) && Size(ValuePart(m)) == ValueSize(m.value) <= 11
  {
    if !m.value.NoValue? {
      OneFieldSize(ValuePart(m)[0]);
      if m.value.LongValue? { VarintSizes(m.value.n); }
    }
  }

  lemma MetricFieldSize(m: Metric)
    requires ValidMetric(m)
    ensures AllEncodable([MetricField(m)]) && Size([MetricField(m)]) == 2 + Size(MetricFields(m))
  {
    MetricSize(m);
    OneFieldSize(MetricField(m));
  }

  /** Temperature and battery of one reading take at most 33 + 29 bytes on the
      wire, plus two bytes each when marked historical. */
  lemma ReadingSize(m: Measurement, historical: bool)
    ensures var metrics := MeasurementMetrics(m, historical);
            Size([MetricField(metrics[0])]) <= 35 && Size([MetricField(metrics[1])]) <= 31
  {
    var metrics := MeasurementMetrics(m, historical);
    VarintSizes(TimestampMs(m.timestamp));
    VarintSizes(DatatypeFloat);
    MetricFieldSize(metrics[0]);
    MetricSize(metrics[0]);
    MetricFieldSize(metrics[1]);
    MetricSize(metrics[1]);
  }

  lemma {:induction false} ReadingsSize(ms: seq<Measurement>, historical: bool)
    ensures Size(ReadingFields(ms, historical)) <= 66 * |ms|
  {
    if ms != [] {
      var metrics := MeasurementMetrics(ms[0], historical);
      var t, b, rest := MetricField(metrics[0]), MetricField(metrics[1]), ReadingFields(ms[1..], historical);
      ReadingSize(ms[0], historical);
      ReadingsSize(ms[1..], historical);
      EncodeFieldsAppend([t], [b]);
      EncodeFieldsAppend([t] + [b], rest);
      assert ReadingFields(ms, historical) == [t] + [b] + rest;
    }
  }

  lemma HeaderSize(timestampMs: nat)
    requires timestampMs < TwoTo64
    ensures Size(HeaderFields(timestampMs)) <= 11
  {
    if timestampMs != 0 {
      OneFieldSize(Field(1, 0, Int(timestampMs)));
      VarintSizes(timestampMs);
    }
  }

  lemma SeqSize(current: uint8)
    ensures AllEncodable([SeqField(current)]) && Size([SeqField(current)]) == 1 + |Varint(current)| <= 3
  {
    OneFieldSize(SeqField(current));
    VarintSizes(current);
  }

  /** AITSM_SPARKPLUG_NDATA_MAX_SIZE: 16 + 70n bytes always hold n readings,
      whatever the timestamps, values and sequence number; 14 + 66n do. */
  lemma NdataSizeBound(ms: seq<Measurement>, current: uint8, historical: bool)
    requires ms != []
    ensures |NdataBytes(ms, current, historical)| <= 14 + 66 * |ms| <= 16 + 70 * |ms|
  {
    var head := HeaderFields(TimestampMs(ms[|ms| - 1].timestamp));
    HeaderSize(TimestampMs(ms[|ms| - 1].timestamp));
    ReadingsSize(ms, historical);
    SeqSize(current);
    EncodeFieldsAppend(head, ReadingFields(ms, historical));
    EncodeFieldsAppend(head + ReadingFields(ms, historical), [SeqField(current)]);
  }

  /** AITSM_SPARKPLUG_NBIRTH_MAX_SIZE is 80; an NBIRTH takes at most 61 bytes. */
  lemma NbirthSizeBound(timestampMs: nat, bdSeq: uint8)
    requires timestampMs < TwoTo64
    ensures |NbirthBytes(timestampMs, bdSeq)| <= 61
  {
    var head := HeaderFields(timestampMs);
    var b, t, c := MetricField(BdSeqMetric(bdSeq)), MetricField(NullMetric(TemperatureName)),
      MetricField(NullMetric(BatteryName));
    HeaderSize(timestampMs);
    VarintSizes(4);
    VarintSizes(9);
    VarintSizes(bdSeq);
    MetricFieldSize(BdSeqMetric(bdSeq));
    MetricSize(BdSeqMetric(bdSeq));
    MetricFieldSize(NullMetric(TemperatureName));
    MetricSize(NullMetric(TemperatureName));
    MetricFieldSize(NullMetric(BatteryName));
    MetricSize(NullMetric(BatteryName));
    SeqSize(0);
    VarintSizes(0);
    SixParts(head, [b], [t], [c], [SeqField(0)], []);
    assert NbirthFields(timestampMs, bdSeq) == head + [b] + [t] + [c] + [SeqField(0)] + [];
  }

  // ------------------------------------------------------------- the encoder

  /** pb_write on a buffer stream: refuses what would exceed the capacity. */
  method Append(stream: seq<byte>, bytes: seq<byte>, capacity: nat) returns (r: Option<seq<byte>>)
    ensures r == if |stream| + |bytes| <= capacity then Some(stream + bytes) else None
  {
    if |stream| + |bytes| > capacity {
      return None;
    }
    return Some(stream + bytes);
  }

  function ReadingBytes(m: Measurement, historical: bool): seq<byte> {
    var metrics := MeasurementMetrics(m, historical);
    EncodeField(MetricField(metrics[0])) + EncodeField(MetricField(metrics[1]))
  }

  method EncodeReading(stream: seq<byte>, m: Measurement, historical: bool, capacity: nat)
    returns (r: Option<seq<byte>>)
    ensures var both := ReadingBytes(m, historical);
            r == if |stream| + |both| <= capacity then Some(stream + both) else None
  {
    var metrics := MeasurementMetrics(m, historical);
    var t, b := EncodeField(MetricField(metrics[0])), EncodeField(MetricField(metrics[1]));
    var first := Append(stream, t, capacity);
    if first.None? {
      return None;
    }
    assert stream + t + b == stream + (t + b);
    r := Append(first.value, b, capacity);
  }

  function ReadingsBytes(ms: seq<Measurement>, historical: bool): seq<byte> {
    if ms == [] then [] else ReadingBytes(ms[0], historical) + ReadingsBytes(ms[1..], historical)
  }

  lemma {:induction false} ReadingsBytesAreFields(ms: seq<Measurement>, historical: bool)
    ensures ReadingsBytes(ms, historical) == EncodeFields(ReadingFields(ms, historical))
  {
    if ms != [] {
      ReadingsBytesAreFields(ms[1..], historical);
      var metrics := MeasurementMetrics(ms[0], historical);
      EncodeFieldPair(MetricField(metrics[0]), MetricField(metrics[1]), ReadingFields(ms[1..], historical));
    }
  }

  /** encode_metrics for NDATA: two metrics per reading, until the stream is full. */
  method EncodeReadings(stream: seq<byte>, ms: seq<Measurement>, historical: bool, capacity: nat)
    returns (r: Option<seq<byte>>)
    requires |stream| <= capacity
    ensures var all := ReadingsBytes(ms, historical);
            r == if |stream| + |all| <= capacity then Some(stream + all) else None
  {
    var out := stream;
    ghost var total := stream + ReadingsBytes(ms, historical);
    ghost var rest := ReadingsBytes(ms, historical);
    var i := 0;
    assert ms[0..] == ms;
    while i < |ms|
      invariant 0 <= i <= |ms| && |out| <= capacity
      invariant rest == ReadingsBytes(ms[i..], historical)
      invariant total == out + rest
    {
      assert ms[i..][0] == ms[i] && ms[i..][1..] == ms[i + 1..];
      ghost var after := ReadingsBytes(ms[i + 1..], historical);
      var next := EncodeReading(out, ms[i], historical, capacity);
      Regroup(out, ReadingBytes(ms[i], historical), after);
      if next.None? {
        assert |total| > capacity;
        return None;
      }
      out, i, rest := next.value, i + 1, after;
    }
    assert rest == [] && out == total by {
      assert ms[i..] == [];
    }
    return Some(out);
  }

  method EncodeNdata(ms: seq<Measurement>, current: uint8, historical: bool, capacity: nat)
    returns (r: Result<seq<byte>, Errno>)
    ensures r == if ms == [] then Err(EINVAL)
                 else if |NdataBytes(ms, current, historical)| <= capacity then Ok(NdataBytes(ms, current, historical))
                 else Err(EMSGSIZE)
  {
    if ms == [] {
      return Err(EINVAL);
    }
    var head := EncodeFields(HeaderFields(TimestampMs(ms[|ms| - 1].timestamp)));
    SeqSize(current);
    EncodeFieldsAppend(HeaderFields(TimestampMs(ms[|ms| - 1].timestamp)), ReadingFields(ms, historical));
    EncodeFieldsAppend(HeaderFields(TimestampMs(ms[|ms| - 1].timestamp))
      + ReadingFields(ms, historical), [SeqField(current)]);
    var stream := Append([], head, capacity);
    if stream.None? {
      return Err(EMSGSIZE);
    }
    assert [] + head == head;
    ReadingsBytesAreFields(ms, historical);
    var body := EncodeReadings(stream.value, ms, historical, capacity);
    if body.None? {
      return Err(EMSGSIZE);
    }
    var all := Append(body.value, EncodeFields([SeqField(current)]), capacity);
    return if all.None? then Err(EMSGSIZE) else Ok(all.value);
  }

  method EncodeNbirth(timestampMs: uint64, bdSeq: uint8, capacity: nat) returns (r: Result<seq<byte>, Errno>)
    ensures r == if |NbirthBytes(timestampMs, bdSeq)| <= capacity then Ok(NbirthBytes(timestampMs, bdSeq))
            else Err(EMSGSIZE)
    ensures capacity >= 61 ==> r.Ok?
  {
    NbirthSizeBound(timestampMs, bdSeq);
    var stream := Append([], EncodeFields(NbirthFields(timestampMs, bdSeq)), capacity);
    assert [] + NbirthBytes(timestampMs, bdSeq) == NbirthBytes(timestampMs, bdSeq);
    return if stream.None? then Err(EMSGSIZE) else Ok(stream.value);
  }
}

/** The encoder of the firmware and the decoder of the ingest service, written
    independently in two languages, undo each other. */
module CodecRoundTrip {
  import opened Common
  import opened Wire
  import opened FieldDecoder
  import P = PayloadDecoder
  import S = Sparkplug

  /** What decode_metric makes of the metrics the encoder writes. */
  function Decoded(m: S.Metric): P.Metric {
    P.Metric(Some(m.name),
             if m.timestamp.Some? then Some(Int(m.timestamp.value)) else None,
             m.isNull,
             match m.value
             case NoValue => None
             case LongValue(n) => Some(P.Raw(Int(n)))
             case FloatValue(bits) => Some(P.SingleNumber(bits)))
  }

  lemma {:induction false} FoldMetricAppend(a: seq<Field>, b: seq<Field>, m: P.Metric)
    requires P.FoldMetric(a, m).Ok?
    ensures P.FoldMetric(a + b, m) == P.FoldMetric(b, P.FoldMetric(a, m).value)
  {
    if a == [] {
      assert a + b == b;
    } else {
      assert (a + b)[1..] == a[1..] + b;
      FoldMetricAppend(a[1..], b, P.ApplyMetricField(m, a[0]).value);
    }
  }

  lemma FoldOne(f: Field, m: P.Metric)
    requires P.ApplyMetricField(m, f).Ok?
    ensures P.FoldMetric([f], m) == P.ApplyMetricField(m, f)
  {
    assert [f][1..] == [];
  }

  ghost predicate Ascii(s: seq<byte>) {
    forall i :: 0 <= i < |s| ==> s[i] < 0x80
  }

  lemma MetricRoundTrip(m: S.Metric)
    requires S.ValidMetric(m) && Ascii(m.name)
    ensures P.MetricOf(EncodeFields(S.MetricFields(m))) == Ok(Decoded(m))
  {
    AsciiIsUtf8(m.name);
    FieldsRoundTrip(S.MetricFields(m));
    FoldMetricFields(m);
  }

  /** The six parts of a metric, folded one after another. */
  lemma FoldMetricFields(m: S.Metric)
    requires S.ValidMetric(m) && P.IsUtf8(m.name)
    ensures P.FoldMetric(S.MetricFields(m), P.EmptyMetric) == Ok(Decoded(m))
  {
    var m1 := P.EmptyMetric.(name := Some(m.name));
    var m2 := if m.timestamp.Some? then m1.(timestamp := Some(Int(m.timestamp.value))) else m1;
    var m3 := m2.(isNull := m.isNull);
    FoldOne(Field(1, 2, Blob(m.name)), P.EmptyMetric);
    if m.timestamp.Some? { FoldOne(S.TimePart(m)[0], m1); }
    FoldOne(Field(4, 0, Int(m.datatypeCode)), m2);
    FoldFlags(m, m2);
    FoldValue(m, m3);
    FoldSix([Field(1, 2, Blob(m.name))], S.TimePart(m), [Field(4, 0, Int(m.datatypeCode))],
            S.FlagPart(5, m.historical), S.FlagPart(7, m.isNull), S.ValuePart(m), P.EmptyMetric, m1, m2, m3);
  }

  lemma FoldFlags(m: S.Metric, before: P.Metric)
    requires !before.isNull
    ensures P.FoldMetric(S.FlagPart(5, m.historical), before) == Ok(before)
    ensures P.FoldMetric(S.FlagPart(7, m.isNull), before) == Ok(before.(isNull := m.isNull))
  {
    if m.historical { FoldOne(Field(5, 0, Int(1)), before); }
    if m.isNull { FoldOne(Field(7, 0, Int(1)), before); }
  }

  lemma FoldValue(m: S.Metric, before: P.Metric)
    requires S.ValidMetric(m) && before.value == None
    ensures P.FoldMetric(S.ValuePart(m), before) == Ok(before.(value := Decoded(m).value))
  {
    if !m.value.NoValue? {
      if m.value.FloatValue? {
        assert Pow256(4) == 0x1_0000_0000;
        LittleEndianRoundTrip(m.value.bits, 4);
      }
      FoldOne(S.ValuePart(m)[0], before);
    }
  }

  lemma FoldSix(a: seq<Field>, b: seq<Field>, c: seq<Field>, d: seq<Field>, e: seq<Field>, f: seq<Field>,
                m0: P.Metric, m1: P.Metric, m2: P.Metric, m3: P.Metric)
    requires P.FoldMetric(a, m0) == Ok(m1) && P.FoldMetric(b, m1) == Ok(m2) && P.FoldMetric(c, m2) == Ok(m2)
    requires P.FoldMetric(d, m2) == Ok(m2) && P.FoldMetric(e, m2) == Ok(m3)
    ensures P.FoldMetric(a + b + c + d + e + f, m0) == P.FoldMetric(f, m3)
  {
    FoldMetricAppend(a, b, m0);
    FoldMetricAppend(a + b, c, m0);
    FoldMetricAppend(a + b + c, d, m0);
    FoldMetricAppend(a + b + c + d, e, m0);
    FoldMetricAppend(a + b + c + d + e, f, m0);
  }

  lemma {:induction false} AsciiIsUtf8(s: seq<byte>)
    requires Ascii(s)
    ensures P.IsUtf8(s)
  {
    if s != [] { AsciiIsUtf8(s[1..]); }
  }

  /** The metrics of an NDATA as the decoder returns them: per reading its
      temperature and battery with the reading's own timestamp. */
  function DecodedReadings(ms: seq<Measurement>): seq<P.Metric> {
    if ms == [] then [] else DecodedReading(ms[0]) + DecodedReadings(ms[1..])
  }

  function DecodedReading(m: Measurement): seq<P.Metric> {
    var time := Some(Int(S.TimestampMs(m.timestamp)));
    [P.Metric(Some(S.TemperatureName), time, false, Some(P.SingleNumber(S.CentiBits(m.temperature)))),
     P.Metric(Some(S.BatteryName), time, false, Some(P.SingleNumber(S.CentiBits(m.battery))))]
  }

  lemma {:induction false} FoldItemsAppend(a: seq<P.Item>, b: seq<P.Item>, p: P.Payload)
    requires P.FoldItems(a, p).Ok?
    ensures P.FoldItems(a + b, p) == P.FoldItems(b, P.FoldItems(a, p).value)
  {
    if a == [] {
      assert a + b == b;
    } else {
      assert (a + b)[1..] == a[1..] + b;
      match a[0] {
        case Time(t) => FoldItemsAppend(a[1..], b, p.(timestamp := Some(t)));
        case MetricItem(m) => FoldItemsAppend(a[1..], b, p.(metrics := p.metrics + [m]));
        case Bad(_) =>
        case SeqItem(s) => FoldItemsAppend(a[1..], b, p.(current := Some(s)));
        case Skipped => FoldItemsAppend(a[1..], b, p);
      }
    }
  }

  function MetricItems(metrics: seq<P.Metric>): (items: seq<P.Item>)
    ensures |items| == |metrics|
  {
    seq(|metrics|, i requires 0 <= i < |metrics| => P.MetricItem(metrics[i]))
  }

  lemma {:induction false} FoldMetricItems(metrics: seq<P.Metric>, p: P.Payload)
    ensures P.FoldItems(MetricItems(metrics), p) == Ok(p.(metrics := p.metrics + metrics))
  {
    if metrics == [] {
      assert p.metrics + [] == p.metrics;
    } else {
      assert MetricItems(metrics)[1..] == MetricItems(metrics[1..]);
      FoldMetricItems(metrics[1..], p.(metrics := p.metrics + [metrics[0]]));
      assert p.metrics + [metrics[0]] + metrics[1..] == p.metrics + metrics;
    }
  }

  type MetricDecoder = seq<byte> -> Result<P.Metric, Error>

  /** decode gives back every metric the encoder can write. */
  ghost predicate Inverts(decode: MetricDecoder) {
    forall m: S.Metric :: S.ValidMetric(m) && Ascii(m.name) ==>
      decode(EncodeFields(S.MetricFields(m))) == Ok(Decoded(m))
  }

  lemma MetricOfInverts()
    ensures Inverts(P.MetricOf)
  {
    forall m: S.Metric | S.ValidMetric(m) && Ascii(m.name)
      ensures P.MetricOf(EncodeFields(S.MetricFields(m))) == Ok(Decoded(m))
    {
      MetricRoundTrip(m);
    }
  }

  lemma MetricFieldItem(decode: MetricDecoder, m: S.Metric)
    requires Inverts(decode) && S.ValidMetric(m) && Ascii(m.name)
    ensures P.ItemOf(decode, S.MetricField(m)) == P.MetricItem(Decoded(m))
  {
  }

  lemma {:induction false} ReadingFieldItems(decode: MetricDecoder, ms: seq<Measurement>, historical: bool)
    requires Inverts(decode)
    ensures P.Items(decode, S.ReadingFields(ms, historical)) == MetricItems(DecodedReadings(ms))
  {
    if ms != [] {
      var metrics := S.MeasurementMetrics(ms[0], historical);
      MetricFieldItem(decode, metrics[0]);
      MetricFieldItem(decode, metrics[1]);
      ReadingFieldItems(decode, ms[1..], historical);
      PairItems(decode, S.MetricField(metrics[0]), S.MetricField(metrics[1]), S.ReadingFields(ms[1..], historical),
                DecodedReading(ms[0]), DecodedReadings(ms[1..]));
    }
  }

  lemma PairItems(decode: MetricDecoder, f: Field, g: Field, rest: seq<Field>, two: seq<P.Metric>, more: seq<P.Metric>)
    requires |two| == 2 && P.ItemOf(decode, f) == P.MetricItem(two[0]) && P.ItemOf(decode, g) == P.MetricItem(two[1])
    requires P.Items(decode, rest) == MetricItems(more)
    ensures P.Items(decode, [f, g] + rest) == MetricItems(two + more)
  {
    assert P.Items(decode, [f, g] + rest) == P.Items(decode, [f, g]) + P.Items(decode, rest);
    assert MetricItems(two + more) == MetricItems(two) + MetricItems(more);
  }

  function HeaderItems(ts: nat): seq<P.Item> {
    if ts != 0 then [P.Time(Int(ts))] else []
  }

  /** Header, metrics, seq: the shape of both message types. */
  lemma FoldMessage(ts: nat, metrics: seq<P.Metric>, current: uint8)
    ensures P.FoldItems(HeaderItems(ts) + MetricItems(metrics) + [P.SeqItem(Int(current))], P.EmptyPayload)
         == Ok(P.Payload(Some(Int(current)), if ts != 0 then Some(Int(ts)) else None, metrics))
  {
    var header := HeaderItems(ts);
    var p := P.EmptyPayload.(timestamp := if ts != 0 then Some(Int(ts)) else None);
    assert ts != 0 ==> header[1..] == [];
    FoldItemsAppend(header, MetricItems(metrics), P.EmptyPayload);
    FoldMetricItems(metrics, p);
    assert [] + metrics == metrics;
    FoldItemsAppend(header + MetricItems(metrics), [P.SeqItem(Int(current))], P.EmptyPayload);
    assert [P.SeqItem(Int(current))][1..] == [];
  }

  lemma MessageItems(decode: MetricDecoder, ts: nat, middle: seq<Field>, current: uint8)
    requires ts < TwoTo64
    ensures P.Items(decode, S.HeaderFields(ts) + middle + [S.SeqField(current)])
         == HeaderItems(ts) + P.Items(decode, middle) + [P.SeqItem(Int(current))]
  {
  }

  /** Decoding an encoded NDATA returns its sequence number, the timestamp of
      the last reading and every metric, bit for bit, in order. */
  lemma NdataRoundTrip(ms: seq<Measurement>, current: uint8, historical: bool)
    requires ms != []
    ensures var ts := S.TimestampMs(ms[|ms| - 1].timestamp);
            P.PayloadOf(S.NdataBytes(ms, current, historical)) ==
            Ok(P.Payload(Some(Int(current)), if ts != 0 then Some(Int(ts)) else None, DecodedReadings(ms)))
  {
    var ts := S.TimestampMs(ms[|ms| - 1].timestamp);
    FieldsRoundTrip(S.NdataFields(ms, current, historical));
    MetricOfInverts();
    MessageItems(P.MetricOf, ts, S.ReadingFields(ms, historical), current);
    ReadingFieldItems(P.MetricOf, ms, historical);
    FoldMessage(ts, DecodedReadings(ms), current);
  }

  function DecodedBirth(bdSeq: uint8): seq<P.Metric> {
    [P.Metric(Some(S.BdSeqName), None, false, Some(P.Raw(Int(bdSeq)))),
     P.Metric(Some(S.TemperatureName), None, true, None),
     P.Metric(Some(S.BatteryName), None, true, None)]
  }

  /** Decoding an encoded NBIRTH returns seq 0, bdSeq and the two declared, valueless metrics. */
  lemma NbirthRoundTrip(timestampMs: nat, bdSeq: uint8)
    requires timestampMs < TwoTo64
    ensures P.PayloadOf(S.NbirthBytes(timestampMs, bdSeq)) ==
            Ok(P.Payload(Some(Int(0)), if timestampMs != 0 then Some(Int(timestampMs)) else None, DecodedBirth(bdSeq)))
  {
    FieldsRoundTrip(S.NbirthFields(timestampMs, bdSeq));
    MetricOfInverts();
    MessageItems(P.MetricOf, timestampMs, BirthMiddle(bdSeq), 0);
    BirthItems(P.MetricOf, bdSeq);
    FoldMessage(timestampMs, DecodedBirth(bdSeq), 0);
  }

  function BirthMiddle(bdSeq: uint8): seq<Field> {
    [S.MetricField(S.BdSeqMetric(bdSeq)), S.MetricField(S.NullMetric(S.TemperatureName)),
     S.MetricField(S.NullMetric(S.BatteryName))]
  }

  lemma BirthItems(decode: MetricDecoder, bdSeq: uint8)
    requires Inverts(decode)
    ensures P.Items(decode, BirthMiddle(bdSeq)) == MetricItems(DecodedBirth(bdSeq))
  {
    var a, b, c := S.BdSeqMetric(bdSeq), S.NullMetric(S.TemperatureName), S.NullMetric(S.BatteryName);
    MetricFieldItem(decode, a);
    MetricFieldItem(decode, b);
    MetricFieldItem(decode, c);
  }
}

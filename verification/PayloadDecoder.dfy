/** decode_metric and decode_sparkplug_payload of the ingest service. Both
    consume the field generator in a loop, so an exception about a field
    already yielded comes before one about the bytes after it. */
module PayloadDecoder {
  import opened Common
  import opened Wire
  import opened FieldDecoder

  /** A metric value as Python holds it. */
  datatype Number = Raw(value: Value) | SingleNumber(single: uint32) | DoubleNumber(double: uint64)

  datatype Metric = Metric(name: Option<seq<byte>>, timestamp: Option<Value>, isNull: bool, value: Option<Number>)

  datatype Payload = Payload(current: Option<Value>, timestamp: Option<Value>, metrics: seq<Metric>)

  const EmptyMetric := Metric(None, None, false, None)
  const EmptyPayload := Payload(None, None, [])

  predicate Continuation(b: byte) {
    0x80 <= b < 0xc0
  }

  /** Well-formed UTF-8 (section 4 of RFC 3629). */
  predicate IsUtf8(s: seq<byte>) {
    if s == [] then true
    else if s[0] < 0x80 then IsUtf8(s[1..])
    else if 0xc2 <= s[0] < 0xe0 then |s| >= 2 && Continuation(s[1]) && IsUtf8(s[2..])
    else if 0xe0 <= s[0] < 0xf0 then
      && |s| >= 3 && Continuation(s[1]) && Continuation(s[2])
      && (s[0] == 0xe0 ==> s[1] >= 0xa0) && (s[0] == 0xed ==> s[1] < 0xa0)
      && IsUtf8(s[3..])
    else if 0xf0 <= s[0] < 0xf5 then
      && |s| >= 4 && Continuation(s[1]) && Continuation(s[2]) && Continuation(s[3])
      && (s[0] == 0xf0 ==> s[1] >= 0x90) && (s[0] == 0xf4 ==> s[1] < 0x90)
      && IsUtf8(s[4..])
    else false
  }

  /** bool(value) in Python. */
  predicate Truthy(v: Value) {
    match v case Int(n) => n != 0 case Blob(b) => b != []
  }

  /** One turn of the loop in decode_metric. Unknown fields are skipped. */
  function ApplyMetricField(m: Metric, f: Field): Result<Metric, Error> {
    if f.number == 1 then
      if f.value.Int? then Err(AttributeError)
      else if IsUtf8(f.value.bytes) then Ok(m.(name := Some(f.value.bytes)))
      else Err(ValueError)
    else if f.number == 3 then Ok(m.(timestamp := Some(f.value)))
    else if f.number == 7 then Ok(m.(isNull := Truthy(f.value)))
    else if f.number == 10 || f.number == 11 || f.number == 14 then Ok(m.(value := Some(Raw(f.value))))
    else if f.number == 12 then
      if f.value.Int? then Err(TypeError)
      else if |f.value.bytes| != 4 then Err(StructError)
      else
        assert Pow256(4) == 0x1_0000_0000;
        Ok(m.(value := Some(SingleNumber(FromLittleEndian(f.value.bytes)))))
    else if f.number == 13 then
      if f.value.Int? then Err(TypeError)
      else if |f.value.bytes| != 8 then Err(StructError)
      else
        assert Pow256(4) == 0x1_0000_0000 && Pow256(8) == 0x1_0000_0000_0000_0000 by { Pow256Eight(); }
        Ok(m.(value := Some(DoubleNumber(FromLittleEndian(f.value.bytes)))))
    else Ok(m)
  }

  lemma Pow256Eight()
    ensures Pow256(4) == 0x1_0000_0000 && Pow256(8) == 0x1_0000_0000_0000_0000
  {
    assert Pow256(6) == 256 * Pow256(5) && Pow256(5) == 256 * Pow256(4);
    assert Pow256(8) == 256 * Pow256(7) && Pow256(7) == 256 * Pow256(6);
  }

  function FoldMetric(fields: seq<Field>, m: Metric): Result<Metric, Error> {
    if fields == [] then Ok(m)
    else match ApplyMetricField(m, fields[0])
      case Err(e) => Err(e)
      case Ok(m') => FoldMetric(fields[1..], m')
  }

  /** The exception that ends the generator is raised after its last field is used. */
  function EndWith<T>(r: Result<T, Error>, error: Option<Error>): Result<T, Error> {
    if r.Ok? && error.Some? then Err(error.value) else r
  }

  function MetricOf(data: seq<byte>): Result<Metric, Error> {
    var (fields, error) := TakeFields(data);
    EndWith(FoldMetric(fields, EmptyMetric), error)
  }

  /** What one field of the payload contributes. */
  datatype Item = Time(t: Value) | MetricItem(m: Metric) | Bad(e: Error) | SeqItem(s: Value) | Skipped

  /** `decode` is what decode_metric does with the bytes of field 2. */
  function ItemOf(decode: seq<byte> -> Result<Metric, Error>, f: Field): Item {
    if f.number == 1 then Time(f.value)
    else if f.number == 2 then
      if f.value.Int? then Bad(TypeError)
      else match decode(f.value.bytes) case Err(e) => Bad(e) case Ok(m) => MetricItem(m)
    else if f.number == 3 then SeqItem(f.value)
    else Skipped
  }

  function Items(decode: seq<byte> -> Result<Metric, Error>, fields: seq<Field>): (items: seq<Item>)
    ensures |items| == |fields|
    ensures forall i :: 0 <= i < |fields| ==> items[i] == ItemOf(decode, fields[i])
  {
    seq(|fields|, i requires 0 <= i < |fields| => ItemOf(decode, fields[i]))
  }

  /** A later timestamp or seq replaces an earlier one; metrics accumulate. */
  function FoldItems(items: seq<Item>, p: Payload): Result<Payload, Error> {
    if items == [] then Ok(p)
    else match items[0]
      case Time(t) => FoldItems(items[1..], p.(timestamp := Some(t)))
      case MetricItem(m) => FoldItems(items[1..], p.(metrics := p.metrics + [m]))
      case Bad(e) => Err(e)
      case SeqItem(s) => FoldItems(items[1..], p.(current := Some(s)))
      case Skipped => FoldItems(items[1..], p)
  }

  function PayloadOf(data: seq<byte>): Result<Payload, Error> {
    var (fields, error) := TakeFields(data);
    EndWith(FoldItems(Items(MetricOf, fields), EmptyPayload), error)
  }

  // ---------------------------------------------------------------- the loops

  method DecodeMetric(data: seq<byte>) returns (r: Result<Metric, Error>)
    ensures r == MetricOf(data)
  {
    var fields, error := DecodeFields(data);
    var metric := EmptyMetric;
    var i := 0;
    assert fields[0..] == fields;
    while i < |fields|
      invariant 0 <= i <= |fields|
      invariant FoldMetric(fields, EmptyMetric) == FoldMetric(fields[i..], metric)
    {
      assert fields[i..][1..] == fields[i + 1..];
      var next := ApplyMetricField(metric, fields[i]);
      if next.Err? {
        return Err(next.error);
      }
      metric, i := next.value, i + 1;
    }
    return EndWith(Ok(metric), error);
  }

  method DecodeSparkplugPayload(data: seq<byte>) returns (r: Result<Payload, Error>)
    ensures r == PayloadOf(data)
  {
    var fields, error := DecodeFields(data);
    var payload := EmptyPayload;
    var i := 0;
    ghost var items := Items(MetricOf, fields);
    assert items[0..] == items;
    while i < |fields|
      invariant 0 <= i <= |fields|
      invariant FoldItems(items, EmptyPayload) == FoldItems(items[i..], payload)
    {
      var f := fields[i];
      assert items[i..][0] == ItemOf(MetricOf, f) && items[i..][1..] == items[i + 1..];
      if f.number == 1 {
        payload := payload.(timestamp := Some(f.value));
      } else if f.number == 2 {
        if f.value.Int? {
          return Err(TypeError);
        }
        var metric := DecodeMetric(f.value.bytes);
        if metric.Err? {
          return Err(metric.error);
        }
        payload := payload.(metrics := payload.metrics + [metric.value]);
      } else if f.number == 3 {
        payload := payload.(current := Some(f.value));
      }
      i := i + 1;
    }
    return EndWith(Ok(payload), error);
  }
}

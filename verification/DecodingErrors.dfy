/** Which exception a message that cannot be decoded raises: that of the first part
    that is wrong. `process` catches some of them and dies on the others. */
module DecodingErrors {
  import opened Common
  import opened FieldDecoder
  import opened PayloadMeaning
  import opened Wire
  import M = MessageRows
  import P = PayloadDecoder
  import R = SparkplugRows
  import RM = RowMeaning
  import U = UnixTime

  // ------------------------------------------------------------------ metrics

  /** What a field raises that a metric cannot have: a number has no decode method,
      text must be UTF-8, and struct.unpack wants bytes, and as many as it needs. */
  function FieldError(f: Field): Error {
    if f.number == 1 then (if f.value.Int? then AttributeError else ValueError)
    else if f.value.Int? then TypeError
    else StructError
  }

  /** What the first bad field raises. */
  function FirstError(fields: seq<Field>): Option<Error> {
    if fields == [] then None
    else if !GoodField(fields[0]) then Some(FieldError(fields[0]))
    else FirstError(fields[1..])
  }

  lemma {:induction false} FoldRaises(fields: seq<Field>, m: P.Metric)
    ensures match FirstError(fields)
            case Some(e) => P.FoldMetric(fields, m) == Err(e)
            case None => P.FoldMetric(fields, m).Ok?
  {
    if fields != [] && GoodField(fields[0]) { FoldRaises(fields[1..], P.ApplyMetricField(m, fields[0]).value); }
  }

  /** decode_metric raises what the first bad field raises, and else the ValueError
      of bytes that are no fields. */
  lemma MetricErrors(data: seq<byte>)
    ensures var (fields, error) := TakeFields(data);
            match FirstError(fields)
            case Some(e) => P.MetricOf(data) == Err(e)
            case None => if error.Some? then P.MetricOf(data) == Err(ValueError) else P.MetricOf(data).Ok?
  {
    FoldRaises(TakeFields(data).0, P.EmptyMetric);
    FieldsError(data);
  }

  /** The generator fails only with a ValueError. */
  lemma {:induction false} FieldsError(s: seq<byte>)
    ensures TakeFields(s).1 == None || TakeFields(s).1 == Some(ValueError)
    decreases |s|
  {
    if s != [] {
      TakeFieldError(s);
      if TakeField(s).Ok? { FieldsError(s[TakeField(s).value.1..]); }
    }
  }

  // ----------------------------------------------------------------- payloads

  /** What the first metric raises that is a number or cannot be decoded. */
  function FirstItemError(fields: seq<Field>): Option<Error> {
    if fields == [] then None
    else if fields[0].number == 2 && fields[0].value.Int? then Some(TypeError)
    else if fields[0].number == 2 && P.MetricOf(fields[0].value.bytes).Err?
    then Some(P.MetricOf(fields[0].value.bytes).error)
    else FirstItemError(fields[1..])
  }

  lemma {:induction false} ItemsRaise(fields: seq<Field>, p: P.Payload)
    ensures match FirstItemError(fields)
            case Some(e) => P.FoldItems(P.Items(P.MetricOf, fields), p) == Err(e)
            case None => P.FoldItems(P.Items(P.MetricOf, fields), p).Ok?
  {
    if fields != [] {
      var items := P.Items(P.MetricOf, fields);
      assert items[1..] == P.Items(P.MetricOf, fields[1..]);
      match items[0] {
        case Time(t) => ItemsRaise(fields[1..], p.(timestamp := Some(t)));
        case MetricItem(m) => ItemsRaise(fields[1..], p.(metrics := p.metrics + [m]));
        case Bad(_) =>
        case SeqItem(s) => ItemsRaise(fields[1..], p.(current := Some(s)));
        case Skipped => ItemsRaise(fields[1..], p);
      }
    }
  }

  /** The same for decode_sparkplug_payload and its metrics. */
  lemma PayloadErrors(data: seq<byte>)
    ensures var (fields, error) := TakeFields(data);
            match FirstItemError(fields)
            case Some(e) => P.PayloadOf(data) == Err(e)
            case None => if error.Some? then P.PayloadOf(data) == Err(ValueError) else P.PayloadOf(data).Ok?
  {
    ItemsRaise(TakeFields(data).0, P.EmptyPayload);
    FieldsError(data);
  }

  // --------------------------------------------------------------------- rows

  lemma {:induction false} MetricsRaise(round: R.Rounding, r: R.Readings, metrics: seq<P.Metric>, t: Option<Value>)
    requires forall n :: round(n).Err? ==> round(n) == Err(ValueError)
    requires R.AddMetrics(round, r, metrics, t).Err?
    ensures R.AddMetrics(round, r, metrics, t) == Err(ValueError)
    decreases |metrics|
  {
    if metrics != [] {
      var next := R.AddMetric(round, r, metrics[0], t);
      if next.Ok? { MetricsRaise(round, next.value, metrics[1..], t); }
    }
  }

  lemma {:induction false} RowsRaise(edge: string, group: string, keys: seq<nat>, cells: map<nat, R.Reading>)
    requires forall k :: k in keys ==> k in cells
    requires R.BuildRows(edge, group, keys, cells).Err? && R.BuildRows(edge, group, keys, cells) != Err(ValueError)
    ensures exists k :: k in keys && U.TimestampNs(k) == Err(OsError)
    ensures R.BuildRows(edge, group, keys, cells) == Err(OsError)
  {
    var row := R.BuildRow(edge, group, keys[0], cells[keys[0]]);
    if row.Ok? {
      RowsRaise(edge, group, keys[1..], cells);
      var k :| k in keys[1..] && U.TimestampNs(k) == Err(OsError);
      assert k in keys;
    } else {
      assert keys[0] in keys;
    }
  }

  /** Once the payload is decoded, only a time of 2^64 milliseconds or more can raise
      anything but a ValueError. */
  lemma LinesRaise(parse: R.Parser, topic: string, data: seq<byte>)
    requires P.PayloadOf(data).Ok? && R.SparkplugLines(parse, topic, data).Err?
    requires R.SparkplugLines(parse, topic, data) != Err(ValueError)
    ensures R.SparkplugLines(parse, topic, data) == Err(OsError)
    ensures var p := P.PayloadOf(data).value;
            exists key: nat ::
              RM.Timed(p.metrics, p.timestamp, key) && key >= TwoTo64 && U.TimestampNs(key) == Err(OsError)
  {
    var p, round := P.PayloadOf(data).value, R.RoundedWith(parse);
    var r := R.AddMetrics(round, R.Empty, p.metrics, p.timestamp);
    RM.MetricsFill(round, p.metrics, p.timestamp);
    if r.Err? {
      MetricsRaise(round, R.Empty, p.metrics, p.timestamp);
    } else {
      R.AddMetricsValid(round, R.Empty, p.metrics, p.timestamp);
      R.SortSorts(r.value.order);
      RowsRaise(R.Split(topic)[3], R.Split(topic)[1], R.Sort(r.value.order), r.value.cells);
      var k :| k in R.Sort(r.value.order) && U.TimestampNs(k) == Err(OsError);
      if k < TwoTo64 { U.NeverOsError(k); }
    }
  }

  /** A Sparkplug message ends the writer thread if and only if its topic has four
      parts and the first part of it that is wrong is a number for a name or a float
      or double of the wrong size, or it is decoded and has a time of 2^64 or more
      milliseconds that reaches gmtime. */
  lemma CrashesIff(v: M.Service, m: M.Message)
    requires |m.topic| >= 8 && m.topic[..8] == "spBv1.0/"
    ensures M.Parse(v, m).Crashes? <==>
              && |R.Split(m.topic)| >= 4 && R.Split(m.topic)[0] == "spBv1.0"
              && match P.PayloadOf(m.payload)
                 case Err(e) => e == AttributeError || e == StructError
                 case Ok(_) => R.SparkplugLines(v.float, m.topic, m.payload) == Err(OsError)
  {
    var lines, p := R.SparkplugLines(v.float, m.topic, m.payload), P.PayloadOf(m.payload);
    if p.Ok? {
      if lines.Err? && lines != Err(ValueError) { LinesRaise(v.float, m.topic, m.payload); }
    } else {
      PayloadRaises(m.payload);
    }
  }

  lemma {:induction false} FieldsRaise(fields: seq<Field>)
    ensures FirstError(fields) != Some(OsError)
  {
    if fields != [] { FieldsRaise(fields[1..]); }
  }

  lemma {:induction false} PartsRaise(fields: seq<Field>)
    ensures FirstItemError(fields) != Some(OsError)
  {
    if fields != [] {
      PartsRaise(fields[1..]);
      if fields[0].value.Blob? {
        MetricErrors(fields[0].value.bytes);
        FieldsRaise(TakeFields(fields[0].value.bytes).0);
      }
    }
  }

  /** Decoding never raises an OSError. */
  lemma PayloadRaises(data: seq<byte>)
    ensures P.PayloadOf(data) != Err(OsError)
  {
    PayloadErrors(data);
    PartsRaise(TakeFields(data).0);
  }
}

/** What a decoded payload means, said without the loops: which byte strings are
    accepted, and which field each part of the result comes from. In particular a
    message that is cut short inside a field is refused. */
module PayloadMeaning {
  import opened Common
  import opened Wire
  import opened FieldDecoder
  import C = CodecRoundTrip
  import P = PayloadDecoder
  import R = SparkplugRows

  type MetricDecoder = seq<byte> -> Result<P.Metric, Error>

  /** The last field with one of these numbers: a later one replaces an earlier one. */
  function Last(fields: seq<Field>, numbers: set<nat>): Option<Field>
    decreases |fields|
  {
    if fields == [] then None
    else if fields[|fields| - 1].number in numbers then Some(fields[|fields| - 1])
    else Last(fields[..|fields| - 1], numbers)
  }

  function ValueOf(f: Option<Field>): Option<Value> {
    match f case None => None case Some(field) => Some(field.value)
  }

  // ------------------------------------------------------------------ metrics

  /** A name is text, and a float or double has as many bytes as it needs. */
  predicate GoodField(f: Field) {
    && (f.number == 1 ==> f.value.Blob? && P.IsUtf8(f.value.bytes))
    && (f.number == 12 ==> f.value.Blob? && |f.value.bytes| == 4)
    && (f.number == 13 ==> f.value.Blob? && |f.value.bytes| == 8)
  }

  ghost predicate AllGood(fields: seq<Field>) {
    forall i :: 0 <= i < |fields| ==> GoodField(fields[i])
  }

  predicate IsName(name: Option<seq<byte>>, f: Option<Field>) {
    match f
    case None => name == None
    case Some(field) => field.value.Blob? && name == Some(field.value.bytes)
  }

  /** Anything but zero and the empty byte string makes a metric null. */
  predicate IsNull(isNull: bool, f: Option<Field>) {
    isNull <==> f.Some? && f.value.value != Int(0) && f.value.value != Blob([])
  }

  predicate IsNumber(number: Option<P.Number>, f: Option<Field>) {
    match f
    case None => number == None
    case Some(field) =>
      && number.Some?
      && match number.value
         case Raw(value) => field.number != 12 && field.number != 13 && value == field.value
         case SingleNumber(n) => field.number == 12 && field.value.Blob? && n == FromLittleEndian(field.value.bytes)
         case DoubleNumber(n) => field.number == 13 && field.value.Blob? && n == FromLittleEndian(field.value.bytes)
  }

  /** The metric that these fields make. */
  ghost predicate IsMetric(fields: seq<Field>, m: P.Metric) {
    && AllGood(fields)
    && IsName(m.name, Last(fields, {1}))
    && m.timestamp == ValueOf(Last(fields, {3}))
    && IsNull(m.isNull, Last(fields, {7}))
    && IsNumber(m.value, Last(fields, {10, 11, 12, 13, 14}))
  }

  lemma {:induction false} FoldStopsAtError(a: seq<Field>, b: seq<Field>, m: P.Metric)
    requires P.FoldMetric(a, m).Err?
    ensures P.FoldMetric(a + b, m) == P.FoldMetric(a, m)
  {
    assert (a + b)[0] == a[0] && (a + b)[1..] == a[1..] + b;
    var next := P.ApplyMetricField(m, a[0]);
    if next.Ok? { FoldStopsAtError(a[1..], b, next.value); }
  }

  /** One more field. */
  lemma FieldMakes(fields: seq<Field>, f: Field, m: P.Metric)
    requires IsMetric(fields, m)
    ensures P.ApplyMetricField(m, f).Ok? <==> GoodField(f)
    ensures GoodField(f) ==> IsMetric(fields + [f], P.ApplyMetricField(m, f).value)
  {
    assert (fields + [f])[..|fields|] == fields;
    assert Last(fields + [f], {1}) == if f.number == 1 then Some(f) else Last(fields, {1});
    assert Last(fields + [f], {3}) == if f.number == 3 then Some(f) else Last(fields, {3});
    assert Last(fields + [f], {7}) == if f.number == 7 then Some(f) else Last(fields, {7});
    assert Last(fields + [f], {10, 11, 12, 13, 14})
        == if f.number in {10, 11, 12, 13, 14} then Some(f) else Last(fields, {10, 11, 12, 13, 14});
  }

  lemma {:induction false} FoldMakes(fields: seq<Field>)
    ensures P.FoldMetric(fields, P.EmptyMetric).Ok? <==> AllGood(fields)
    ensures AllGood(fields) ==> IsMetric(fields, P.FoldMetric(fields, P.EmptyMetric).value)
    decreases |fields|
  {
    if fields != [] {
      var front, f := fields[..|fields| - 1], fields[|fields| - 1];
      assert fields == front + [f];
      FoldMakes(front);
      if P.FoldMetric(front, P.EmptyMetric).Ok? {
        var m := P.FoldMetric(front, P.EmptyMetric).value;
        C.FoldMetricAppend(front, [f], P.EmptyMetric);
        FieldMakes(front, f, m);
        OneField(f, m);
      } else {
        FoldStopsAtError(front, [f], P.EmptyMetric);
      }
    }
  }

  lemma OneField(f: Field, m: P.Metric)
    ensures P.FoldMetric([f], m) == P.ApplyMetricField(m, f)
  {
    assert [f][1..] == [];
  }

  lemma MetricIsUnique(fields: seq<Field>, m: P.Metric, m': P.Metric)
    requires IsMetric(fields, m) && IsMetric(fields, m')
    ensures m == m'
  {
  }

  /** decode_metric accepts a byte string, with this metric, exactly when the string
      is good fields laid end to end and the metric is what the last ones say. */
  lemma MetricIsDecoded(data: seq<byte>, m: P.Metric)
    ensures P.MetricOf(data) == Ok(m) <==> exists parts, fields :: Tiles(data, parts, fields) && IsMetric(fields, m)
  {
    if P.MetricOf(data) == Ok(m) {
      var fields := TakeFields(data).0;
      var parts := DecodedFieldsTile(data);
      FoldMakes(fields);
      assert Tiles(data, parts, fields) && IsMetric(fields, m);
    }
    forall parts, fields | Tiles(data, parts, fields) && IsMetric(fields, m)
      ensures P.MetricOf(data) == Ok(m)
    {
      TiledMessageDecodes(data, parts, fields);
      FoldMakes(fields);
      MetricIsUnique(fields, m, P.FoldMetric(fields, P.EmptyMetric).value);
    }
  }

  // ----------------------------------------------------------------- payloads

  /** The metrics of a payload, in order. */
  function MetricFields(fields: seq<Field>): (metrics: seq<Field>)
    ensures forall i :: 0 <= i < |metrics| ==> metrics[i] in fields
    decreases |fields|
  {
    if fields == [] then []
    else
      var front, f := MetricFields(fields[..|fields| - 1]), fields[|fields| - 1];
      if f.number == 2 then front + [f] else front
  }

  ghost predicate AreMetrics(decode: MetricDecoder, fields: seq<Field>, metrics: seq<P.Metric>) {
    && |fields| == |metrics|
    && forall i :: 0 <= i < |fields| ==> fields[i].value.Blob? && decode(fields[i].value.bytes) == Ok(metrics[i])
  }

  /** The payload that these fields make. */
  ghost predicate IsPayload(decode: MetricDecoder, fields: seq<Field>, p: P.Payload) {
    && p.timestamp == ValueOf(Last(fields, {1}))
    && p.current == ValueOf(Last(fields, {3}))
    && AreMetrics(decode, MetricFields(fields), p.metrics)
  }

  predicate GoodItem(decode: MetricDecoder, f: Field) {
    f.number == 2 ==> f.value.Blob? && decode(f.value.bytes).Ok?
  }

  ghost predicate GoodItems(decode: MetricDecoder, fields: seq<Field>) {
    forall i :: 0 <= i < |fields| ==> GoodItem(decode, fields[i])
  }

  lemma {:induction false} ItemsStopAtError(a: seq<P.Item>, b: seq<P.Item>, p: P.Payload)
    requires P.FoldItems(a, p).Err?
    ensures P.FoldItems(a + b, p) == P.FoldItems(a, p)
  {
    assert (a + b)[0] == a[0] && (a + b)[1..] == a[1..] + b;
    match a[0] {
      case Time(t) => ItemsStopAtError(a[1..], b, p.(timestamp := Some(t)));
      case MetricItem(m) => ItemsStopAtError(a[1..], b, p.(metrics := p.metrics + [m]));
      case Bad(_) =>
      case SeqItem(s) => ItemsStopAtError(a[1..], b, p.(current := Some(s)));
      case Skipped => ItemsStopAtError(a[1..], b, p);
    }
  }

  lemma ItemMakes(decode: MetricDecoder, fields: seq<Field>, f: Field, p: P.Payload)
    requires IsPayload(decode, fields, p)
    ensures var r := P.FoldItems([P.ItemOf(decode, f)], p);
            (r.Ok? <==> GoodItem(decode, f)) && (r.Ok? ==> IsPayload(decode, fields + [f], r.value))
  {
    assert (fields + [f])[..|fields|] == fields;
    assert [P.ItemOf(decode, f)][1..] == [];
    assert Last(fields + [f], {1}) == if f.number == 1 then Some(f) else Last(fields, {1});
    assert Last(fields + [f], {3}) == if f.number == 3 then Some(f) else Last(fields, {3});
  }

  lemma {:induction false} ItemsMake(decode: MetricDecoder, fields: seq<Field>)
    ensures var r := P.FoldItems(P.Items(decode, fields), P.EmptyPayload);
            (r.Ok? <==> GoodItems(decode, fields)) && (r.Ok? ==> IsPayload(decode, fields, r.value))
    decreases |fields|
  {
    if fields != [] {
      var front, f := fields[..|fields| - 1], fields[|fields| - 1];
      var items := P.Items(decode, front);
      assert P.Items(decode, fields) == items + [P.ItemOf(decode, f)];
      ItemsMake(decode, front);
      var r := P.FoldItems(items, P.EmptyPayload);
      if r.Ok? {
        C.FoldItemsAppend(items, [P.ItemOf(decode, f)], P.EmptyPayload);
        ItemMakes(decode, front, f, r.value);
        assert fields == front + [f];
      } else {
        ItemsStopAtError(items, [P.ItemOf(decode, f)], P.EmptyPayload);
      }
    }
  }

  lemma PayloadIsUnique(decode: MetricDecoder, fields: seq<Field>, p: P.Payload, p': P.Payload)
    requires IsPayload(decode, fields, p) && IsPayload(decode, fields, p')
    ensures p == p'
  {
    assert p.metrics == p'.metrics;
  }

  lemma {:induction false} MetricsAreGood(decode: MetricDecoder, fields: seq<Field>, metrics: seq<P.Metric>)
    requires AreMetrics(decode, MetricFields(fields), metrics)
    ensures GoodItems(decode, fields)
    decreases |fields|
  {
    if fields != [] {
      var front, f := fields[..|fields| - 1], fields[|fields| - 1];
      var n := |MetricFields(front)|;
      if f.number == 2 { assert MetricFields(fields)[n] == f; }
      assert MetricFields(fields)[..n] == MetricFields(front);
      MetricsAreGood(decode, front, metrics[..n]);
    }
  }

  /** decode_sparkplug_payload accepts a byte string, with this payload, exactly when
      the string is fields laid end to end, the metrics among them are decoded in
      order, and time and sequence number are what the last fields say. */
  lemma PayloadIsDecoded(data: seq<byte>, p: P.Payload)
    ensures P.PayloadOf(data) == Ok(p)
       <==> exists parts, fields :: Tiles(data, parts, fields) && IsPayload(P.MetricOf, fields, p)
  {
    if P.PayloadOf(data) == Ok(p) {
      var fields := TakeFields(data).0;
      var parts := DecodedFieldsTile(data);
      ItemsMake(P.MetricOf, fields);
      assert Tiles(data, parts, fields) && IsPayload(P.MetricOf, fields, p);
    }
    forall parts, fields | Tiles(data, parts, fields) && IsPayload(P.MetricOf, fields, p)
      ensures P.PayloadOf(data) == Ok(p)
    {
      TiledMessageDecodes(data, parts, fields);
      MetricsAreGood(P.MetricOf, fields, p.metrics);
      ItemsMake(P.MetricOf, fields);
      PayloadIsUnique(P.MetricOf, fields, p, P.FoldItems(P.Items(P.MetricOf, fields), P.EmptyPayload).value);
    }
  }

  // ------------------------------------------------------ messages cut short

  /** The first n bytes end inside the i-th part. */
  ghost predicate CutInside(data: seq<byte>, parts: seq<seq<byte>>, i: nat, n: nat) {
    i < |parts| && n <= |data| && |Concat(parts[..i])| < n < |Concat(parts[..i])| + |parts[i]|
  }

  /** The generator fails only with a ValueError. */
  lemma TakeFieldError(s: seq<byte>)
    ensures TakeField(s).Err? ==> TakeField(s) == Err(ValueError)
  {
    VarintError(s, 10);
    if TakeVarint(s, 10).Ok? { VarintError(s[TakeVarint(s, 10).value.1..], 10); }
  }

  lemma {:induction false} VarintError(s: seq<byte>, budget: nat)
    ensures TakeVarint(s, budget).Err? ==> TakeVarint(s, budget) == Err(ValueError)
  {
    if s != [] && budget > 0 { VarintError(s[1..], budget - 1); }
  }

  /** A field does not begin with another field. */
  lemma OneFieldOnly(part: seq<byte>, f: Field, used: nat, f': Field)
    requires IsField(part, f) && used <= |part| && IsField(part[..used], f')
    ensures used == |part|
  {
    TakeFieldComplete(part, f, []);
    TakeFieldComplete(part[..used], f', part[used..]);
    assert part + [] == part && part[..used] + part[used..] == part;
  }

  lemma PartialField(part: seq<byte>, f: Field, n: nat)
    requires IsField(part, f) && n < |part|
    ensures TakeField(part[..n]) == Err(ValueError)
  {
    var s := part[..n];
    TakeFieldError(s);
    if TakeField(s).Ok? {
      var (f', used) := TakeField(s).value;
      TakeFieldSound(s);
      assert s[..used] == part[..used];
      OneFieldOnly(part, f, used, f');
    }
  }

  /** A field in front of bytes that fail. */
  lemma FieldThenError(part: seq<byte>, f: Field, s: seq<byte>, fields: seq<Field>)
    requires IsField(part, f) && TakeFields(s) == (fields, Some(ValueError))
    ensures TakeFields(part + s) == ([f] + fields, Some(ValueError))
  {
    TakeFieldComplete(part, f, s);
    assert (part + s)[|part|..] == s;
  }

  lemma CutInsideRest(data: seq<byte>, parts: seq<seq<byte>>, i: nat, n: nat)
    requires CutInside(data, parts, i, n) && i > 0 && data == Concat(parts)
    ensures |parts[0]| < n && CutInside(Concat(parts[1..]), parts[1..], i - 1, n - |parts[0]|)
  {
    assert parts[..i][0] == parts[0] && parts[..i][1..] == parts[1..][..i - 1];
    assert parts[1..][i - 1] == parts[i];
  }

  lemma TakeBeyond(a: seq<byte>, b: seq<byte>, n: nat)
    requires |a| <= n <= |a + b|
    ensures (a + b)[..n] == a + b[..n - |a|]
  {
  }

  lemma CutFirst(data: seq<byte>, parts: seq<seq<byte>>, fields: seq<Field>, n: nat)
    requires Tiles(data, parts, fields) && CutInside(data, parts, 0, n)
    ensures TakeFields(data[..n]) == ([], Some(ValueError))
  {
    assert parts[..0] == [] && data[..n] == parts[0][..n];
    PartialField(parts[0], fields[0], n);
  }

  lemma FrontFields(fields: seq<Field>, i: nat)
    requires 0 < i <= |fields|
    ensures [fields[0]] + fields[1..][..i - 1] == fields[..i]
  {
  }

  /** What is cut inside a field yields the fields before it, and then the error. */
  lemma {:induction false} CutFields(data: seq<byte>, parts: seq<seq<byte>>, fields: seq<Field>, i: nat, n: nat)
    requires Tiles(data, parts, fields) && CutInside(data, parts, i, n)
    ensures TakeFields(data[..n]) == (fields[..i], Some(ValueError))
    decreases i
  {
    if i == 0 {
      CutFirst(data, parts, fields, n);
    } else {
      var rest, m := Concat(parts[1..]), n - |parts[0]|;
      CutInsideRest(data, parts, i, n);
      TilesRest(data, parts, fields);
      CutFields(rest, parts[1..], fields[1..], i - 1, m);
      FieldThenError(parts[0], fields[0], rest[..m], fields[1..][..i - 1]);
      TakeBeyond(parts[0], rest, n);
      FrontFields(fields, i);
    }
  }

  /** A payload that would be accepted is refused with a ValueError when it is cut
      short inside one of its fields. */
  lemma CutPayload(data: seq<byte>, parts: seq<seq<byte>>, fields: seq<Field>, i: nat, n: nat)
    requires Tiles(data, parts, fields) && CutInside(data, parts, i, n) && P.PayloadOf(data).Ok?
    ensures P.PayloadOf(data[..n]) == Err(ValueError)
  {
    CutFields(data, parts, fields, i, n);
    TiledMessageDecodes(data, parts, fields);
    ItemsMake(P.MetricOf, fields);
    ItemsMake(P.MetricOf, fields[..i]);
  }

  lemma CutMetric(data: seq<byte>, parts: seq<seq<byte>>, fields: seq<Field>, i: nat, n: nat)
    requires Tiles(data, parts, fields) && CutInside(data, parts, i, n) && P.MetricOf(data).Ok?
    ensures P.MetricOf(data[..n]) == Err(ValueError)
  {
    CutFields(data, parts, fields, i, n);
    TiledMessageDecodes(data, parts, fields);
    FoldMakes(fields);
    FoldMakes(fields[..i]);
  }

  /** So the message is rejected, on any topic, and never stored in part. */
  lemma CutMessageIsRejected(parse: R.Parser, topic: string, data: seq<byte>, parts: seq<seq<byte>>,
                             fields: seq<Field>, i: nat, n: nat)
    requires Tiles(data, parts, fields) && CutInside(data, parts, i, n) && P.PayloadOf(data).Ok?
    ensures R.SparkplugLines(parse, topic, data[..n]) == Err(ValueError)
  {
    CutPayload(data, parts, fields, i, n);
  }
}

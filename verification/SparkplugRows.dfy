/** build_sparkplug_lines of the ingest service: from a topic and a payload to
    the rows written to the database. A row stands for its line of text; the
    sensor values are in hundredths, which is what the text shows. */
module SparkplugRows {
  import opened Common
  import opened Wire
  import opened FieldDecoder
  import P = PayloadDecoder
  import F = Floating
  import U = UnixTime
  import S = Sparkplug

  datatype Row = Row(timestampNs: nat, device: string, temperature: Option<int>, battery: Option<int>)

  /** A rounded value, or an infinity or NaN, which is dropped when the line is built. */
  datatype Cell = Finite(hundredths: int) | NotFinite

  datatype Reading = Reading(temperature: Option<Cell>, battery: Option<Cell>)

  /** A Python dict: its keys in order of first insertion, and its values. */
  datatype Readings = Readings(order: seq<nat>, cells: map<nat, Reading>)

  const EmptyReading := Reading(None, None)
  const Empty := Readings([], map[])

  /** topic.split("/") */
  function Split(s: string): (parts: seq<string>)
    ensures |parts| > 0
  {
    if s == "" then [""]
    else
      var rest := Split(s[1..]);
      if s[0] == '/' then [""] + rest else [[s[0]] + rest[0]] + rest[1..]
  }

  /** str.isspace() */
  predicate IsSpace(c: char) {
    || c == ' ' || '\t' <= c <= '\r' || '\U{1c}' <= c <= '\U{1f}' || c == '\U{85}' || c == '\U{a0}'
    || c == '\U{1680}' || '\U{2000}' <= c <= '\U{200a}' || c == '\U{2028}' || c == '\U{2029}'
    || c == '\U{202f}' || c == '\U{205f}' || c == '\U{3000}'
  }

  function Strip(s: string): string {
    if s != "" && IsSpace(s[0]) then Strip(s[1..])
    else if s != "" && IsSpace(s[|s| - 1]) then Strip(s[..|s| - 1])
    else s
  }

  function CellOf(f: Option<F.Float>): Cell {
    match f case None => NotFinite case Some(x) => Finite(F.Hundredths(x))
  }

  /** Python's float() of bytes: None when they are no numeral, Some(None) for an infinity or NaN. */
  type Parser = seq<byte> -> Option<Option<F.Float>>

  type Rounding = P.Number -> Result<Cell, Error>

  /** round(float(value), 2) */
  function Rounded(parse: Parser, n: P.Number): Result<Cell, Error> {
    match n
    case SingleNumber(bits) => Ok(CellOf(F.SingleFromBits(bits)))
    case DoubleNumber(bits) => Ok(CellOf(F.DoubleFromBits(bits)))
    case Raw(Int(v)) => Ok(CellOf(Some(F.FromInt(F.Double, v))))
    case Raw(Blob(b)) => match parse(b) case None => Err(ValueError) case Some(f) => Ok(CellOf(f))
  }

  function RoundedWith(parse: Parser): Rounding {
    n => Rounded(parse, n)
  }

  function SetCell(r: Readings, key: nat, name: seq<byte>, cell: Cell): Readings {
    var order := if key in r.cells then r.order else r.order + [key];
    var reading := if key in r.cells then r.cells[key] else EmptyReading;
    Readings(order, r.cells[key := if name == S.TemperatureName then reading.(temperature := Some(cell))
                                   else reading.(battery := Some(cell))])
  }

  /** One turn of the loop over the metrics. A timestamp of bytes is refused
      later in the code, by the sort or by parse_timestamp; either way the
      message is rejected. */
  function AddMetric(round: Rounding, r: Readings, m: P.Metric, payloadTimestamp: Option<Value>):
    Result<Readings, Error> {
    if (m.name != Some(S.TemperatureName) && m.name != Some(S.BatteryName)) || m.isNull || m.value == None then Ok(r)
    else match if m.timestamp.Some? then m.timestamp else payloadTimestamp
      case None => Err(ValueError)
      case Some(Blob(_)) => Err(ValueError)
      case Some(Int(key)) =>
        match round(m.value.value)
        case Err(e) => Err(e)
        case Ok(cell) => Ok(SetCell(r, key, m.name.value, cell))
  }

  function AddMetrics(round: Rounding, r: Readings, metrics: seq<P.Metric>,
                      payloadTimestamp: Option<Value>): Result<Readings, Error>
    decreases |metrics|
  {
    if metrics == [] then Ok(r)
    else match AddMetric(round, r, metrics[0], payloadTimestamp)
      case Err(e) => Err(e)
      case Ok(r') => AddMetrics(round, r', metrics[1..], payloadTimestamp)
  }

  function Insert(key: nat, sorted: seq<nat>): seq<nat> {
    if sorted == [] || key < sorted[0] then [key] + sorted else [sorted[0]] + Insert(key, sorted[1..])
  }

  /** sorted(readings.items()): the keys of a dict are distinct. */
  function Sort(keys: seq<nat>): seq<nat> {
    if keys == [] then [] else Insert(keys[0], Sort(keys[1..]))
  }

  function Shown(cell: Option<Cell>): Option<int> {
    if cell.Some? && cell.value.Finite? then Some(cell.value.hundredths) else None
  }

  /** build_line for a Sparkplug reading. */
  function BuildRow(edge: string, group: string, key: nat, reading: Reading): Result<Row, Error> {
    var device := Strip(if edge != "" then edge else if group != "" then group else "unknown");
    if device == "" then Err(ValueError)
    else if Shown(reading.temperature) == None && Shown(reading.battery) == None then Err(ValueError)
    else match U.TimestampNs(key)
      case Err(e) => Err(e)
      case Ok(ns) => Ok(Row(ns, device, Shown(reading.temperature), Shown(reading.battery)))
  }

  function BuildRows(edge: string, group: string, keys: seq<nat>, cells: map<nat, Reading>): Result<seq<Row>, Error>
    requires forall k :: k in keys ==> k in cells
  {
    if keys == [] then Ok([])
    else match BuildRow(edge, group, keys[0], cells[keys[0]])
      case Err(e) => Err(e)
      case Ok(row) =>
        match BuildRows(edge, group, keys[1..], cells)
        case Err(e) => Err(e)
        case Ok(rows) => Ok([row] + rows)
  }

  /** The keys of the dict are listed once each. */
  ghost predicate ValidReadings(r: Readings) {
    && (forall k :: k in r.order <==> k in r.cells)
    && (forall i, j :: 0 <= i < j < |r.order| ==> r.order[i] != r.order[j])
  }

  lemma AddMetricValid(round: Rounding, r: Readings, m: P.Metric, t: Option<Value>)
    requires ValidReadings(r) && AddMetric(round, r, m, t).Ok?
    ensures ValidReadings(AddMetric(round, r, m, t).value)
  {
  }

  lemma {:induction false} AddMetricsValid(round: Rounding, r: Readings, metrics: seq<P.Metric>, t: Option<Value>)
    requires ValidReadings(r) && AddMetrics(round, r, metrics, t).Ok?
    ensures ValidReadings(AddMetrics(round, r, metrics, t).value)
    decreases |metrics|
  {
    if metrics != [] {
      AddMetricValid(round, r, metrics[0], t);
      AddMetricsValid(round, AddMetric(round, r, metrics[0], t).value, metrics[1..], t);
    }
  }

  ghost predicate Increasing(s: seq<nat>) {
    forall i, j :: 0 <= i < j < |s| ==> s[i] < s[j]
  }

  lemma {:induction false} InsertSorted(key: nat, s: seq<nat>)
    requires Increasing(s) && key !in s
    ensures Increasing(Insert(key, s))
    ensures forall k :: k in Insert(key, s) <==> k == key || k in s
  {
    if s != [] && key >= s[0] {
      InsertSorted(key, s[1..]);
      var rest := Insert(key, s[1..]);
      forall i | 0 <= i < |rest|
        ensures s[0] < rest[i]
      {
        assert rest[i] in rest;
      }
      assert forall k :: k in s <==> k == s[0] || k in s[1..];
    }
  }

  /** Sorting distinct keys keeps exactly these keys, in increasing order. */
  lemma {:induction false} SortSorts(keys: seq<nat>)
    requires forall i, j :: 0 <= i < j < |keys| ==> keys[i] != keys[j]
    ensures Increasing(Sort(keys))
    ensures forall k :: k in Sort(keys) <==> k in keys
  {
    if keys != [] {
      SortSorts(keys[1..]);
      assert keys[0] !in keys[1..];
      InsertSorted(keys[0], Sort(keys[1..]));
      assert forall k :: k in keys <==> k == keys[0] || k in keys[1..];
    }
  }

  function RowsOfReadings(edge: string, group: string, r: Readings): Result<seq<Row>, Error>
    requires ValidReadings(r)
  {
    SortSorts(r.order);
    if r.order == [] then Err(ValueError) else BuildRows(edge, group, Sort(r.order), r.cells)
  }

  /** What build_sparkplug_lines returns or raises. */
  function SparkplugLines(parse: Parser, topic: string, data: seq<byte>): Result<seq<Row>, Error> {
    var parts := Split(topic);
    if |parts| < 4 || parts[0] != "spBv1.0" then Err(ValueError)
    else match P.PayloadOf(data)
      case Err(e) => Err(e)
      case Ok(payload) =>
        if parts[2] == "NBIRTH" then Ok([])
        else if parts[2] != "NDATA" && parts[2] != "DDATA" then Err(ValueError)
        else match AddMetrics(RoundedWith(parse), Empty, payload.metrics, payload.timestamp)
          case Err(e) => Err(e)
          case Ok(r) =>
            AddMetricsValid(RoundedWith(parse), Empty, payload.metrics, payload.timestamp);
            RowsOfReadings(parts[3], parts[1], r)
  }

  // ---------------------------------------------------------------- the loops

  method BuildSparkplugLines(parse: Parser, topic: string, data: seq<byte>) returns (r: Result<seq<Row>, Error>)
    ensures r == SparkplugLines(parse, topic, data)
  {
    var parts := Split(topic);
    if |parts| < 4 || parts[0] != "spBv1.0" {
      return Err(ValueError);
    }
    var decoded := P.DecodeSparkplugPayload(data);
    if decoded.Err? {
      return Err(decoded.error);
    }
    if parts[2] == "NBIRTH" {
      return Ok([]);
    }
    if parts[2] != "NDATA" && parts[2] != "DDATA" {
      return Err(ValueError);
    }
    var readings := CollectReadings(parse, decoded.value.metrics, decoded.value.timestamp);
    if readings.Err? {
      return Err(readings.error);
    }
    AddMetricsValid(RoundedWith(parse), Empty, decoded.value.metrics, decoded.value.timestamp);
    if readings.value.order == [] {
      return Err(ValueError);
    }
    SortSorts(readings.value.order);
    r := BuildEach(parts[3], parts[1], Sort(readings.value.order), readings.value.cells);
  }

  method CollectReadings(parse: Parser, metrics: seq<P.Metric>, payloadTimestamp: Option<Value>)
    returns (r: Result<Readings, Error>)
    ensures r == AddMetrics(RoundedWith(parse), Empty, metrics, payloadTimestamp)
  {
    var round := RoundedWith(parse);
    var readings := Empty;
    var i := 0;
    assert metrics[0..] == metrics;
    while i < |metrics|
      invariant 0 <= i <= |metrics|
      invariant AddMetrics(round, Empty, metrics, payloadTimestamp)
                == AddMetrics(round, readings, metrics[i..], payloadTimestamp)
    {
      assert metrics[i..][1..] == metrics[i + 1..];
      var next := AddMetric(round, readings, metrics[i], payloadTimestamp);
      if next.Err? {
        return Err(next.error);
      }
      readings, i := next.value, i + 1;
    }
    return Ok(readings);
  }

  method BuildEach(edge: string, group: string, keys: seq<nat>, cells: map<nat, Reading>)
    returns (r: Result<seq<Row>, Error>)
    requires forall k :: k in keys ==> k in cells
    ensures r == BuildRows(edge, group, keys, cells)
  {
    var rows: seq<Row> := [];
    var i := 0;
    assert keys[0..] == keys;
    PrependNothing(BuildRows(edge, group, keys, cells));
    while i < |keys|
      invariant 0 <= i <= |keys|
      invariant forall k :: k in keys[i..] ==> k in keys
      invariant BuildRows(edge, group, keys, cells) == Prepend(rows, BuildRows(edge, group, keys[i..], cells))
    {
      assert keys[i..][1..] == keys[i + 1..] && keys[i] in keys;
      var row := BuildRow(edge, group, keys[i], cells[keys[i]]);
      if row.Err? {
        return Err(row.error);
      }
      PrependStep(rows, row.value, BuildRows(edge, group, keys[i + 1..], cells));
      rows, i := rows + [row.value], i + 1;
    }
    assert keys[i..] == [] && rows + [] == rows;
    return Ok(rows);
  }

  function Prepend(rows: seq<Row>, r: Result<seq<Row>, Error>): Result<seq<Row>, Error> {
    match r case Err(e) => Err(e) case Ok(more) => Ok(rows + more)
  }

  lemma PrependNothing(r: Result<seq<Row>, Error>)
    ensures Prepend([], r) == r
  {
    if r.Ok? {
      assert [] + r.value == r.value;
    }
  }

  lemma PrependStep(rows: seq<Row>, row: Row, r: Result<seq<Row>, Error>)
    ensures Prepend(rows, Prepend([row], r)) == Prepend(rows + [row], r)
  {
    if r.Ok? {
      assert rows + ([row] + r.value) == rows + [row] + r.value;
    }
  }
}

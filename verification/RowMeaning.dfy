/** What the rows of a message show, said without the dict: per time one row, with
    the last value of each kind that a metric gives for that time. */
module RowMeaning {
  import opened Common
  import opened SparkplugRows
  import opened Wire
  import P = PayloadDecoder
  import S = Sparkplug
  import U = UnixTime

  // ------------------------------------------------------------------ strings

  function Join(parts: seq<string>): string
    requires parts != []
  {
    if |parts| == 1 then parts[0] else parts[0] + "/" + Join(parts[1..])
  }

  /** Splitting loses nothing and leaves no slash. */
  lemma {:induction false} SplitIsExact(s: string)
    ensures Join(Split(s)) == s
    ensures forall i :: 0 <= i < |Split(s)| ==> '/' !in Split(s)[i]
  {
    if s != "" {
      SplitIsExact(s[1..]);
      var rest := Split(s[1..]);
      assert s == [s[0]] + s[1..];
      if s[0] == '/' {
        assert Split(s)[1..] == rest;
      } else {
        JoinFirst([s[0]], rest);
      }
    }
  }

  lemma JoinFirst(c: string, parts: seq<string>)
    requires parts != []
    ensures Join([c + parts[0]] + parts[1..]) == c + Join(parts)
  {
    var all := [c + parts[0]] + parts[1..];
    assert all[1..] == parts[1..];
    if |parts| > 1 {
      assert c + parts[0] + "/" + Join(parts[1..]) == c + (parts[0] + "/" + Join(parts[1..]));
    }
  }

  ghost predicate AllSpaces(s: string, from: nat, to: nat)
    requires from <= to <= |s|
  {
    forall i :: from <= i < to ==> IsSpace(s[i])
  }

  /** Stripping takes away exactly the spaces at both ends. */
  lemma {:induction false} StripTrims(s: string) returns (left: nat, right: nat)
    ensures left <= right <= |s| && Strip(s) == s[left..right]
    ensures AllSpaces(s, 0, left) && AllSpaces(s, right, |s|)
    decreases |s|
  {
    if s != "" && IsSpace(s[0]) {
      left, right := StripTrims(s[1..]);
      left, right := left + 1, right + 1;
      forall i | 1 <= i < left || right <= i < |s|
        ensures IsSpace(s[i])
      {
        assert s[i] == s[1..][i - 1];
      }
    } else if s != "" && IsSpace(s[|s| - 1]) {
      left, right := StripTrims(s[..|s| - 1]);
      assert forall i :: 0 <= i < |s| - 1 ==> s[i] == s[..|s| - 1][i];
    } else {
      left, right := 0, |s|;
    }
  }

  lemma {:induction false} StripIsTight(s: string)
    ensures Strip(s) != "" ==> !IsSpace(Strip(s)[0]) && !IsSpace(Strip(s)[|Strip(s)| - 1])
    decreases |s|
  {
    if s != "" && IsSpace(s[0]) {
      StripIsTight(s[1..]);
    } else if s != "" && IsSpace(s[|s| - 1]) {
      StripIsTight(s[..|s| - 1]);
    }
  }

  // ----------------------------------------------------------- the last values

  /** A temperature or battery metric that is not null and has a value. */
  predicate Relevant(m: P.Metric) {
    (m.name == Some(S.TemperatureName) || m.name == Some(S.BatteryName)) && !m.isNull && m.value.Some?
  }

  /** Its own time, or else that of the payload. */
  function TimeOf(m: P.Metric, t: Option<Value>): Option<Value> {
    if m.timestamp.Some? then m.timestamp else t
  }

  predicate IsFor(m: P.Metric, t: Option<Value>, name: seq<byte>, key: nat) {
    Relevant(m) && m.name == Some(name) && TimeOf(m, t) == Some(Int(key))
  }

  /** A relevant metric needs a numeric time and a value that can be rounded. */
  predicate Usable(round: Rounding, m: P.Metric, t: Option<Value>) {
    Relevant(m) ==> TimeOf(m, t).Some? && TimeOf(m, t).value.Int? && round(m.value.value).Ok?
  }

  ghost predicate AllUsable(round: Rounding, metrics: seq<P.Metric>, t: Option<Value>) {
    forall i :: 0 <= i < |metrics| ==> Usable(round, metrics[i], t)
  }

  /** Some metric is for this time. */
  ghost predicate Timed(metrics: seq<P.Metric>, t: Option<Value>, key: nat) {
    exists i :: 0 <= i < |metrics| && Relevant(metrics[i]) && TimeOf(metrics[i], t) == Some(Int(key))
  }

  /** The value of the last metric with this name for this time, if any. */
  function LastCell(round: Rounding, metrics: seq<P.Metric>, t: Option<Value>, name: seq<byte>, key: nat):
    Option<Cell>
    decreases |metrics|
  {
    if metrics == [] then None
    else
      var m := metrics[|metrics| - 1];
      if IsFor(m, t, name, key) then (match round(m.value.value) case Ok(cell) => Some(cell) case Err(_) => None)
      else LastCell(round, metrics[..|metrics| - 1], t, name, key)
  }

  /** The dict holds exactly the times of the metrics, each with its last values. */
  ghost predicate IsTable(round: Rounding, metrics: seq<P.Metric>, t: Option<Value>, r: Readings) {
    && ValidReadings(r)
    && (forall key :: key in r.cells <==> Timed(metrics, t, key))
    && forall key :: key in r.cells ==>
         && r.cells[key].temperature == LastCell(round, metrics, t, S.TemperatureName, key)
         && r.cells[key].battery == LastCell(round, metrics, t, S.BatteryName, key)
  }

  lemma TimedLonger(metrics: seq<P.Metric>, m: P.Metric, t: Option<Value>, key: nat)
    ensures Timed(metrics + [m], t, key)
       <==> Timed(metrics, t, key) || (Relevant(m) && TimeOf(m, t) == Some(Int(key)))
  {
    var more := metrics + [m];
    if i :| 0 <= i < |metrics| && Relevant(metrics[i]) && TimeOf(metrics[i], t) == Some(Int(key)) {
      assert more[i] == metrics[i];
    }
    assert more[|metrics|] == m;
    if i :| 0 <= i < |more| && Relevant(more[i]) && TimeOf(more[i], t) == Some(Int(key)) {
      assert i < |metrics| ==> metrics[i] == more[i];
    }
  }

  lemma CellLonger(round: Rounding, metrics: seq<P.Metric>, m: P.Metric, t: Option<Value>, name: seq<byte>, key: nat)
    requires Usable(round, m, t)
    ensures LastCell(round, metrics + [m], t, name, key)
         == if IsFor(m, t, name, key) then Some(round(m.value.value).value) else LastCell(round, metrics, t, name, key)
  {
    assert (metrics + [m])[..|metrics|] == metrics;
  }

  lemma {:induction false} NoCellWithoutTime(round: Rounding, metrics: seq<P.Metric>, t: Option<Value>, name: seq<byte>,
                                             key: nat)
    requires !Timed(metrics, t, key)
    ensures LastCell(round, metrics, t, name, key) == None
    decreases |metrics|
  {
    if metrics != [] {
      var front, m := metrics[..|metrics| - 1], metrics[|metrics| - 1];
      assert metrics == front + [m];
      TimedLonger(front, m, t, key);
      NoCellWithoutTime(round, front, t, name, key);
    }
  }

  lemma NamesDiffer()
    ensures S.BatteryName != S.TemperatureName
  {
    assert |S.BatteryName| == 7 && |S.TemperatureName| == 11;
  }

  /** One more metric. */
  lemma MetricAdds(round: Rounding, metrics: seq<P.Metric>, m: P.Metric, t: Option<Value>, r: Readings)
    requires IsTable(round, metrics, t, r)
    ensures AddMetric(round, r, m, t).Ok? <==> Usable(round, m, t)
    ensures Usable(round, m, t) ==> IsTable(round, metrics + [m], t, AddMetric(round, r, m, t).value)
  {
    if Usable(round, m, t) {
      var r' := AddMetric(round, r, m, t).value;
      AddMetricValid(round, r, m, t);
      NamesDiffer();
      forall key
        ensures key in r'.cells <==> Timed(metrics + [m], t, key)
        ensures key in r'.cells ==>
                  && r'.cells[key].temperature == LastCell(round, metrics + [m], t, S.TemperatureName, key)
                  && r'.cells[key].battery == LastCell(round, metrics + [m], t, S.BatteryName, key)
      {
        TimedLonger(metrics, m, t, key);
        CellLonger(round, metrics, m, t, S.TemperatureName, key);
        CellLonger(round, metrics, m, t, S.BatteryName, key);
        if key !in r.cells {
          NoCellWithoutTime(round, metrics, t, S.TemperatureName, key);
          NoCellWithoutTime(round, metrics, t, S.BatteryName, key);
        }
      }
    }
  }

  lemma {:induction false} AddAppend(round: Rounding, r: Readings, a: seq<P.Metric>, m: P.Metric, t: Option<Value>)
    ensures AddMetrics(round, r, a + [m], t)
         == match AddMetrics(round, r, a, t) case Err(e) => Err(e) case Ok(r') => AddMetric(round, r', m, t)
    decreases |a|
  {
    if a == [] {
      assert a + [m] == [m] && [m][1..] == [];
    } else {
      assert (a + [m])[0] == a[0] && (a + [m])[1..] == a[1..] + [m];
      var next := AddMetric(round, r, a[0], t);
      if next.Ok? { AddAppend(round, next.value, a[1..], m, t); }
    }
  }

  /** The loop over the metrics fails unless all are usable, and otherwise fills the dict so. */
  lemma {:induction false} MetricsFill(round: Rounding, metrics: seq<P.Metric>, t: Option<Value>)
    ensures AddMetrics(round, Empty, metrics, t).Ok? <==> AllUsable(round, metrics, t)
    ensures AllUsable(round, metrics, t) ==> IsTable(round, metrics, t, AddMetrics(round, Empty, metrics, t).value)
    decreases |metrics|
  {
    if metrics != [] {
      var front, m := metrics[..|metrics| - 1], metrics[|metrics| - 1];
      assert metrics == front + [m];
      MetricsFill(round, front, t);
      AddAppend(round, Empty, front, m, t);
      if AllUsable(round, front, t) { MetricAdds(round, front, m, t, AddMetrics(round, Empty, front, t).value); }
    }
  }

  // --------------------------------------------------------------------- rows

  /** The device is named by the edge node, or else by the group. */
  function DeviceOf(edge: string, group: string): string {
    if edge != "" then Strip(edge) else if group != "" then Strip(group) else "unknown"
  }

  /** A finite value in hundredths; others are left out. */
  predicate ShowsCell(shown: Option<int>, cell: Option<Cell>) {
    match shown
    case Some(n) => cell == Some(Finite(n))
    case None => cell == None || cell == Some(NotFinite)
  }

  ghost predicate IsRowAt(row: Row, round: Rounding, metrics: seq<P.Metric>, t: Option<Value>, device: string,
                          key: nat) {
    && U.TimestampNs(key) == Ok(row.timestampNs) && row.device == device
    && ShowsCell(row.temperature, LastCell(round, metrics, t, S.TemperatureName, key))
    && ShowsCell(row.battery, LastCell(round, metrics, t, S.BatteryName, key))
    && (row.temperature.Some? || row.battery.Some?)
  }

  /** One row for every time of a metric, in the order of the times. */
  ghost predicate AreRows(rows: seq<Row>, keys: seq<nat>, round: Rounding, metrics: seq<P.Metric>, t: Option<Value>,
                          device: string) {
    && |rows| == |keys| > 0 && Increasing(keys)
    && (forall key :: key in keys <==> Timed(metrics, t, key))
    && forall j :: 0 <= j < |rows| ==> IsRowAt(rows[j], round, metrics, t, device, keys[j])
  }

  lemma UnknownStays()
    ensures Strip("unknown") == "unknown"
  {
  }

  lemma RowIsBuilt(edge: string, group: string, round: Rounding, metrics: seq<P.Metric>, t: Option<Value>, r: Readings,
                   key: nat)
    requires IsTable(round, metrics, t, r) && key in r.cells && BuildRow(edge, group, key, r.cells[key]).Ok?
    ensures IsRowAt(BuildRow(edge, group, key, r.cells[key]).value, round, metrics, t, DeviceOf(edge, group), key)
  {
    UnknownStays();
  }

  lemma {:induction false} RowsAreBuilt(edge: string, group: string, keys: seq<nat>, round: Rounding,
                                        metrics: seq<P.Metric>, t: Option<Value>, r: Readings)
    requires IsTable(round, metrics, t, r) && (forall k :: k in keys ==> k in r.cells)
    requires BuildRows(edge, group, keys, r.cells).Ok?
    ensures var rows := BuildRows(edge, group, keys, r.cells).value;
            && |rows| == |keys|
            && forall j :: 0 <= j < |rows| ==> IsRowAt(rows[j], round, metrics, t, DeviceOf(edge, group), keys[j])
  {
    if keys != [] {
      assert keys[0] in keys && forall k :: k in keys[1..] ==> k in keys;
      RowIsBuilt(edge, group, round, metrics, t, r, keys[0]);
      RowsAreBuilt(edge, group, keys[1..], round, metrics, t, r);
    }
  }

  /** Whatever message is accepted with rows: they are for the times of its metrics
      and show the last values for each. */
  lemma RowsShowLast(parse: Parser, topic: string, data: seq<byte>) returns (p: P.Payload, keys: seq<nat>)
    requires SparkplugLines(parse, topic, data).Ok? && SparkplugLines(parse, topic, data).value != []
    ensures P.PayloadOf(data) == Ok(p) && |Split(topic)| >= 4
    ensures AreRows(SparkplugLines(parse, topic, data).value, keys, RoundedWith(parse), p.metrics, p.timestamp,
                    DeviceOf(Split(topic)[3], Split(topic)[1]))
  {
    p := P.PayloadOf(data).value;
    var round, edge, group := RoundedWith(parse), Split(topic)[3], Split(topic)[1];
    MetricsFill(round, p.metrics, p.timestamp);
    var r := AddMetrics(round, Empty, p.metrics, p.timestamp).value;
    SortSorts(r.order);
    keys := Sort(r.order);
    RowsAreBuilt(edge, group, keys, round, p.metrics, p.timestamp, r);
  }

  // --------------------------------------------------- what is accepted at all

  predicate ShowsFinite(cell: Option<Cell>) {
    cell.Some? && cell.value.Finite?
  }

  /** A row can be made for this time: it has a database key and a finite value. */
  ghost predicate Showable(round: Rounding, metrics: seq<P.Metric>, t: Option<Value>, key: nat) {
    && U.TimestampNs(key).Ok?
    && (ShowsFinite(LastCell(round, metrics, t, S.TemperatureName, key)) ||
        ShowsFinite(LastCell(round, metrics, t, S.BatteryName, key)))
  }

  ghost predicate AllShowable(round: Rounding, metrics: seq<P.Metric>, t: Option<Value>) {
    forall key :: Timed(metrics, t, key) ==> Showable(round, metrics, t, key)
  }

  /** All measurements can be used, there is one, and every time makes a row. */
  ghost predicate Acceptable(round: Rounding, p: P.Payload, device: string) {
    && AllUsable(round, p.metrics, p.timestamp) && (exists key :: Timed(p.metrics, p.timestamp, key))
    && device != "" && AllShowable(round, p.metrics, p.timestamp)
  }

  lemma RowIff(edge: string, group: string, round: Rounding, metrics: seq<P.Metric>, t: Option<Value>, r: Readings,
               key: nat)
    requires IsTable(round, metrics, t, r) && key in r.cells
    ensures BuildRow(edge, group, key, r.cells[key]).Ok?
       <==> DeviceOf(edge, group) != "" && Showable(round, metrics, t, key)
  {
    UnknownStays();
  }

  lemma {:induction false} RowsIff(edge: string, group: string, keys: seq<nat>, round: Rounding,
                                   metrics: seq<P.Metric>, t: Option<Value>, r: Readings)
    requires IsTable(round, metrics, t, r) && (forall k :: k in keys ==> k in r.cells)
    ensures BuildRows(edge, group, keys, r.cells).Ok?
       <==> forall k :: k in keys ==> DeviceOf(edge, group) != "" && Showable(round, metrics, t, k)
    ensures BuildRows(edge, group, keys, r.cells).Ok? ==> |BuildRows(edge, group, keys, r.cells).value| == |keys|
  {
    if keys != [] {
      var rest := keys[1..];
      assert keys == [keys[0]] + rest && keys[0] in keys;
      RowIff(edge, group, round, metrics, t, r, keys[0]);
      RowsIff(edge, group, rest, round, metrics, t, r);
      assert BuildRows(edge, group, keys, r.cells).Ok?
        <==> BuildRow(edge, group, keys[0], r.cells[keys[0]]).Ok? && BuildRows(edge, group, rest, r.cells).Ok?;
    }
  }

  lemma ReadingsIff(edge: string, group: string, round: Rounding, p: P.Payload, r: Readings)
    requires AddMetrics(round, Empty, p.metrics, p.timestamp) == Ok(r) && ValidReadings(r)
    ensures RowsOfReadings(edge, group, r).Ok? <==> Acceptable(round, p, DeviceOf(edge, group))
    ensures RowsOfReadings(edge, group, r).Ok? ==> RowsOfReadings(edge, group, r).value != []
  {
    MetricsFill(round, p.metrics, p.timestamp);
    SortSorts(r.order);
    RowsIff(edge, group, Sort(r.order), round, p.metrics, p.timestamp, r);
    if r.order != [] {
      assert Timed(p.metrics, p.timestamp, r.order[0]);
      assert r.order[0] in Sort(r.order);
    }
  }

  /** Exactly these messages are accepted: an NBIRTH that can be decoded, which
      gives no rows, and an NDATA or DDATA that can be decoded and whose
      measurements all make rows. */
  lemma AcceptedIff(parse: Parser, topic: string, data: seq<byte>)
    ensures var lines, parts, p := SparkplugLines(parse, topic, data), Split(topic), P.PayloadOf(data);
            lines.Ok? <==>
              && |parts| >= 4 && parts[0] == "spBv1.0" && p.Ok?
              && (|| parts[2] == "NBIRTH"
                  || ((parts[2] == "NDATA" || parts[2] == "DDATA")
                      && Acceptable(RoundedWith(parse), p.value, DeviceOf(parts[3], parts[1]))))
    ensures var lines := SparkplugLines(parse, topic, data);
            lines.Ok? ==> (lines.value == [] <==> Split(topic)[2] == "NBIRTH")
  {
    var parts, p, round := Split(topic), P.PayloadOf(data), RoundedWith(parse);
    if |parts| >= 4 && parts[0] == "spBv1.0" && p.Ok? && (parts[2] == "NDATA" || parts[2] == "DDATA") {
      MetricsFill(round, p.value.metrics, p.value.timestamp);
      var readings := AddMetrics(round, Empty, p.value.metrics, p.value.timestamp);
      if readings.Ok? {
        AddMetricsValid(round, Empty, p.value.metrics, p.value.timestamp);
        ReadingsIff(parts[3], parts[1], round, p.value, readings.value);
      }
    }
  }

  /** A measurement without any time is refused. */
  lemma UntimedIsRefused(parse: Parser, topic: string, data: seq<byte>, p: P.Payload, i: nat)
    requires P.PayloadOf(data) == Ok(p) && i < |p.metrics|
    requires Relevant(p.metrics[i]) && TimeOf(p.metrics[i], p.timestamp) == None
    ensures SparkplugLines(parse, topic, data).Ok? ==> SparkplugLines(parse, topic, data).value == []
  {
    MetricsFill(RoundedWith(parse), p.metrics, p.timestamp);
    assert !Usable(RoundedWith(parse), p.metrics[i], p.timestamp);
  }
}

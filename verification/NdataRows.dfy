/** From the readings of the firmware to the rows of the database: encoder,
    decoder, rounding and time arithmetic composed. */
module NdataRows {
  import opened Common
  import opened Wire
  import opened FieldDecoder
  import opened SparkplugRows
  import P = PayloadDecoder
  import F = Floating
  import U = UnixTime
  import S = Sparkplug
  import C = CodecRoundTrip

  /** The milliseconds the firmware sends for a reading, the key of the dict. */
  function KeyMs(m: Measurement): nat {
    S.TimestampMs(m.timestamp)
  }

  /** The ingest service accepts the time of the reading. */
  predicate Storable(m: Measurement) {
    U.TimestampNs(KeyMs(m)).Ok?
  }

  ghost predicate AllStorable(ms: seq<Measurement>) {
    forall i :: 0 <= i < |ms| ==> Storable(ms[i])
  }

  /** The timestamp of the database row of a storable reading. */
  function KeyNs(m: Measurement): nat {
    match U.TimestampNs(KeyMs(m)) case Ok(ns) => ns case Err(_) => 0
  }

  lemma MsOfSeconds(seconds: int64)
    requires -18_446_744_073_709_551 <= seconds <= 18_446_744_073_709_551
    ensures S.TimestampMs(seconds) == if seconds >= 0 then 1000 * seconds else TwoTo64 + 1000 * seconds
  {
    if seconds < 0 {
      assert seconds % TwoTo64 == TwoTo64 + seconds;
      assert (TwoTo64 + seconds) * 1000 == 999 * TwoTo64 + (TwoTo64 + 1000 * seconds);
    }
  }

  /** A reading is storable if and only if its milliseconds, modulo 2^64, come
      before the year 10000. */
  lemma StorableIff(m: Measurement)
    ensures Storable(m) <==> KeyMs(m) < 1000 * U.EndOfTime
  {
    if KeyMs(m) < 1000 * U.EndOfTime { U.EarlyIsAccepted(KeyMs(m)); } else { U.LateIsRefused(KeyMs(m)); }
  }

  /** Within 580 million years of 1970, where they do not wrap around: if and only
      if it was taken from 1970 to the year 9999. */
  lemma StorableYears(m: Measurement)
    requires -18_446_490_671_408_751 <= m.timestamp <= 18_446_744_073_709_551
    ensures Storable(m) <==> 0 <= m.timestamp < U.EndOfTime
  {
    MsOfSeconds(m.timestamp);
    StorableIff(m);
  }

  /** A reading whose time the ingest service keeps exactly: after April 1970, and
      short enough for binary64, as every second until 2116 is. */
  predicate Timely(m: Measurement) {
    10_000_000 < m.timestamp < U.EndOfTime && U.Fits(m.timestamp)
  }

  lemma TimelyKey(m: Measurement)
    requires Timely(m)
    ensures Storable(m) && KeyMs(m) == 1000 * m.timestamp && KeyNs(m) == m.timestamp * 1_000_000_000
  {
    MsOfSeconds(m.timestamp);
    U.KeyOfWholeSeconds(m.timestamp);
  }

  /** The hundredths of the database for a temperature of the firmware: the same
      below 83886 degrees, otherwise rounded to binary32. */
  function Approx(centi: int): int {
    F.Hundredths(F.CentiFloat(centi))
  }

  function RowOf(device: string, m: Measurement): Row {
    Row(KeyNs(m), device, Some(Approx(m.temperature)), Some(m.battery))
  }

  lemma RowIsExact(device: string, m: Measurement)
    requires Timely(m) && -0x80_0000 < m.temperature < 0x80_0000
    ensures RowOf(device, m) == Row(m.timestamp * 1_000_000_000, device, Some(m.temperature), Some(m.battery))
  {
    TimelyKey(m);
    F.CentiExact(m.temperature);
  }

  ghost predicate AllTimely(ms: seq<Measurement>) {
    forall i :: 0 <= i < |ms| ==> Timely(ms[i])
  }

  /** ms[i] is the last reading of ms with its time. */
  ghost predicate IsLast(ms: seq<Measurement>, i: nat)
    requires i < |ms|
  {
    forall j :: i < j < |ms| ==> KeyMs(ms[j]) != KeyMs(ms[i])
  }

  /** row shows the last reading of ms taken at its second. */
  ghost predicate ShowsLast(row: Row, ms: seq<Measurement>, device: string) {
    exists i :: 0 <= i < |ms| && IsLast(ms, i) && row == RowOf(device, ms[i])
  }

  ghost predicate HasRowAt(rows: seq<Row>, ns: nat) {
    exists k :: 0 <= k < |rows| && rows[k].timestampNs == ns
  }

  ghost predicate TimeOrdered(rows: seq<Row>) {
    forall i, j :: 0 <= i < j < |rows| ==> rows[i].timestampNs < rows[j].timestampNs
  }

  /** Every row shows a reading, the last of its time, and every reading's time has a row. */
  ghost predicate AreRowsOf(rows: seq<Row>, ms: seq<Measurement>, device: string) {
    && (forall k :: 0 <= k < |rows| ==> ShowsLast(rows[k], ms, device))
    && (forall i :: 0 <= i < |ms| ==> HasRowAt(rows, KeyNs(ms[i])))
  }

  lemma RoundedCenti(parse: Parser, centi: int32)
    ensures Rounded(parse, P.SingleNumber(S.CentiBits(centi))) == Ok(Finite(Approx(centi)))
  {
    F.CentiIsSingle(centi);
    F.SingleBitsRoundTrip(if centi == 0 then F.Zero else F.CentiFloat(centi));
    assert F.CentiFloat(0) == F.Zero by { assert Pow2(0) == 1; }
  }

  /** round gives the hundredths that the sent binary32 number stands for. */
  ghost predicate Rounds(round: Rounding) {
    forall c: int32 :: round(P.SingleNumber(S.CentiBits(c))) == Ok(Finite(Approx(c)))
  }

  lemma RoundedRounds(parse: Parser)
    ensures Rounds(RoundedWith(parse))
  {
    forall c: int32
      ensures RoundedWith(parse)(P.SingleNumber(S.CentiBits(c))) == Ok(Finite(Approx(c)))
    {
      RoundedCenti(parse, c);
    }
  }

  function Full(m: Measurement): Reading {
    Reading(Some(Finite(Approx(m.temperature))), Some(Finite(m.battery)))
  }

  /** The dict entry k holds the last reading of ms taken at k milliseconds. */
  ghost predicate HoldsLast(k: nat, reading: Reading, ms: seq<Measurement>) {
    exists i :: 0 <= i < |ms| && IsLast(ms, i) && k == KeyMs(ms[i]) && reading == Full(ms[i])
  }

  /** The dict after the readings ms. */
  ghost predicate Holds(r: Readings, ms: seq<Measurement>) {
    && ValidReadings(r)
    && (forall i :: 0 <= i < |ms| ==> KeyMs(ms[i]) in r.cells)
    && (forall k :: k in r.cells ==> HoldsLast(k, r.cells[k], ms))
  }

  function Store(r: Readings, m: Measurement): Readings {
    var key := KeyMs(m);
    Readings(if key in r.cells then r.order else r.order + [key], r.cells[key := Full(m)])
  }

  lemma AddReading(round: Rounding, r: Readings, m: Measurement, more: seq<P.Metric>, t: Option<Value>)
    requires Rounds(round)
    ensures AddMetrics(round, r, C.DecodedReading(m) + more, t) == AddMetrics(round, Store(r, m), more, t)
  {
    var key, metrics := KeyMs(m), C.DecodedReading(m);
    var r1 := SetCell(r, key, S.TemperatureName, Finite(Approx(m.temperature)));
    NamesDiffer();
    F.CentiExact(m.battery);
    assert AddMetric(round, r, metrics[0], t) == Ok(r1);
    assert AddMetric(round, r1, metrics[1], t) == Ok(SetCell(r1, key, S.BatteryName, Finite(m.battery)));
    assert SetCell(r1, key, S.BatteryName, Finite(m.battery)) == Store(r, m);
    assert (metrics + more)[1..] == [metrics[1]] + more;
    assert ([metrics[1]] + more)[1..] == more;
  }

  lemma NamesDiffer()
    ensures S.BatteryName != S.TemperatureName
  {
    assert |S.BatteryName| == 7 && |S.TemperatureName| == 11;
  }

  lemma StoreIsValid(r: Readings, m: Measurement)
    requires ValidReadings(r)
    ensures ValidReadings(Store(r, m))
  {
  }

  lemma StoreCovers(r: Readings, ms: seq<Measurement>, m: Measurement)
    requires forall i :: 0 <= i < |ms| ==> KeyMs(ms[i]) in r.cells
    ensures forall i :: 0 <= i < |ms + [m]| ==> KeyMs((ms + [m])[i]) in Store(r, m).cells
  {
  }

  lemma StoreHolds(r: Readings, ms: seq<Measurement>, m: Measurement)
    requires Holds(r, ms)
    ensures Holds(Store(r, m), ms + [m])
  {
    var r', ms' := Store(r, m), ms + [m];
    StoreIsValid(r, m);
    StoreCovers(r, ms, m);
    forall k | k in r'.cells
      ensures HoldsLast(k, r'.cells[k], ms')
    {
      if k == KeyMs(m) {
        assert IsLast(ms', |ms|) && ms'[|ms|] == m;
      } else {
        assert HoldsLast(k, r.cells[k], ms);
        var i :| 0 <= i < |ms| && IsLast(ms, i) && k == KeyMs(ms[i]) && r.cells[k] == Full(ms[i]);
        assert ms'[i] == ms[i] && IsLast(ms', i);
      }
    }
  }

  function StoreAll(r: Readings, ms: seq<Measurement>): Readings
    decreases |ms|
  {
    if ms == [] then r else StoreAll(Store(r, ms[0]), ms[1..])
  }

  lemma {:induction false} AddReadings(round: Rounding, r: Readings, ms: seq<Measurement>, t: Option<Value>)
    requires Rounds(round)
    ensures AddMetrics(round, r, C.DecodedReadings(ms), t) == Ok(StoreAll(r, ms))
    decreases |ms|
  {
    if ms != [] {
      AddReading(round, r, ms[0], C.DecodedReadings(ms[1..]), t);
      AddReadings(round, Store(r, ms[0]), ms[1..], t);
    }
  }

  lemma MoveOne<T>(done: seq<T>, todo: seq<T>)
    requires todo != []
    ensures done + [todo[0]] + todo[1..] == done + todo
  {
  }

  lemma {:induction false} StoreAllHolds(r: Readings, done: seq<Measurement>, ms: seq<Measurement>)
    requires Holds(r, done)
    ensures Holds(StoreAll(r, ms), done + ms)
    decreases |ms|
  {
    if ms == [] {
      assert done + ms == done;
    } else {
      StoreHolds(r, done, ms[0]);
      StoreAllHolds(Store(r, ms[0]), done + [ms[0]], ms[1..]);
      MoveOne(done, ms);
    }
  }

  /** The row of a dict entry, or the refusal of its time. */
  lemma RowOfKey(edge: string, group: string, key: nat, reading: Reading, ms: seq<Measurement>)
    requires edge != "" && Strip(edge) != "" && HoldsLast(key, reading, ms)
    ensures var r := BuildRow(edge, group, key, reading);
            if U.TimestampNs(key).Ok? then
              && r.Ok? && r.value.timestampNs == U.TimestampNs(key).value && ShowsLast(r.value, ms, Strip(edge))
            else r == Err(ValueError)
  {
    var i :| 0 <= i < |ms| && IsLast(ms, i) && key == KeyMs(ms[i]) && reading == Full(ms[i]);
    U.NeverOsError(key);
    if U.TimestampNs(key).Ok? { assert BuildRow(edge, group, key, reading) == Ok(RowOf(Strip(edge), ms[i])); }
  }

  /** One row per key, in the order of the keys. */
  ghost predicate RowsAt(rows: seq<Row>, keys: seq<nat>, ms: seq<Measurement>, device: string) {
    && |rows| == |keys|
    && forall j :: 0 <= j < |keys| ==>
         U.TimestampNs(keys[j]) == Ok(rows[j].timestampNs) && ShowsLast(rows[j], ms, device)
  }

  ghost predicate KeysHold(keys: seq<nat>, cells: map<nat, Reading>, ms: seq<Measurement>) {
    forall k :: k in keys ==> k in cells && HoldsLast(k, cells[k], ms)
  }

  ghost predicate KeysStorable(keys: seq<nat>) {
    forall k :: k in keys ==> U.TimestampNs(k).Ok?
  }

  /** Rows for all keys, or one refused time refuses them all. */
  lemma {:induction false} RowsOfKeys(edge: string, group: string, keys: seq<nat>, cells: map<nat, Reading>,
                                      ms: seq<Measurement>)
    requires edge != "" && Strip(edge) != "" && KeysHold(keys, cells, ms)
    ensures var r := BuildRows(edge, group, keys, cells);
            if KeysStorable(keys) then r.Ok? && RowsAt(r.value, keys, ms, Strip(edge)) else r == Err(ValueError)
  {
    if keys != [] {
      assert keys[0] in keys && forall k :: k in keys <==> k == keys[0] || k in keys[1..];
      RowOfKey(edge, group, keys[0], cells[keys[0]], ms);
      RowsOfKeys(edge, group, keys[1..], cells, ms);
      if KeysStorable(keys) {
        RowFirst(BuildRow(edge, group, keys[0], cells[keys[0]]).value, BuildRows(edge, group, keys[1..], cells).value,
                 keys, ms, Strip(edge));
      }
    }
  }

  lemma RowFirst(row: Row, rows: seq<Row>, keys: seq<nat>, ms: seq<Measurement>, device: string)
    requires keys != [] && U.TimestampNs(keys[0]) == Ok(row.timestampNs) && ShowsLast(row, ms, device)
    requires RowsAt(rows, keys[1..], ms, device)
    ensures RowsAt([row] + rows, keys, ms, device)
  {
    forall j | 0 < j < |keys|
      ensures ([row] + rows)[j] == rows[j - 1] && keys[j] == keys[1..][j - 1]
    {
    }
  }

  /** Rows at keys that cover every reading. */
  lemma CoveringRows(rows: seq<Row>, keys: seq<nat>, ms: seq<Measurement>, device: string)
    requires RowsAt(rows, keys, ms, device) && forall i :: 0 <= i < |ms| ==> KeyMs(ms[i]) in keys
    ensures AreRowsOf(rows, ms, device)
  {
    forall i | 0 <= i < |ms|
      ensures HasRowAt(rows, KeyNs(ms[i]))
    {
      var k :| 0 <= k < |keys| && keys[k] == KeyMs(ms[i]);
      assert rows[k].timestampNs == KeyNs(ms[i]);
    }
  }

  /** With timely readings the order of the keys is the order of the rows. */
  lemma TimelyRowsAreOrdered(rows: seq<Row>, keys: seq<nat>, ms: seq<Measurement>, device: string)
    requires AllTimely(ms) && RowsAt(rows, keys, ms, device) && Increasing(keys)
    requires forall k :: k in keys ==> exists i :: 0 <= i < |ms| && KeyMs(ms[i]) == k
    ensures TimeOrdered(rows)
  {
    forall j | 0 <= j < |keys|
      ensures rows[j].timestampNs == keys[j] * 1_000_000
    {
      assert keys[j] in keys;
      var i :| 0 <= i < |ms| && KeyMs(ms[i]) == keys[j];
      TimelyKey(ms[i]);
    }
    forall i, j | 0 <= i < j < |rows|
      ensures rows[i].timestampNs < rows[j].timestampNs
    {
      assert keys[i] < keys[j];
    }
  }

  /** What becomes of readings in the dict. */
  ghost predicate BecomeRows(r: Result<seq<Row>, Error>, ms: seq<Measurement>, device: string) {
    if AllStorable(ms) then r.Ok? && AreRowsOf(r.value, ms, device) && (AllTimely(ms) ==> TimeOrdered(r.value))
    else r == Err(ValueError)
  }

  lemma KeysOfReadings(r: Readings, ms: seq<Measurement>)
    requires Holds(r, ms)
    ensures forall k :: k in r.order <==> exists i :: 0 <= i < |ms| && KeyMs(ms[i]) == k
    ensures KeysStorable(r.order) <==> AllStorable(ms)
  {
    forall k | k in r.order
      ensures exists i :: 0 <= i < |ms| && KeyMs(ms[i]) == k
    {
      assert HoldsLast(k, r.cells[k], ms);
    }
    if KeysStorable(r.order) {
      forall i | 0 <= i < |ms|
        ensures Storable(ms[i])
      {
        assert KeyMs(ms[i]) in r.order;
      }
    }
  }

  lemma SortedRows(edge: string, group: string, r: Readings, ms: seq<Measurement>)
    requires ms != [] && Holds(r, ms) && edge != "" && Strip(edge) != ""
    ensures BecomeRows(RowsOfReadings(edge, group, r), ms, Strip(edge))
  {
    SortSorts(r.order);
    KeysOfReadings(r, ms);
    var keys := Sort(r.order);
    assert KeyMs(ms[0]) in r.order;
    assert KeysStorable(keys) == KeysStorable(r.order);
    RowsOfKeys(edge, group, keys, r.cells, ms);
    KeyedRows(RowsOfReadings(edge, group, r), keys, ms, Strip(edge));
  }

  lemma KeyedRows(r: Result<seq<Row>, Error>, keys: seq<nat>, ms: seq<Measurement>, device: string)
    requires if KeysStorable(keys) then r.Ok? && RowsAt(r.value, keys, ms, device) else r == Err(ValueError)
    requires KeysStorable(keys) <==> AllStorable(ms)
    requires Increasing(keys) && forall k :: k in keys <==> exists i :: 0 <= i < |ms| && KeyMs(ms[i]) == k
    ensures BecomeRows(r, ms, device)
  {
    if AllStorable(ms) {
      CoveringRows(r.value, keys, ms, device);
      if AllTimely(ms) { TimelyRowsAreOrdered(r.value, keys, ms, device); }
    }
  }

  // ------------------------------------------------------------------ topics

  predicate NoSlash(s: string) {
    forall i :: 0 <= i < |s| ==> s[i] != '/'
  }

  lemma {:induction false} SplitFirst(part: string, rest: string)
    requires NoSlash(part)
    ensures Split(part + "/" + rest) == [part] + Split(rest)
  {
    if part == "" {
      assert ("/" + rest)[1..] == rest;
    } else {
      SplitFirst(part[1..], rest);
      assert (part + "/" + rest)[1..] == part[1..] + "/" + rest;
      assert ([part[1..]] + Split(rest))[1..] == Split(rest);
      assert [part[0]] + part[1..] == part;
    }
  }

  lemma {:induction false} SplitLast(part: string)
    requires NoSlash(part)
    ensures Split(part) == [part]
  {
    if part != "" {
      SplitLast(part[1..]);
      assert [part[0]] + part[1..] == part;
    }
  }

  lemma SplitTopic(group: string, t: S.MessageType, edge: string)
    requires NoSlash(group) && NoSlash(edge)
    ensures Split(S.TopicText(group, t, edge)) == ["spBv1.0", group, S.TypeName(t), edge]
  {
    var name := S.TypeName(t);
    SplitLast(edge);
    SplitFirst(name, edge);
    SplitFirst(group, name + "/" + edge);
    SplitFirst("spBv1.0", group + "/" + (name + "/" + edge));
  }

  // ------------------------------------------------------------ main results

  /** An NDATA the firmware encodes becomes rows that show the last reading of
      every time, with the hundredths of that reading (RowIsExact says when they
      are the firmware's); strictly ordered when the readings are timely. If the
      time of one reading is not storable, the whole NDATA is refused. */
  lemma NdataBecomesRows(parse: Parser, ms: seq<Measurement>, current: uint8, historical: bool, group: string,
                         edge: string)
    requires ms != [] && NoSlash(group) && NoSlash(edge) && Strip(edge) != ""
    ensures BecomeRows(SparkplugLines(parse, S.TopicText(group, S.NDATA, edge), S.NdataBytes(ms, current, historical)),
                       ms, Strip(edge))
  {
    SplitTopic(group, S.NDATA, edge);
    C.NdataRoundTrip(ms, current, historical);
    var ts := S.TimestampMs(ms[|ms| - 1].timestamp);
    RowsOfDecoded(parse, S.TopicText(group, S.NDATA, edge), S.NdataBytes(ms, current, historical),
                  current, if ts != 0 then Some(Int(ts)) else None, ms, group, edge);
  }

  lemma RowsOfDecoded(parse: Parser, topic: string, data: seq<byte>, current: uint8, t: Option<Value>,
                      ms: seq<Measurement>, group: string, edge: string)
    requires ms != [] && Strip(edge) != ""
    requires Split(topic) == ["spBv1.0", group, "NDATA", edge]
    requires P.PayloadOf(data) == Ok(P.Payload(Some(Int(current)), t, C.DecodedReadings(ms)))
    ensures BecomeRows(SparkplugLines(parse, topic, data), ms, Strip(edge))
  {
    ReadingsCollected(parse, ms, t);
    var r := StoreAll(Empty, ms);
    LinesOfNdata(parse, topic, data, P.Payload(Some(Int(current)), t, C.DecodedReadings(ms)), r);
    SplitEdge(topic, group, edge);
    SortedRows(edge, group, r, ms);
  }

  lemma SplitEdge(topic: string, group: string, edge: string)
    requires Split(topic) == ["spBv1.0", group, "NDATA", edge]
    ensures Split(topic)[3] == edge && Split(topic)[1] == group
  {
  }

  lemma ReadingsCollected(parse: Parser, ms: seq<Measurement>, t: Option<Value>)
    ensures AddMetrics(RoundedWith(parse), Empty, C.DecodedReadings(ms), t) == Ok(StoreAll(Empty, ms))
    ensures Holds(StoreAll(Empty, ms), ms)
  {
    RoundedRounds(parse);
    AddReadings(RoundedWith(parse), Empty, ms, t);
    StoreAllHolds(Empty, [], ms);
    assert [] + ms == ms;
  }

  lemma LinesOfNdata(parse: Parser, topic: string, data: seq<byte>, payload: P.Payload, r: Readings)
    requires |Split(topic)| == 4 && Split(topic)[0] == "spBv1.0" && Split(topic)[2] == "NDATA"
    requires P.PayloadOf(data) == Ok(payload) && ValidReadings(r)
    requires AddMetrics(RoundedWith(parse), Empty, payload.metrics, payload.timestamp) == Ok(r)
    ensures SparkplugLines(parse, topic, data) == RowsOfReadings(Split(topic)[3], Split(topic)[1], r)
  {
  }

  /** An NBIRTH stores nothing and is not an error. */
  lemma NbirthStoresNothing(parse: Parser, timestampMs: nat, bdSeq: uint8, group: string, edge: string)
    requires timestampMs < TwoTo64 && NoSlash(group) && NoSlash(edge)
    ensures SparkplugLines(parse, S.TopicText(group, S.NBIRTH, edge), S.NbirthBytes(timestampMs, bdSeq)) == Ok([])
  {
    SplitTopic(group, S.NBIRTH, edge);
    C.NbirthRoundTrip(timestampMs, bdSeq);
  }

  function RowsInOrder(device: string, ms: seq<Measurement>): (rows: seq<Row>)
    ensures |rows| == |ms| && forall i :: 0 <= i < |ms| ==> rows[i] == RowOf(device, ms[i])
  {
    seq(|ms|, i requires 0 <= i < |ms| => RowOf(device, ms[i]))
  }

  ghost predicate TimesIncrease(ms: seq<Measurement>) {
    forall i, j :: 0 <= i < j < |ms| ==> ms[i].timestamp < ms[j].timestamp
  }

  /** Rows that are those of a list, in increasing time. */
  ghost predicate SameRows(rows: seq<Row>, all: seq<Row>) {
    && TimeOrdered(rows) && TimeOrdered(all)
    && (forall k :: 0 <= k < |rows| ==> rows[k] in all)
    && (forall i :: 0 <= i < |all| ==> HasRowAt(rows, all[i].timestampNs))
  }

  /** A row that is not among the first k rows of the list is a later one. */
  lemma {:induction false} RowAt(rows: seq<Row>, all: seq<Row>, k: nat)
    requires SameRows(rows, all) && k < |rows| && k < |all|
    ensures rows[k] == all[k]
  {
    var i :| 0 <= i < |all| && rows[k] == all[i];
    assert HasRowAt(rows, all[k].timestampNs);
    var k' :| 0 <= k' < |rows| && rows[k'].timestampNs == all[k].timestampNs;
    if i < k {
      RowAt(rows, all, i);
    } else if i > k && k' < k {
      RowAt(rows, all, k');
    }
  }

  lemma SameRowsAreEqual(rows: seq<Row>, all: seq<Row>)
    requires SameRows(rows, all)
    ensures rows == all
  {
    if |rows| > |all| {
      var i :| 0 <= i < |all| && rows[|all|] == all[i];
      RowAt(rows, all, i);
    } else if |rows| < |all| {
      assert HasRowAt(rows, all[|rows|].timestampNs);
      var k :| 0 <= k < |rows| && rows[k].timestampNs == all[|rows|].timestampNs;
      RowAt(rows, all, k);
    }
    forall k | 0 <= k < |rows| && k < |all|
      ensures rows[k] == all[k]
    {
      RowAt(rows, all, k);
    }
  }

  /** When the timestamps increase there is exactly one row per reading, in order. */
  lemma IncreasingReadings(rows: seq<Row>, ms: seq<Measurement>, device: string)
    requires AllTimely(ms) && AreRowsOf(rows, ms, device) && TimeOrdered(rows) && TimesIncrease(ms)
    ensures rows == RowsInOrder(device, ms)
  {
    var all := RowsInOrder(device, ms);
    forall i | 0 <= i < |ms|
      ensures all[i].timestampNs == ms[i].timestamp * 1_000_000_000
    {
      TimelyKey(ms[i]);
    }
    forall k | 0 <= k < |rows|
      ensures rows[k] in all
    {
      assert ShowsLast(rows[k], ms, device);
      var i :| 0 <= i < |ms| && IsLast(ms, i) && rows[k] == RowOf(device, ms[i]);
      assert all[i] == rows[k];
    }
    SameRowsAreEqual(rows, all);
  }
}

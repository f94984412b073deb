/** What becomes of a device's messages in the ingest service: the broker holds
    a message until it is acknowledged, and an acknowledged NDATA has its rows in
    the table, unless the time of one of its readings was refused. */
module MessageRows {
  import opened Common
  import FD = FieldDecoder
  import I = Delivery
  import IO = DeliveryOrder
  import MS = MeasurementService
  import N = NdataRows
  import O = Outbox
  import P = PayloadDecoder
  import R = SparkplugRows
  import S = Sparkplug
  import W = Wire

  datatype Message = Message(topic: string, payload: seq<byte>)

  /** The rows of a table are identified by timestamp and device. */
  type Key = (nat, string)

  /** The device's names and its historical flag; `json` is the parser of topics
      outside Sparkplug, `float` Python's float() of bytes, `window` the broker's
      Receive Maximum. */
  datatype Service = Service(
    group: string, edge: string, historical: bool, json: Message -> I.Parsed<R.Row>, float: R.Parser, window: nat)

  type Cloud = I.State<Message, R.Row, Key>
  type CloudAction = I.Action<Message>

  /** The group and edge names make a well-formed topic, and the broker respects Receive Maximum. */
  predicate ValidService(v: Service) {
    N.NoSlash(v.group) && N.NoSlash(v.edge) && R.Strip(v.edge) != "" && 0 < v.window <= I.ReceiveMaximum
  }

  function KeyOf(row: R.Row): Key {
    (row.timestampNs, row.device)
  }

  /** parse_message, with the errors `process` catches. */
  function Parse(v: Service, m: Message): I.Parsed<R.Row> {
    if |m.topic| < 8 || m.topic[..8] != "spBv1.0/" then v.json(m)
    else match R.SparkplugLines(v.float, m.topic, m.payload)
      case Ok(rows) => I.Lines(rows)
      case Err(e) => if e.ValueError? || e.TypeError? then I.Rejected else I.Crashes
  }

  /** QuestDB refuses no rows for good. */
  function Ingest(v: Service): I.Config<Message, R.Row, Key> {
    I.Config(m => Parse(v, m), rows => false, KeyOf, v.window)
  }

  function PayloadOf(v: Service, b: MS.Body): seq<byte> {
    match b
    case Birth(t, bd) => S.NbirthBytes(t, bd)
    case Data(current, readings) => if readings == [] then [] else S.NdataBytes(readings, current, v.historical)
  }

  /** What a packet of the device says: its topic and its body. */
  datatype Publication = Publication(topic: S.MessageType, body: MS.Body)

  /** The packet as the broker receives it. */
  function Received(v: Service, p: Publication): Message {
    Message(S.TopicText(v.group, p.topic, v.edge), PayloadOf(v, p.body))
  }

  /** The topic is that of the body. */
  predicate Labelled(p: Publication) {
    p.topic == MS.TopicOf(p.body)
  }

  /** The message of a body on its own topic. */
  function MessageOf(v: Service, b: MS.Body): Message {
    Received(v, Publication(MS.TopicOf(b), b))
  }

  ghost predicate CloudRuns(v: Service, run: seq<CloudAction>, s: Cloud) {
    I.After(Ingest(v), run) == Some(s)
  }

  lemma CloudAdds(v: Service, s: Cloud, b: CloudAction)
    requires I.Enabled(Ingest(v), s, b)
    ensures I.Step(Ingest(v), s, b).msgs == if b.Accept? then s.msgs + [b.m] else s.msgs
  {
    match b {
      case Accept(_) => case Deliver(_, _) => case NetRead => case NetPut => case Drop => case NetLost =>
      case NetDrain => case Reconnect => case ReceiveAck => case Take => case ApplyRows => case Return(_) =>
      case Wake => case Ack => case Restart =>
    }
  }

  /** A payload whose one metric has a number where its name should be. */
  const NumericName: seq<byte> := [18, 2, 8, 1]

  const NumericMetric: seq<byte> := [8, 1]

  lemma NumericMetricFails()
    ensures P.MetricOf(NumericMetric) == Err(FD.AttributeError)
  {
    assert FD.TakeVarint(NumericMetric, 10) == Ok((8, 1)) && NumericMetric[1..] == [1];
    assert FD.TakeField(NumericMetric) == Ok((W.Field(1, 0, W.Int(1)), 2)) && NumericMetric[2..] == [];
    assert FD.TakeFields(NumericMetric).0[0] == W.Field(1, 0, W.Int(1));
  }

  lemma NumericNameField()
    ensures FD.TakeField(NumericName) == Ok((W.Field(2, 2, W.Blob(NumericMetric)), 4))
  {
    var body: seq<byte> := [2, 8, 1];
    assert NumericName[1..] == body && body[1..1 + 2] == NumericMetric;
    assert FD.TakeVarint(NumericName, 10) == Ok((18, 1)) && FD.TakeVarint(body, 10) == Ok((2, 1));
    assert FD.TakeBody(body, 2) == Ok((W.Blob(NumericMetric), 3));
  }

  /** Some messages do end the writer: decode_metric raises an AttributeError,
      which `process` does not catch. */
  lemma NumericNameCrashes(v: Service, topic: string)
    requires |topic| >= 8 && topic[..8] == "spBv1.0/" && |R.Split(topic)| >= 4 && R.Split(topic)[0] == "spBv1.0"
    ensures Parse(v, Message(topic, NumericName)).Crashes?
  {
    NumericMetricFails();
    NumericNameField();
    assert NumericName[4..] == [];
    assert FD.TakeFields(NumericName).0[0] == W.Field(2, 2, W.Blob(NumericMetric));
    assert P.PayloadOf(NumericName) == Err(FD.AttributeError);
  }

  // ------------------------------------------------- messages become rows

  predicate Holds(b: MS.Body, x: Measurement) {
    b.Data? && x in b.readings
  }

  /** The message of an NDATA with this reading. */
  ghost predicate Carries(v: Service, m: Message, x: Measurement) {
    exists b :: Holds(b, x) && m == MessageOf(v, b)
  }

  /** The device's messages never end the writer: an NBIRTH has no rows, an NDATA
      has rows for all its readings, or is refused if and only if the time of one
      of them is not storable. */
  lemma BodyIsParsed(v: Service, b: MS.Body)
    requires ValidService(v) && (b.Data? ==> b.readings != [])
    ensures var p := Parse(v, MessageOf(v, b));
            && (b.Birth? ==> p == I.Lines([]))
            && (b.Data? && N.AllStorable(b.readings) ==> p.Lines? && N.AreRowsOf(p.rows, b.readings, R.Strip(v.edge)))
            && (b.Data? && !N.AllStorable(b.readings) ==> p.Rejected?)
  {
    assert MessageOf(v, b).topic[..8] == "spBv1.0/";
    match b {
      case Birth(t, bd) => N.NbirthStoresNothing(v.float, t, bd, v.group, v.edge);
      case Data(current, readings) => N.NdataBecomesRows(v.float, readings, current, v.historical, v.group, v.edge);
    }
  }

  function DeviceKey(v: Service, x: Measurement): Key {
    (N.KeyNs(x), R.Strip(v.edge))
  }

  lemma {:induction false} LastWithFinds(rows: seq<R.Row>, k: nat)
    requires k < |rows|
    ensures IO.LastWith(KeyOf, rows, KeyOf(rows[k])).Some?
    decreases |rows|
  {
    if k < |rows| - 1 { LastWithFinds(rows[..|rows| - 1], k); }
  }

  lemma {:induction false} LastWithIsRow(rows: seq<R.Row>, key: Key) returns (k: nat)
    requires IO.LastWith(KeyOf, rows, key).Some?
    ensures k < |rows| && rows[k] == IO.LastWith(KeyOf, rows, key).value && KeyOf(rows[k]) == key
    decreases |rows|
  {
    if KeyOf(rows[|rows| - 1]) == key { k := |rows| - 1; } else { k := LastWithIsRow(rows[..|rows| - 1], key); }
  }

  /** A message with the reading writes its key. */
  lemma MessageShowsKey(v: Service, msgs: seq<Message>, i: nat, b: MS.Body, x: Measurement)
    requires ValidService(v) && i < |msgs| && Holds(b, x) && N.AllStorable(b.readings) && msgs[i] == MessageOf(v, b)
    ensures IO.Shows(Ingest(v), msgs, i, DeviceKey(v, x)).Some?
  {
    BodyIsParsed(v, b);
    var rows := IO.Effective(Ingest(v), msgs, i);
    var j :| 0 <= j < |b.readings| && b.readings[j] == x;
    assert N.HasRowAt(rows, N.KeyNs(b.readings[j]));
    var k :| 0 <= k < |rows| && rows[k].timestampNs == N.KeyNs(x);
    assert N.ShowsLast(rows[k], b.readings, R.Strip(v.edge));
    LastWithFinds(rows, k);
  }

  // ------------------------------------------------------ nothing is lost

  /** The broker still holds a message with the reading. */
  ghost predicate Held(v: Service, s: Cloud, x: Measurement) {
    exists i :: 0 <= i < |s.msgs| && i !in s.discarded && Carries(v, s.msgs[i], x)
  }

  /** The table has a row for the key, and it is the one of message i. */
  ghost predicate RowFrom(v: Service, s: Cloud, i: nat, key: Key) {
    && i < |s.msgs| && IO.Shows(Ingest(v), s.msgs, i, key).Some?
    && IO.Lookup(s.db, key) == IO.Shows(Ingest(v), s.msgs, i, key)
  }

  /** Message j, with the reading, was acknowledged after its row for the reading
      was written, and the table has that row or the one of a later message i. */
  ghost predicate StoredSince(v: Service, s: Cloud, x: Measurement, j: nat, i: nat) {
    && j <= i && j < |s.msgs| && j in s.discarded
    && Carries(v, s.msgs[j], x) && IO.Shows(Ingest(v), s.msgs, j, DeviceKey(v, x)).Some?
    && RowFrom(v, s, i, DeviceKey(v, x))
  }

  ghost predicate Stored(v: Service, s: Cloud, x: Measurement) {
    exists j, i :: StoredSince(v, s, x, j, i)
  }

  /** The NDATA was acknowledged without being stored, because it has a reading
      whose time is not storable. */
  ghost predicate Refused(v: Service, s: Cloud, b: MS.Body) {
    && b.Data? && !N.AllStorable(b.readings)
    && exists i :: 0 <= i < |s.msgs| && i in s.discarded && s.msgs[i] == MessageOf(v, b)
  }

  /** A reading in a message the broker has accepted is held, stored or refused. */
  lemma MessageIsKept(v: Service, run: seq<CloudAction>, s: Cloud, j: nat, b: MS.Body, x: Measurement)
    requires ValidService(v) && CloudRuns(v, run, s)
    requires j < |s.msgs| && Holds(b, x) && s.msgs[j] == MessageOf(v, b)
    ensures Held(v, s, x) || Refused(v, s, b) || Stored(v, s, x)
  {
    if j !in s.discarded {
      assert Carries(v, s.msgs[j], x);
    } else if N.AllStorable(b.readings) {
      MessageShowsKey(v, s.msgs, j, b, x);
      var i := IO.AcknowledgedRowsAreStored(Ingest(v), run, j, DeviceKey(v, x));
      assert StoredSince(v, s, x, j, i);
    }
  }

  // ----------------------------------------------------------- exact rows

  /** A message of another publisher that says nothing about this device. */
  ghost predicate Foreign(v: Service, m: Message) {
    var p := Parse(v, m);
    p.Lines? ==> forall k :: 0 <= k < |p.rows| ==> p.rows[k].device != R.Strip(v.edge)
  }

  /** A message of the device, with readings it has accepted. */
  ghost predicate FromDevice(v: Service, accepted: seq<Measurement>, m: Message) {
    exists b :: O.GoodBody(accepted, b) && m == MessageOf(v, b)
  }

  ghost predicate Known(v: Service, accepted: seq<Measurement>, msgs: seq<Message>) {
    forall i :: 0 <= i < |msgs| ==> Foreign(v, msgs[i]) || FromDevice(v, accepted, msgs[i])
  }

  /** Readings are taken at strictly increasing seconds. */
  ghost predicate Increasing(accepted: seq<Measurement>) {
    forall i, j :: 0 <= i < j < |accepted| ==> accepted[i].timestamp < accepted[j].timestamp
  }

  /** A reading of a stretch with the time of an accepted reading is that reading. */
  lemma SameTimeSameReading(accepted: seq<Measurement>, n: nat, readings: seq<Measurement>, i: nat)
    requires n < |accepted| && Increasing(accepted) && O.Stretch(accepted, readings) && i < |readings|
    requires readings[i].timestamp == accepted[n].timestamp
    ensures readings[i] == accepted[n]
  {
    var from: nat :| from + |readings| <= |accepted| && O.StartsAt(accepted, readings, from);
    assert readings[i] == accepted[from + i];
  }

  lemma TimelyReadings(accepted: seq<Measurement>, readings: seq<Measurement>)
    requires N.AllTimely(accepted) && O.Stretch(accepted, readings)
    ensures N.AllTimely(readings) && N.AllStorable(readings)
  {
    var from: nat :| from + |readings| <= |accepted| && O.StartsAt(accepted, readings, from);
    forall i | 0 <= i < |readings|
      ensures N.Timely(readings[i]) && N.Storable(readings[i])
    {
      assert readings[i] == accepted[from + i];
      N.TimelyKey(readings[i]);
    }
  }

  lemma ShownReading(accepted: seq<Measurement>, n: nat, readings: seq<Measurement>, row: R.Row, device: string)
    requires n < |accepted| && N.AllTimely(accepted) && Increasing(accepted) && O.Stretch(accepted, readings)
    requires N.ShowsLast(row, readings, device) && row.timestampNs == N.KeyNs(accepted[n])
    ensures row == N.RowOf(device, accepted[n])
  {
    var i :| 0 <= i < |readings| && N.IsLast(readings, i) && row == N.RowOf(device, readings[i]);
    TimelyReadings(accepted, readings);
    N.TimelyKey(readings[i]);
    N.TimelyKey(accepted[n]);
    SameTimeSameReading(accepted, n, readings, i);
  }

  /** Whatever row of this device has the time of an accepted reading shows exactly that reading. */
  lemma RowIsExact(v: Service, accepted: seq<Measurement>, n: nat, b: MS.Body, row: R.Row)
    requires ValidService(v) && n < |accepted| && N.AllTimely(accepted) && Increasing(accepted)
    requires O.GoodBody(accepted, b)
    requires var p := Parse(v, MessageOf(v, b)); p.Lines? && row in p.rows && KeyOf(row) == DeviceKey(v, accepted[n])
    ensures row == N.RowOf(R.Strip(v.edge), accepted[n])
  {
    BodyIsParsed(v, b);
    if b.Data? {
      TimelyReadings(accepted, b.readings);
      ShownReading(accepted, n, b.readings, row, R.Strip(v.edge));
    }
  }

  lemma ShownIsExact(v: Service, s: Cloud, accepted: seq<Measurement>, i: nat, n: nat)
    requires ValidService(v) && n < |accepted| && N.AllTimely(accepted) && Increasing(accepted)
    requires Known(v, accepted, s.msgs) && RowFrom(v, s, i, DeviceKey(v, accepted[n]))
    ensures IO.Lookup(s.db, DeviceKey(v, accepted[n])) == Some(N.RowOf(R.Strip(v.edge), accepted[n]))
  {
    var key := DeviceKey(v, accepted[n]);
    var rows := IO.Effective(Ingest(v), s.msgs, i);
    var k := LastWithIsRow(rows, key);
    assert !Foreign(v, s.msgs[i]);
    var b :| O.GoodBody(accepted, b) && s.msgs[i] == MessageOf(v, b);
    RowIsExact(v, accepted, n, b, rows[k]);
  }
}

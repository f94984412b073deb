/** The simple firmware with the same broker, ingest service and database: as long
    as no harmful PUBACK is taken, no reading the device accepted is lost, but for
    those an NDATA of which was refused. */
module SimpleEndToEnd {
  import opened Common
  import opened MessageRows
  import C = Composition
  import D = SimpleDevice
  import DP = DeliveryProgress
  import IO = DeliveryOrder
  import MS = MeasurementService
  import N = NdataRows
  import R = SparkplugRows
  import S = Sparkplug
  import SA = SimpleApp
  import SB = SimpleBatch
  import SP = SimplePayloads

  datatype Config = Config(device: SB.Settings, service: Service)

  /** The simple firmware marks every reading as historical; the topics fit its buffer. */
  predicate ValidConfig(c: Config) {
    && SB.ValidSettings(c.device) && ValidService(c.service) && c.service.historical
    && |S.TopicText(c.service.group, S.NBIRTH, c.service.edge)| < SA.TopicSize
  }

  type State = C.State<D.State>
  type Action = C.Action<D.Action>

  /** Each body is published on its own topic (SimpleApp.Application.PublishNext). */
  function Publications(wire: seq<D.Packet>): seq<Publication> {
    seq(|wire|, i requires 0 <= i < |wire| => Publication(MS.TopicOf(wire[i].b), wire[i].b))
  }

  function ViewOf(s: D.State): C.View {
    C.View(Publications(s.h.wire), s.h.arrived, s.h.accepted, s.app.buffer)
  }

  ghost function Simple(g: SB.Settings): C.Firmware<D.State, D.Action> {
    C.Firmware(D.Initial, (s, a) => D.Enabled(s, a), (s, a) => if D.Enabled(s, a) then D.Step(g, s, a) else s,
               (a: D.Action) => if a.Arrive? then Some(a.packet) else None, s => ViewOf(s))
  }

  ghost function After(c: Config, run: seq<Action>): Option<State> {
    C.After(Simple(c.device), c.service, run)
  }

  // ------------------------------------------------ the firmware fits in

  lemma StepAppends(g: SB.Settings, s: D.State, a: D.Action)
    requires D.Enabled(s, a)
    ensures C.Appends(ViewOf(s), ViewOf(D.Step(g, s, a)), if a.Arrive? then Some(a.packet) else None)
  {
  }

  lemma SimpleIsOrderly(g: SB.Settings)
    ensures C.Orderly(Simple(g))
  {
    var f := Simple(g);
    forall s, a | f.enabled(s, a)
      ensures C.Appends(f.view(s), f.view(f.step(s, a)), f.arrival(a))
    {
      StepAppends(g, s, a);
    }
  }

  lemma {:induction false} SameRuns(g: SB.Settings, run: seq<D.Action>)
    ensures C.DeviceAfter(Simple(g), run) == D.After(g, run)
    decreases |run|
  {
    if run != [] { SameRuns(g, run[..|run| - 1]); }
  }

  /** Each part of the composed system runs as it does alone. */
  lemma PartsRun(c: Config, run: seq<Action>)
    requires After(c, run).Some?
    ensures D.After(c.device, C.DevicePart(run)) == Some(After(c, run).value.device)
    ensures CloudRuns(c.service, C.CloudPart(Simple(c.device), c.service, run), After(c, run).value.cloud)
  {
    C.PartsRun(Simple(c.device), c.service, run);
    SameRuns(c.device, C.DevicePart(run));
  }

  /** No harmful PUBACK was taken. */
  ghost predicate Harmless(c: Config, run: seq<Action>)
    requires After(c, run).Some?
  {
    PartsRun(c, run);
    D.Harmless(c.device, C.DevicePart(run))
  }

  // ------------------------------------------------------ nothing is lost

  lemma {:induction false} RemovedIn(wire: seq<D.Packet>, packets: seq<nat>, x: Measurement) returns (i: nat)
    requires x in D.Readings(wire, packets)
    ensures i < |packets| && x in D.ReadingsOf(wire, packets[i])
  {
    if x in D.ReadingsOf(wire, packets[|packets| - 1]) { i := |packets| - 1; }
    else { i := RemovedIn(wire, packets[..|packets| - 1], x); }
  }

  /** A reading removed from the buffer was in a packet that reached the broker. */
  lemma Conserved(g: SB.Settings, run: seq<D.Action>)
    requires SB.ValidSettings(g) && D.After(g, run).Some? && D.Harmless(g, run)
    ensures C.Conserves(ViewOf(D.After(g, run).value))
  {
    var s := D.After(g, run).value;
    D.Conservation(g, run);
    forall x | x in s.h.accepted && x !in s.app.buffer
      ensures C.Delivered(ViewOf(s), x)
    {
      var i := RemovedIn(s.h.wire, s.h.acked, x);
      assert D.Arrived(s.h.arrived, s.h.acked[i]);
      var k :| 0 <= k < |s.h.arrived| && s.h.arrived[k] == s.h.acked[i];
      assert C.DeliveredIn(ViewOf(s), ViewOf(s).arrived[k], x);
    }
  }

  /** End to end, at any time: each reading the device accepted is in its buffer,
      or in a message the broker still holds, or a message with it was acknowledged
      and its key is in the table, with the row of that message or of one that came
      to the broker later; or an NDATA with it was refused, because the time of one
      of its readings is not storable. */
  lemma NothingIsLost(c: Config, run: seq<Action>, n: nat)
    requires ValidConfig(c) && After(c, run).Some? && Harmless(c, run)
    requires n < |After(c, run).value.device.h.accepted|
    ensures var s, x := After(c, run).value, After(c, run).value.device.h.accepted[n];
            || x in s.device.app.buffer || Held(c.service, s.cloud, x)
            || Stored(c.service, s.cloud, x) || C.PacketRefused(c.service, ViewOf(s.device), s.cloud, x)
  {
    var x := After(c, run).value.device.h.accepted[n];
    SimpleIsOrderly(c.device);
    PartsRun(c, run);
    Conserved(c.device, C.DevicePart(run));
    if x !in After(c, run).value.device.app.buffer { C.DeliveredIsKept(Simple(c.device), c.service, run, x); }
  }

  // ----------------------------------------------------------- exact rows

  lemma PacketsAreGood(g: SB.Settings, run: seq<D.Action>)
    requires SB.ValidSettings(g) && D.After(g, run).Some? && D.Harmless(g, run)
    ensures C.GoodPackets(ViewOf(D.After(g, run).value))
  {
    SP.AlwaysGoodPackets(g, run);
  }

  /** With timely, strictly increasing sampling times, and no other publisher
      writing rows for this device, each accepted reading is in the buffer, in a
      message the broker holds, or its own row is in the table: exactly the
      reading, for every temperature below 83886 degrees. */
  lemma EveryReadingIsStored(c: Config, run: seq<Action>, n: nat)
    requires ValidConfig(c) && After(c, run).Some? && Harmless(c, run)
    requires n < |After(c, run).value.device.h.accepted| && C.OthersAre(run, m => Foreign(c.service, m))
    requires N.AllTimely(After(c, run).value.device.h.accepted) && Increasing(After(c, run).value.device.h.accepted)
    ensures var s, x := After(c, run).value, After(c, run).value.device.h.accepted[n];
            || x in s.device.app.buffer || Held(c.service, s.cloud, x)
            || IO.Lookup(s.cloud.db, DeviceKey(c.service, x)) == Some(N.RowOf(R.Strip(c.service.edge), x))
    ensures var x := After(c, run).value.device.h.accepted[n];
            -0x80_0000 < x.temperature < 0x80_0000 ==>
              N.RowOf(R.Strip(c.service.edge), x)
              == R.Row(x.timestamp * 1_000_000_000, R.Strip(c.service.edge), Some(x.temperature), Some(x.battery))
  {
    var x := After(c, run).value.device.h.accepted[n];
    if -0x80_0000 < x.temperature < 0x80_0000 { N.RowIsExact(R.Strip(c.service.edge), x); }
    SimpleIsOrderly(c.device);
    PartsRun(c, run);
    NothingIsLost(c, run, n);
    PacketsAreGood(c.device, C.DevicePart(run));
    if x !in After(c, run).value.device.app.buffer { C.KeptIsExact(Simple(c.device), c.service, run, n); }
  }

  /** This device never stops the ingest service either: while no message of another
      publisher ends the writer thread, all messages can still be acknowledged. */
  lemma DeviceNeverStopsDelivery(c: Config, run: seq<Action>)
    requires ValidConfig(c) && After(c, run).Some? && Harmless(c, run)
    requires C.OthersAre(run, m => !Parse(c.service, m).Crashes?)
    ensures exists longer :: DP.Clears(Ingest(c.service), C.CloudPart(Simple(c.device), c.service, run), longer,
                                       |After(c, run).value.cloud.msgs|)
  {
    SimpleIsOrderly(c.device);
    PartsRun(c, run);
    PacketsAreGood(c.device, C.DevicePart(run));
    C.NeverStopsDelivery(Simple(c.device), c.service, run);
  }
}

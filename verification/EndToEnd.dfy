/** The full firmware with the broker, the ingest service and the database: no
    reading the device accepted is ever lost, but for those an NDATA of which was
    refused. */
module EndToEnd {
  import opened Common
  import opened MessageRows
  import C = Composition
  import D = Device
  import DS = DeviceSound
  import DO = DeviceOutbox
  import DevicePayloads
  import DP = DeliveryProgress
  import IO = DeliveryOrder
  import MC = MqttClient
  import MS = MeasurementService
  import N = NdataRows
  import O = Outbox
  import PB = PublishBuffer
  import PK = PublishPackets
  import PP = PublishProtocol
  import R = SparkplugRows
  import S = Sparkplug

  datatype Config = Config(device: D.Config, service: Service)

  /** The topics fit the firmware's buffer, and both sides agree on the historical flag. */
  predicate ValidConfig(c: Config) {
    && D.ValidConfig(c.device) && ValidService(c.service) && c.service.historical == c.device.settings.batch
    && |S.TopicText(c.service.group, S.NBIRTH, c.service.edge)| < MC.TopicSize
  }

  type State = C.State<D.State>
  type Action = C.Action<D.Action>

  function Publications(wire: seq<PP.Packet<S.MessageType, MS.Body>>): seq<Publication> {
    seq(|wire|, i requires 0 <= i < |wire| => Publication(wire[i].m.topic, wire[i].m.payload))
  }

  function ViewOf(s: D.State): C.View {
    C.View(Publications(s.ch.h.wire), s.ch.h.arrived, s.h.accepted, s.svc.buffer)
  }

  ghost function Full(g: D.Config): C.Firmware<D.State, D.Action> {
    C.Firmware(D.Initial(g), (s, a) => D.Enabled(s, a), (s, a) => if D.Enabled(s, a) then D.Step(g, s, a) else s,
               (a: D.Action) => if a.Arrive? then Some(a.packet) else None, s => ViewOf(s))
  }

  ghost function After(c: Config, run: seq<Action>): Option<State> {
    C.After(Full(c.device), c.service, run)
  }

  // ------------------------------------------------ the firmware fits in

  lemma WireGrows(g: D.Config, s: D.State, a: D.Action)
    requires D.Enabled(s, a) && !a.Arrive?
    ensures var s' := D.Step(g, s, a); s.ch.h.wire <= s'.ch.h.wire && s'.ch.h.arrived == s.ch.h.arrived
  {
    if DS.Protocol(a) { ProtocolGrows(g, s, a); } else { DS.OutsideStep(g, s, a); }
  }

  lemma ProtocolGrows(g: D.Config, s: D.State, a: D.Action)
    requires D.Enabled(s, a) && !a.Arrive? && DS.Protocol(a)
    ensures var s' := D.Step(g, s, a); s.ch.h.wire <= s'.ch.h.wire && s'.ch.h.arrived == s.ch.h.arrived
  {
    match a {
      case CallerNext(ok) => PB.CallerFrame(s.ch, ok);
      case SenderNext(_, _) => case RetryNext => case Puback(_, _) => case PostPuback =>
      case StartPublish(_) => case StartJob => case StartRetry =>
    }
  }

  lemma StepAppends(g: D.Config, s: D.State, a: D.Action)
    requires D.Enabled(s, a)
    ensures C.Appends(ViewOf(s), ViewOf(D.Step(g, s, a)), if a.Arrive? then Some(a.packet) else None)
  {
    if !a.Arrive? { WireGrows(g, s, a); }
  }

  lemma FullIsOrderly(g: D.Config)
    ensures C.Orderly(Full(g))
  {
    var f := Full(g);
    forall s, a | f.enabled(s, a)
      ensures C.Appends(f.view(s), f.view(f.step(s, a)), f.arrival(a))
    {
      StepAppends(g, s, a);
    }
  }

  lemma {:induction false} SameRuns(g: D.Config, run: seq<D.Action>)
    ensures C.DeviceAfter(Full(g), run) == D.After(g, run)
    decreases |run|
  {
    if run != [] { SameRuns(g, run[..|run| - 1]); }
  }

  /** Each part of the composed system runs as it does alone. */
  lemma PartsRun(c: Config, run: seq<Action>)
    requires After(c, run).Some?
    ensures D.After(c.device, C.DevicePart(run)) == Some(After(c, run).value.device)
    ensures CloudRuns(c.service, C.CloudPart(Full(c.device), c.service, run), After(c, run).value.cloud)
  {
    C.PartsRun(Full(c.device), c.service, run);
    SameRuns(c.device, C.DevicePart(run));
  }

  // ------------------------------------------------------ nothing is lost

  lemma {:induction false} CommittedIn(submitted: DO.Submitted, tokens: seq<nat>, x: Measurement) returns (i: nat)
    requires x in DO.Readings(submitted, tokens)
    ensures i < |tokens| && x in DO.ReadingsOf(submitted, tokens[i])
  {
    if x in DO.ReadingsOf(submitted, tokens[|tokens| - 1]) { i := |tokens| - 1; }
    else { i := CommittedIn(submitted, tokens[..|tokens| - 1], x); }
  }

  /** Every packet has the topic of its body, and an NDATA readings the device accepted. */
  lemma PacketsAreGood(g: D.Config, run: seq<D.Action>)
    requires D.ValidConfig(g) && D.After(g, run).Some?
    ensures C.GoodPackets(ViewOf(D.After(g, run).value))
  {
    var s := D.After(g, run).value;
    DS.AlwaysSound(g, run);
    DevicePayloads.AlwaysGoodBodies(g, run);
    forall k | 0 <= k < |s.ch.h.wire|
      ensures Labelled(ViewOf(s).packets[k]) && O.GoodBody(s.h.accepted, ViewOf(s).packets[k].body)
    {
      assert PK.GoodPacket(s.ch, s.ch.h.wire[k]);
    }
  }

  /** A reading removed from the buffer was in a packet that reached the broker. */
  lemma Conserved(g: D.Config, run: seq<D.Action>)
    requires D.ValidConfig(g) && D.After(g, run).Some?
    ensures C.Conserves(ViewOf(D.After(g, run).value))
  {
    var s := D.After(g, run).value;
    DO.Conservation(g, run);
    PacketsAreGood(g, run);
    forall x | x in s.h.accepted && x !in s.svc.buffer
      ensures C.Delivered(ViewOf(s), x)
    {
      var i := CommittedIn(s.ch.h.submitted, s.h.commits, x);
      var k :| 0 <= k < |s.ch.h.arrived| && DO.Delivered(s.ch.h, s.ch.h.arrived[k], s.h.commits[i]);
      assert C.DeliveredIn(ViewOf(s), ViewOf(s).arrived[k], x);
    }
  }

  /** End to end, at any time: each reading the device accepted is in its buffer,
      or in a message the broker still holds, or a message with it was acknowledged
      and its key is in the table, with the row of that message or of one that came
      to the broker later; or an NDATA with it was refused, because the time of one
      of its readings is not storable. */
  lemma NothingIsLost(c: Config, run: seq<Action>, n: nat)
    requires ValidConfig(c) && After(c, run).Some? && n < |After(c, run).value.device.h.accepted|
    ensures var s, x := After(c, run).value, After(c, run).value.device.h.accepted[n];
            || x in s.device.svc.buffer || Held(c.service, s.cloud, x)
            || Stored(c.service, s.cloud, x) || C.PacketRefused(c.service, ViewOf(s.device), s.cloud, x)
  {
    var x := After(c, run).value.device.h.accepted[n];
    FullIsOrderly(c.device);
    PartsRun(c, run);
    Conserved(c.device, C.DevicePart(run));
    if x !in After(c, run).value.device.svc.buffer { C.DeliveredIsKept(Full(c.device), c.service, run, x); }
  }

  // ----------------------------------------------------------- exact rows

  /** With timely, strictly increasing sampling times, and no other publisher
      writing rows for this device, each accepted reading is in the buffer, in a
      message the broker holds, or its own row is in the table: exactly the
      reading, for every temperature below 83886 degrees. */
  lemma EveryReadingIsStored(c: Config, run: seq<Action>, n: nat)
    requires ValidConfig(c) && After(c, run).Some? && n < |After(c, run).value.device.h.accepted|
    requires C.OthersAre(run, m => Foreign(c.service, m))
    requires N.AllTimely(After(c, run).value.device.h.accepted) && Increasing(After(c, run).value.device.h.accepted)
    ensures var s, x := After(c, run).value, After(c, run).value.device.h.accepted[n];
            || x in s.device.svc.buffer || Held(c.service, s.cloud, x)
            || IO.Lookup(s.cloud.db, DeviceKey(c.service, x)) == Some(N.RowOf(R.Strip(c.service.edge), x))
    ensures var x := After(c, run).value.device.h.accepted[n];
            -0x80_0000 < x.temperature < 0x80_0000 ==>
              N.RowOf(R.Strip(c.service.edge), x)
              == R.Row(x.timestamp * 1_000_000_000, R.Strip(c.service.edge), Some(x.temperature), Some(x.battery))
  {
    var x := After(c, run).value.device.h.accepted[n];
    if -0x80_0000 < x.temperature < 0x80_0000 { N.RowIsExact(R.Strip(c.service.edge), x); }
    FullIsOrderly(c.device);
    PartsRun(c, run);
    NothingIsLost(c, run, n);
    PacketsAreGood(c.device, C.DevicePart(run));
    if x !in After(c, run).value.device.svc.buffer { C.KeptIsExact(Full(c.device), c.service, run, n); }
  }

  /** The device never stops the ingest service: while no message of another
      publisher ends the writer thread, all messages can still be acknowledged. */
  lemma DeviceNeverStopsDelivery(c: Config, run: seq<Action>)
    requires ValidConfig(c) && After(c, run).Some?
    requires C.OthersAre(run, m => !Parse(c.service, m).Crashes?)
    ensures exists longer :: DP.Clears(Ingest(c.service), C.CloudPart(Full(c.device), c.service, run), longer,
                                       |After(c, run).value.cloud.msgs|)
  {
    FullIsOrderly(c.device);
    PartsRun(c, run);
    PacketsAreGood(c.device, C.DevicePart(run));
    C.NeverStopsDelivery(Full(c.device), c.service, run);
  }
}

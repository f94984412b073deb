/** A firmware, the broker, the ingest service and the database as one system:
    every packet that reaches the broker becomes a message of its session. Of the
    firmware only its steps and its view are known; modules EndToEnd and
    SimpleEndToEnd put the two firmwares in. */
module Composition {
  import opened Common
  import opened MessageRows
  import DP = DeliveryProgress
  import I = Delivery
  import IO = DeliveryOrder
  import N = NdataRows
  import O = Outbox
  import R = SparkplugRows

  /** What is seen of a firmware: the packets it has written, which of them have
      reached the broker, the readings it has accepted, and its buffer. */
  datatype View = View(
    packets: seq<Publication>, arrived: seq<nat>, accepted: seq<Measurement>, buffer: seq<Measurement>)

  /** A firmware with states D and actions A; `arrival` tells which actions are
      the arrival of a packet at the broker, and of which packet. */
  datatype Firmware<!D, !A> = Firmware(
    initial: D, enabled: (D, A) -> bool, step: (D, A) -> D, arrival: A -> Option<nat>, view: D -> View)

  /** Packets are written at the end, and only written packets arrive. */
  predicate Appends(w: View, w': View, arrival: Option<nat>) {
    match arrival
    case None => w.packets <= w'.packets && w'.arrived == w.arrived
    case Some(k) => k < |w.packets| && w'.packets == w.packets && w'.arrived == w.arrived + [k]
  }

  ghost predicate Orderly<D(!new), A(!new)>(f: Firmware<D, A>) {
    && f.view(f.initial).arrived == []
    && forall s, a :: f.enabled(s, a) ==> Appends(f.view(s), f.view(f.step(s, a)), f.arrival(a))
  }

  /** The state of a firmware after a run of its own. */
  ghost function DeviceAfter<D, A>(f: Firmware<D, A>, run: seq<A>): Option<D>
    decreases |run|
  {
    if run == [] then Some(f.initial)
    else
      var before := DeviceAfter(f, run[..|run| - 1]);
      if before.Some? && f.enabled(before.value, run[|run| - 1])
      then Some(f.step(before.value, run[|run| - 1])) else None
  }

  // ------------------------------------------------------------- the system

  datatype State<D> = State(device: D, cloud: Cloud)

  datatype Action<A> = OnDevice(a: A) | InCloud(b: CloudAction)

  /** A packet's arrival at the broker is a step of both; messages of other
      publishers, of any kind, are accepted in between. */
  ghost predicate Enabled<D, A>(f: Firmware<D, A>, v: Service, s: State<D>, a: Action<A>) {
    match a
    case OnDevice(a') => f.enabled(s.device, a')
    case InCloud(b) => I.Enabled(Ingest(v), s.cloud, b)
  }

  /** What a step is for the broker. */
  function InCloudPart<D, A>(f: Firmware<D, A>, v: Service, s: State<D>, a: Action<A>): seq<CloudAction> {
    match a
    case InCloud(b) => [b]
    case OnDevice(a') =>
      match f.arrival(a')
      case None => []
      case Some(k) =>
        var packets := f.view(s.device).packets;
        if k < |packets| then [I.Accept(Received(v, packets[k]))] else []
  }

  ghost function CloudStep(v: Service, s: Cloud, part: seq<CloudAction>): Cloud {
    if part != [] && I.Enabled(Ingest(v), s, part[0]) then I.Step(Ingest(v), s, part[0]) else s
  }

  ghost function Step<D, A>(f: Firmware<D, A>, v: Service, s: State<D>, a: Action<A>): State<D> {
    State(if a.OnDevice? then f.step(s.device, a.a) else s.device, CloudStep(v, s.cloud, InCloudPart(f, v, s, a)))
  }

  ghost function After<D, A>(f: Firmware<D, A>, v: Service, run: seq<Action<A>>): Option<State<D>>
    decreases |run|
  {
    if run == [] then Some(State(f.initial, I.Initial()))
    else
      var before := After(f, v, run[..|run| - 1]);
      if before.Some? && Enabled(f, v, before.value, run[|run| - 1])
      then Some(Step(f, v, before.value, run[|run| - 1])) else None
  }

  // -------------------------------------------------- the runs of the parts

  /** What the device does in a run. */
  function DevicePart<A>(run: seq<Action<A>>): seq<A>
    decreases |run|
  {
    if run == [] then []
    else
      var part, a := DevicePart(run[..|run| - 1]), run[|run| - 1];
      if a.OnDevice? then part + [a.a] else part
  }

  /** What broker and ingest service do in a run. */
  ghost function CloudPart<D, A>(f: Firmware<D, A>, v: Service, run: seq<Action<A>>): seq<CloudAction>
    requires After(f, v, run).Some?
    decreases |run|
  {
    if run == [] then []
    else
      CloudPart(f, v, run[..|run| - 1])
        + InCloudPart(f, v, After(f, v, run[..|run| - 1]).value, run[|run| - 1])
  }

  lemma DeviceLonger<D, A>(f: Firmware<D, A>, run: seq<A>, s: D, a: A)
    requires DeviceAfter(f, run) == Some(s) && f.enabled(s, a)
    ensures DeviceAfter(f, run + [a]) == Some(f.step(s, a))
  {
    assert (run + [a])[..|run|] == run;
  }

  lemma CloudLonger(v: Service, run: seq<CloudAction>, s: Cloud, part: seq<CloudAction>)
    requires CloudRuns(v, run, s) && |part| <= 1 && (part != [] ==> I.Enabled(Ingest(v), s, part[0]))
    ensures CloudRuns(v, run + part, CloudStep(v, s, part))
  {
    if part == [] {
      assert run + part == run;
    } else {
      assert part == [part[0]] && (run + part)[..|run|] == run;
    }
  }

  /** Each part of the composed system runs as it does alone. */
  lemma {:induction false} PartsRun<D, A>(f: Firmware<D, A>, v: Service, run: seq<Action<A>>)
    requires After(f, v, run).Some?
    ensures DeviceAfter(f, DevicePart(run)) == Some(After(f, v, run).value.device)
    ensures CloudRuns(v, CloudPart(f, v, run), After(f, v, run).value.cloud)
    decreases |run|
  {
    if run != [] {
      var before, a := run[..|run| - 1], run[|run| - 1];
      var s := After(f, v, before).value;
      PartsRun(f, v, before);
      if a.OnDevice? { DeviceLonger(f, DevicePart(before), s.device, a.a); }
      CloudLonger(v, CloudPart(f, v, before), s.cloud, InCloudPart(f, v, s, a));
    }
  }

  // ------------------------------------------- packets become messages

  ghost predicate Entered(v: Service, w: View, msgs: seq<Message>, n: nat) {
    n < |w.packets| && Received(v, w.packets[n]) in msgs
  }

  /** Every packet that has arrived is among the broker's messages. */
  ghost predicate AllEntered(v: Service, w: View, msgs: seq<Message>) {
    forall k :: 0 <= k < |w.arrived| ==> Entered(v, w, msgs, w.arrived[k])
  }

  /** The messages a step adds. */
  function Added(part: seq<CloudAction>): seq<Message> {
    if part != [] && part[0].Accept? then [part[0].m] else []
  }

  lemma StepAdds<D(!new), A(!new)>(f: Firmware<D, A>, v: Service, s: State<D>, a: Action<A>)
    requires Orderly(f) && Enabled(f, v, s, a)
    ensures Step(f, v, s, a).cloud.msgs == s.cloud.msgs + Added(InCloudPart(f, v, s, a))
  {
    var part := InCloudPart(f, v, s, a);
    if part != [] { CloudAdds(v, s.cloud, part[0]); }
  }

  lemma EnteredKept(v: Service, w: View, msgs: seq<Message>, w': View, more: seq<Message>)
    requires AllEntered(v, w, msgs) && w.packets <= w'.packets
    ensures forall k :: 0 <= k < |w.arrived| ==> Entered(v, w', msgs + more, w.arrived[k])
  {
    forall k | 0 <= k < |w.arrived|
      ensures Entered(v, w', msgs + more, w.arrived[k])
    {
      assert Entered(v, w, msgs, w.arrived[k]);
    }
  }

  lemma StepEnters<D(!new), A(!new)>(f: Firmware<D, A>, v: Service, s: State<D>, a: Action<A>)
    requires Orderly(f) && Enabled(f, v, s, a) && AllEntered(v, f.view(s.device), s.cloud.msgs)
    ensures AllEntered(v, f.view(Step(f, v, s, a).device), Step(f, v, s, a).cloud.msgs)
  {
    var s', part := Step(f, v, s, a), InCloudPart(f, v, s, a);
    var w, w' := f.view(s.device), f.view(s'.device);
    StepAdds(f, v, s, a);
    EnteredKept(v, w, s.cloud.msgs, w', Added(part));
    if a.OnDevice? && f.arrival(a.a).Some? {
      assert s'.cloud.msgs[|s.cloud.msgs|] == Received(v, w.packets[f.arrival(a.a).value]);
      assert Entered(v, w', s'.cloud.msgs, f.arrival(a.a).value);
    }
  }

  lemma {:induction false} AlwaysEntered<D(!new), A(!new)>(f: Firmware<D, A>, v: Service, run: seq<Action<A>>)
    requires Orderly(f) && After(f, v, run).Some?
    ensures AllEntered(v, f.view(After(f, v, run).value.device), After(f, v, run).value.cloud.msgs)
    decreases |run|
  {
    if run != [] {
      AlwaysEntered(f, v, run[..|run| - 1]);
      StepEnters(f, v, After(f, v, run[..|run| - 1]).value, run[|run| - 1]);
    }
  }

  // ------------------------------------------------------ nothing is lost

  /** A packet with the reading has reached the broker. */
  ghost predicate Delivered(w: View, x: Measurement) {
    exists k :: 0 <= k < |w.arrived| && DeliveredIn(w, w.arrived[k], x)
  }

  ghost predicate DeliveredIn(w: View, n: nat, x: Measurement) {
    n < |w.packets| && Labelled(w.packets[n]) && Holds(w.packets[n].body, x)
  }

  ghost predicate Conserves(w: View) {
    forall x :: x in w.accepted ==> x in w.buffer || Delivered(w, x)
  }

  /** A packet with the reading was refused as a message. */
  ghost predicate PacketRefused(v: Service, w: View, s: Cloud, x: Measurement) {
    exists k :: 0 <= k < |w.packets| && Holds(w.packets[k].body, x) && Refused(v, s, w.packets[k].body)
  }

  /** The reading is held by the broker, or was stored, or was refused. */
  ghost predicate Kept(v: Service, w: View, s: Cloud, x: Measurement) {
    Held(v, s, x) || Stored(v, s, x) || PacketRefused(v, w, s, x)
  }

  /** A packet on its own topic is received as the message of its body. */
  lemma EnteredMessage(v: Service, w: View, msgs: seq<Message>, n: nat) returns (j: nat)
    requires Entered(v, w, msgs, n) && Labelled(w.packets[n])
    ensures j < |msgs| && msgs[j] == MessageOf(v, w.packets[n].body)
  {
    j :| 0 <= j < |msgs| && msgs[j] == Received(v, w.packets[n]);
  }

  lemma EnteredIsKept(v: Service, run: seq<CloudAction>, s: Cloud, w: View, n: nat, x: Measurement)
    requires ValidService(v) && CloudRuns(v, run, s) && Entered(v, w, s.msgs, n) && DeliveredIn(w, n, x)
    ensures Kept(v, w, s, x)
  {
    var j := EnteredMessage(v, w, s.msgs, n);
    MessageIsKept(v, run, s, j, w.packets[n].body, x);
  }

  lemma DeliveredIsKept<D(!new), A(!new)>(f: Firmware<D, A>, v: Service, run: seq<Action<A>>, x: Measurement)
    requires Orderly(f) && ValidService(v) && After(f, v, run).Some?
    requires Delivered(f.view(After(f, v, run).value.device), x)
    ensures Kept(v, f.view(After(f, v, run).value.device), After(f, v, run).value.cloud, x)
  {
    var s := After(f, v, run).value;
    AlwaysEntered(f, v, run);
    PartsRun(f, v, run);
    var w := f.view(s.device);
    var k :| 0 <= k < |w.arrived| && DeliveredIn(w, w.arrived[k], x);
    EnteredIsKept(v, CloudPart(f, v, run), s.cloud, w, w.arrived[k], x);
  }

  // ----------------------------------------------------------- exact rows

  /** Messages of other publishers satisfy p. */
  ghost predicate OthersAre<A>(run: seq<Action<A>>, p: Message -> bool) {
    forall i :: 0 <= i < |run| && run[i].InCloud? && run[i].b.Accept? ==> p(run[i].b.m)
  }

  ghost predicate FromPacket(v: Service, w: View, m: Message) {
    exists n :: 0 <= n < |w.packets| && m == Received(v, w.packets[n])
  }

  ghost predicate Sources(v: Service, w: View, msgs: seq<Message>, p: Message -> bool) {
    forall i :: 0 <= i < |msgs| ==> p(msgs[i]) || FromPacket(v, w, msgs[i])
  }

  lemma SourcesStay(v: Service, w: View, w': View, msgs: seq<Message>, more: seq<Message>, p: Message -> bool)
    requires Sources(v, w, msgs, p) && w.packets <= w'.packets && Sources(v, w', more, p)
    ensures Sources(v, w', msgs + more, p)
  {
    forall i | 0 <= i < |msgs| && !p(msgs[i])
      ensures FromPacket(v, w', msgs[i])
    {
      var n :| 0 <= n < |w.packets| && msgs[i] == Received(v, w.packets[n]);
      assert w'.packets[n] == w.packets[n];
    }
  }

  /** What a step adds is another publisher's message, or a packet's. */
  lemma AddedSources<D(!new), A(!new)>(f: Firmware<D, A>, v: Service, s: State<D>, a: Action<A>, p: Message -> bool)
    requires Orderly(f) && Enabled(f, v, s, a) && (a.InCloud? && a.b.Accept? ==> p(a.b.m))
    ensures f.view(s.device).packets <= f.view(Step(f, v, s, a).device).packets
    ensures Sources(v, f.view(Step(f, v, s, a).device), Added(InCloudPart(f, v, s, a)), p)
  {
    var w, w', more := f.view(s.device), f.view(Step(f, v, s, a).device), Added(InCloudPart(f, v, s, a));
    if a.OnDevice? && more != [] {
      var k := f.arrival(a.a).value;
      assert more[0] == Received(v, w'.packets[k]);
    }
  }

  lemma StepKeepsSources<D(!new), A(!new)>(f: Firmware<D, A>, v: Service, s: State<D>, a: Action<A>,
                                           p: Message -> bool)
    requires Orderly(f) && Enabled(f, v, s, a) && Sources(v, f.view(s.device), s.cloud.msgs, p)
    requires a.InCloud? && a.b.Accept? ==> p(a.b.m)
    ensures Sources(v, f.view(Step(f, v, s, a).device), Step(f, v, s, a).cloud.msgs, p)
  {
    StepAdds(f, v, s, a);
    AddedSources(f, v, s, a, p);
    SourcesStay(v, f.view(s.device), f.view(Step(f, v, s, a).device), s.cloud.msgs, Added(InCloudPart(f, v, s, a)), p);
  }

  lemma {:induction false} AlwaysSources<D(!new), A(!new)>(f: Firmware<D, A>, v: Service, run: seq<Action<A>>,
                                                           p: Message -> bool)
    requires Orderly(f) && After(f, v, run).Some? && OthersAre(run, p)
    ensures Sources(v, f.view(After(f, v, run).value.device), After(f, v, run).value.cloud.msgs, p)
    decreases |run|
  {
    if run != [] {
      AlwaysSources(f, v, run[..|run| - 1], p);
      StepKeepsSources(f, v, After(f, v, run[..|run| - 1]).value, run[|run| - 1], p);
    }
  }

  /** Every packet is an NBIRTH or an NDATA with a stretch of the accepted
      readings, on its own topic. */
  ghost predicate GoodPackets(w: View) {
    forall k :: 0 <= k < |w.packets| ==> Labelled(w.packets[k]) && O.GoodBody(w.accepted, w.packets[k].body)
  }

  lemma SourcesKnown(v: Service, w: View, msgs: seq<Message>)
    requires GoodPackets(w) && Sources(v, w, msgs, m => Foreign(v, m))
    ensures Known(v, w.accepted, msgs)
  {
    forall i | 0 <= i < |msgs| && !Foreign(v, msgs[i])
      ensures FromDevice(v, w.accepted, msgs[i])
    {
      var n :| 0 <= n < |w.packets| && msgs[i] == Received(v, w.packets[n]);
      assert O.GoodBody(w.accepted, w.packets[n].body);
    }
  }

  lemma TimelyNeverRefused(v: Service, w: View, s: Cloud, x: Measurement)
    requires GoodPackets(w) && N.AllTimely(w.accepted)
    ensures !PacketRefused(v, w, s, x)
  {
    if k :| 0 <= k < |w.packets| && Holds(w.packets[k].body, x) && Refused(v, s, w.packets[k].body) {
      TimelyReadings(w.accepted, w.packets[k].body.readings);
    }
  }

  /** With timely, strictly increasing sampling times and no other publisher for
      the device, a delivered reading is held or its own row is in the table. */
  lemma KeptIsExact<D(!new), A(!new)>(f: Firmware<D, A>, v: Service, run: seq<Action<A>>, n: nat)
    requires Orderly(f) && ValidService(v) && After(f, v, run).Some? && OthersAre(run, m => Foreign(v, m))
    requires var w := f.view(After(f, v, run).value.device);
             && GoodPackets(w) && n < |w.accepted| && N.AllTimely(w.accepted) && Increasing(w.accepted)
             && Kept(v, w, After(f, v, run).value.cloud, w.accepted[n])
    ensures var s, x := After(f, v, run).value.cloud, f.view(After(f, v, run).value.device).accepted[n];
            Held(v, s, x) || IO.Lookup(s.db, DeviceKey(v, x)) == Some(N.RowOf(R.Strip(v.edge), x))
  {
    var s := After(f, v, run).value;
    var w := f.view(s.device);
    AlwaysSources(f, v, run, m => Foreign(v, m));
    SourcesKnown(v, w, s.cloud.msgs);
    TimelyNeverRefused(v, w, s.cloud, w.accepted[n]);
    if !Held(v, s.cloud, w.accepted[n]) {
      var j, i :| StoredSince(v, s.cloud, w.accepted[n], j, i);
      ShownIsExact(v, s.cloud, w.accepted, i, n);
    }
  }

  /** The device never stops the ingest service: while no message of another
      publisher ends the writer thread, all messages can still be acknowledged. */
  lemma NeverStopsDelivery<D(!new), A(!new)>(f: Firmware<D, A>, v: Service, run: seq<Action<A>>)
    requires Orderly(f) && ValidService(v) && After(f, v, run).Some? && OthersAre(run, m => !Parse(v, m).Crashes?)
    requires GoodPackets(f.view(After(f, v, run).value.device))
    ensures exists longer ::
              DP.Clears(Ingest(v), CloudPart(f, v, run), longer, |After(f, v, run).value.cloud.msgs|)
  {
    var s := After(f, v, run).value;
    var w := f.view(s.device);
    PartsRun(f, v, run);
    AlwaysSources(f, v, run, m => !Parse(v, m).Crashes?);
    forall j: nat | j < |s.cloud.msgs|
      ensures !DP.CrashesAt(Ingest(v), s.cloud.msgs, j)
    {
      if FromPacket(v, w, s.cloud.msgs[j]) {
        var n :| 0 <= n < |w.packets| && s.cloud.msgs[j] == Received(v, w.packets[n]);
        assert O.GoodBody(w.accepted, w.packets[n].body);
        BodyIsParsed(v, w.packets[n].body);
      }
    }
    DP.DeliverableIffNoCrash(Ingest(v), CloudPart(f, v, run));
  }
}

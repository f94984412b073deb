/** The simple firmware: its application loop (main.c) and its MQTT client. The
    functions are the operations on the loop's state; the classes are the C code;
    module SimpleDevice interleaves the same operations with the callbacks. */
module SimpleApp {
  import opened Common
  import MS = MeasurementService
  import S = Sparkplug
  import SB = SimpleBatch

  /** The event bits that wake the application thread. */
  datatype Bit = NewMeasurement | NetworkChanged | WentUp | WentDown | GotPuback

  datatype MqttState = Idle | Connecting | Connected | Disconnecting

  datatype App = App(
    mqtt: MqttState, delay: nat, reconnectAt: int, birthAcked: bool, bdSeq: uint8, current: uint8,
    awaiting: bool, deadline: int, sentCount: nat, skipped: uint32, buffer: seq<Measurement>)

  const InitialDelay: nat := 5
  const MaxDelay: nat := 60
  const PubackTimeout: nat := 120
  const QueueLength: nat := 8
  const TopicSize: nat := 64

  const Start := App(Idle, InitialDelay, 0, false, 0, 0, false, 0, 0, 0, [])

  /** PAYLOAD_SIZE */
  function PayloadSize(g: SB.Settings): nat {
    var n := 16 + 70 * g.capacity;
    if n >= 80 then n else 80
  }

  /** One round of collect_measurements. */
  function Collected(g: SB.Settings, a: App, m: Measurement): App {
    if |a.buffer| < g.capacity then a.(buffer := a.buffer + [m]) else a.(skipped := (a.skipped + 1) % 0x1_0000_0000)
  }

  function CollectedAll(g: SB.Settings, a: App, queue: seq<Measurement>): App
    decreases |queue|
  {
    if queue == [] then a else CollectedAll(g, Collected(g, a, queue[0]), queue[1..])
  }

  /** handle_puback */
  function PubackHandled(a: App): App {
    if !a.awaiting then a
    else if !a.birthAcked then a.(awaiting := false, birthAcked := true, current := 1)
    else a.(awaiting := false, buffer := SB.Rest(a.buffer, a.sentCount), current := NextSeq(a.current))
  }

  /** schedule_reconnect */
  function Scheduled(a: App, now: int): App {
    a.(mqtt := Idle, reconnectAt := now + a.delay * 1000, delay := Min(a.delay * 2, MaxDelay))
  }

  /** check_puback_timeout closes the connection. */
  predicate Overdue(a: App, now: int) {
    a.awaiting && now >= a.deadline
  }

  function TimedOut(a: App): App {
    a.(awaiting := false, mqtt := Disconnecting)
  }

  /** The first two parts of update_connection. */
  function Updated(a: App, events: set<Bit>, now: int): App {
    var a' := if WentUp in events && a.mqtt == Connecting then a.(mqtt := Connected, delay := InitialDelay) else a;
    if WentDown in events && a'.mqtt != Idle
    then Scheduled(a'.(awaiting := false, birthAcked := false, bdSeq := NextSeq(a'.bdSeq)), now) else a'
  }

  predicate MayConnect(a: App, network: bool, now: int) {
    a.mqtt == Idle && network && now >= a.reconnectAt
  }

  /** The end of update_connection, with the result of aitsm_mqtt_connect. */
  function Attempted(a: App, ok: bool, now: int): App {
    if ok then a.(mqtt := Connecting) else Scheduled(a, now)
  }

  /** What publish_next sends, if anything. */
  function Next(g: SB.Settings, a: App, nowMs: uint64): Option<MS.Body> {
    if a.mqtt != Connected || a.awaiting then None
    else if !a.birthAcked then Some(MS.Birth(nowMs, a.bdSeq))
    else if |a.buffer| >= g.size && a.buffer != [] then Some(MS.Data(a.current, a.buffer))
    else None
  }

  /** publish_next notes the number of readings before it encodes them. */
  function Counted(a: App, b: MS.Body): App {
    if b.Data? then a.(sentCount := |b.readings|) else a
  }

  /** publish, when the client took the message. */
  function Sent(a: App, now: int): App {
    a.(awaiting := true, deadline := now + PubackTimeout * 1000)
  }

  /** next_wakeup: the time until which the loop sleeps if no event comes. */
  function Wakeup(a: App, network: bool): Option<int> {
    if a.awaiting then Some(a.deadline) else if a.mqtt == Idle && network then Some(a.reconnectAt) else None
  }

  function BodyBytes(b: MS.Body): seq<byte>
    requires b.Data? ==> b.readings != []
  {
    match b
    case Birth(t, bd) => S.NbirthBytes(t, bd)
    case Data(current, readings) => S.NdataBytes(readings, current, true)
  }

  // ------------------------------------------------------------------ client

  /** The static of mqtt_client.c; `bits` are the events its handler has posted. */
  class MqttClient {
    var pendingMessageId: nat
    var bits: set<Bit>

    constructor ()
      ensures pendingMessageId == 0 && bits == {}
    {
      pendingMessageId, bits := 0, {};
    }

    method OnConnack(accepted: bool)
      modifies this`bits
      ensures bits == if accepted then old(bits) + {WentUp} else old(bits)
    {
      if !accepted {
        return;
      }
      bits := bits + {WentUp};
    }

    method OnDisconnect()
      modifies this
      ensures pendingMessageId == 0 && bits == old(bits) + {WentDown}
    {
      pendingMessageId := 0;
      bits := bits + {WentDown};
    }

    /** Only a successful PUBACK of the pending message is reported, and once. */
    method OnPuback(id: nat, ok: bool)
      requires id != 0
      modifies this
      ensures var mine := ok && id == old(pendingMessageId);
              pendingMessageId == (if mine then 0 else old(pendingMessageId))
                && bits == if mine then old(bits) + {GotPuback} else old(bits)
    {
      if !ok || pendingMessageId != id {
        return;
      }
      pendingMessageId := 0;
      bits := bits + {GotPuback};
    }

    /** `write` is the result of mqtt_helper_publish. */
    method Publish(topic: string, payload: seq<byte>, id: nat, write: bool)
      returns (r: Result<(nat, string, seq<byte>), Errno>)
      requires id != 0
      modifies this`pendingMessageId
      ensures r == if old(pendingMessageId) != 0 then Err(EBUSY) else if write then Ok((id, topic, payload))
              else Err(EIO)
      ensures pendingMessageId == if r.Ok? then id else old(pendingMessageId)
    {
      if pendingMessageId != 0 {
        return Err(EBUSY);
      }
      pendingMessageId := id;
      if !write {
        pendingMessageId := 0;
        return Err(EIO);
      }
      return Ok((id, topic, payload));
    }
  }

  // -------------------------------------------------------------------- loop

  /** The times, results and identifiers one round of the loop gets from outside. */
  datatype Outside = Outside(
    checkedAt: int, closes: bool, updatedAt: int, network: bool, connectAt: int, connects: bool, connectedAt: int,
    utcMs: uint64, id: nat, writes: bool, sentAt: int)

  /** The loop's state before update_connection may ask for a connection, and
      whether aitsm_mqtt_disconnect failed, so that the loop posted the event itself. */
  function Handled(g: SB.Settings, a: App, queue: seq<Measurement>, events: set<Bit>, o: Outside): (App, bool) {
    var a1 := CollectedAll(g, a, queue);
    var a2 := if GotPuback in events then PubackHandled(a1) else a1;
    var late := Overdue(a2, o.checkedAt);
    (Updated(if late then TimedOut(a2) else a2, events, o.updatedAt), late && !o.closes)
  }

  /** update_connection asks the helper to connect. */
  predicate Asks(g: SB.Settings, a: App, queue: seq<Measurement>, events: set<Bit>, o: Outside) {
    MayConnect(Handled(g, a, queue, events, o).0, o.network, o.connectAt)
  }

  /** The same, after it has asked. */
  function Connection(g: SB.Settings, a: App, queue: seq<Measurement>, events: set<Bit>, o: Outside): (App, bool) {
    var (a', posts) := Handled(g, a, queue, events, o);
    (if MayConnect(a', o.network, o.connectAt) then Attempted(a', o.connects, o.connectedAt) else a', posts)
  }

  /** publish_next */
  function Publishing(g: SB.Settings, a: App, pending: nat, topicFits: bool, o: Outside): App {
    match Next(g, a, o.utcMs)
    case None => a
    case Some(b) =>
      var a' := Counted(a, b);
      if topicFits && pending == 0 && o.writes then Sent(a', o.sentAt) else a'
  }

  class Application {
    const batch: SB.Batch
    const client: MqttClient
    const group: string
    const edge: string
    var mqttState: MqttState
    var reconnectDelaySeconds: nat
    var reconnectAtMs: int
    var birthAcknowledged: bool
    var bdSeq: uint8
    var seqNumber: uint8
    var awaitingPuback: bool
    var pubackDeadlineMs: int
    var sentCount: nat
    var skippedMeasurements: uint32
    var measurementQueue: seq<Measurement>

    ghost predicate Valid()
      reads this, batch
    {
      batch.Valid() && SB.ValidSettings(batch.settings)
    }

    ghost function View(): App
      reads this, batch, batch.buffer
      requires Valid()
    {
      App(mqttState, reconnectDelaySeconds, reconnectAtMs, birthAcknowledged, bdSeq, seqNumber,
          awaitingPuback, pubackDeadlineMs, sentCount, skippedMeasurements, batch.Contents())
    }

    constructor (batch: SB.Batch, client: MqttClient, group: string, edge: string)
      requires batch.Valid() && batch.Contents() == [] && SB.ValidSettings(batch.settings)
      ensures Valid() && View() == Start && measurementQueue == [] && this.batch == batch && this.client == client
      ensures this.group == group && this.edge == edge
    {
      this.batch, this.client, this.group, this.edge := batch, client, group, edge;
      mqttState, reconnectDelaySeconds, reconnectAtMs, birthAcknowledged, bdSeq := Idle, InitialDelay, 0, false, 0;
      seqNumber, awaitingPuback, pubackDeadlineMs, sentCount, skippedMeasurements := 0, false, 0, 0, 0;
      measurementQueue := [];
    }

    /** Every queued reading is buffered in order, or counted as skipped. */
    method CollectMeasurements()
      requires Valid()
      modifies this`measurementQueue, this`skippedMeasurements, batch`count, batch.buffer
      ensures Valid() && measurementQueue == []
      ensures View() == CollectedAll(batch.settings, old(View()), old(measurementQueue))
    {
      while measurementQueue != []
        invariant Valid()
        invariant CollectedAll(batch.settings, View(), measurementQueue)
                  == CollectedAll(batch.settings, old(View()), old(measurementQueue))
        decreases |measurementQueue|
      {
        var m := measurementQueue[0];
        measurementQueue := measurementQueue[1..];
        var err := batch.Add(m);
        if err.Some? {
          skippedMeasurements := (skippedMeasurements + 1) % 0x1_0000_0000;
        }
      }
    }

    method HandlePuback()
      requires Valid()
      modifies this`awaitingPuback, this`birthAcknowledged, this`seqNumber, batch`count, batch.buffer
      ensures Valid() && View() == PubackHandled(old(View()))
    {
      if !awaitingPuback {
        return;
      }
      awaitingPuback := false;
      if !birthAcknowledged {
        birthAcknowledged := true;
        seqNumber := 1;
        return;
      }
      batch.Remove(sentCount);
      seqNumber := NextSeq(seqNumber);
    }

    method ScheduleReconnect(now: int)
      requires Valid()
      modifies this`mqttState, this`reconnectAtMs, this`reconnectDelaySeconds
      ensures Valid() && View() == Scheduled(old(View()), now)
    {
      mqttState := Idle;
      reconnectAtMs := now + reconnectDelaySeconds * 1000;
      reconnectDelaySeconds := Min(reconnectDelaySeconds * 2, MaxDelay);
    }

    /** `closes` is whether aitsm_mqtt_disconnect succeeded. */
    method CheckPubackTimeout(now: int, closes: bool)
      requires Valid()
      modifies this`awaitingPuback, this`mqttState, client`bits
      ensures Valid() && View() == if Overdue(old(View()), now) then TimedOut(old(View())) else old(View())
      ensures client.bits == if Overdue(old(View()), now) && !closes then old(client.bits) + {WentDown}
              else old(client.bits)
    {
      if !awaitingPuback || now < pubackDeadlineMs {
        return;
      }
      awaitingPuback := false;
      mqttState := Disconnecting;
      if !closes {
        client.bits := client.bits + {WentDown};
      }
    }

    method UpdateConnection(events: set<Bit>, o: Outside)
      requires Valid()
      modifies this`mqttState, this`reconnectDelaySeconds, this`reconnectAtMs, this`awaitingPuback
      modifies this`birthAcknowledged, this`bdSeq
      ensures Valid()
      ensures var a := Updated(old(View()), events, o.updatedAt);
              View() == if MayConnect(a, o.network, o.connectAt) then Attempted(a, o.connects, o.connectedAt) else a
    {
      if WentUp in events && mqttState == Connecting {
        mqttState := Connected;
        reconnectDelaySeconds := InitialDelay;
      }
      if WentDown in events && mqttState != Idle {
        awaitingPuback := false;
        birthAcknowledged := false;
        bdSeq := NextSeq(bdSeq);
        ScheduleReconnect(o.updatedAt);
      }
      if mqttState == Idle && o.network && o.connectAt >= reconnectAtMs {
        if o.connects {
          mqttState := Connecting;
        } else {
          ScheduleReconnect(o.connectedAt);
        }
      }
    }

    predicate TopicFits(b: MS.Body) {
      |S.TopicText(group, MS.TopicOf(b), edge)| < TopicSize
    }

    method Publish(ghost b: MS.Body, t: S.MessageType, bytes: seq<byte>, o: Outside)
      returns (sent: Option<(nat, string, seq<byte>)>)
      requires Valid() && o.id != 0 && t == MS.TopicOf(b)
      modifies this`awaitingPuback, this`pubackDeadlineMs, client`pendingMessageId
      ensures Valid() && (sent.Some? <==> TopicFits(b) && old(client.pendingMessageId) == 0 && o.writes)
      ensures sent.Some? ==> sent.value == (o.id, S.TopicText(group, t, edge), bytes) && client.pendingMessageId == o.id
      ensures sent.None? ==> client.pendingMessageId == old(client.pendingMessageId)
      ensures View() == if sent.Some? then Sent(old(View()), o.sentAt) else old(View())
    {
      var topic := S.Topic(group, t, edge, TopicSize);
      if topic.Err? {
        return None;
      }
      var r := client.Publish(topic.value, bytes, o.id, o.writes);
      if r.Err? {
        return None;
      }
      awaitingPuback := true;
      pubackDeadlineMs := o.sentAt + PubackTimeout * 1000;
      return Some(r.value);
    }

    /** NBIRTH first in a session, then NDATA of the whole buffer once a batch is
        ready; encoding always succeeds. */
    method PublishNext(o: Outside) returns (sent: Option<(nat, string, seq<byte>)>)
      requires Valid() && o.id != 0
      modifies this`awaitingPuback, this`pubackDeadlineMs, this`sentCount, client`pendingMessageId
      ensures Valid()
      ensures var next := Next(batch.settings, old(View()), o.utcMs);
              var fits := next.Some? && TopicFits(next.value);
              && View() == Publishing(batch.settings, old(View()), old(client.pendingMessageId), fits, o)
              && (sent.Some? <==> fits && old(client.pendingMessageId) == 0 && o.writes)
              && (sent.Some? ==>
                    sent.value == (o.id, S.TopicText(group, MS.TopicOf(next.value), edge), BodyBytes(next.value)))
    {
      if mqttState != Connected || awaitingPuback {
        return None;
      }
      if !birthAcknowledged {
        var bytes := S.EncodeNbirth(o.utcMs, bdSeq, PayloadSize(batch.settings));
        sent := Publish(MS.Birth(o.utcMs, bdSeq), S.NBIRTH, bytes.value, o);
        return;
      }
      var ready := batch.IsReady();
      if !ready {
        return None;
      }
      sentCount := batch.count;
      var readings := batch.buffer[..sentCount];
      S.NdataSizeBound(readings, seqNumber, true);
      var bytes := S.EncodeNdata(readings, seqNumber, true, PayloadSize(batch.settings));
      sent := Publish(MS.Data(seqNumber, readings), S.NDATA, bytes.value, o);
    }

    method NextWakeup(network: bool) returns (at: Option<int>)
      requires Valid()
      ensures at == Wakeup(View(), network)
    {
      if awaitingPuback {
        return Some(pubackDeadlineMs);
      }
      if mqttState == Idle && network {
        return Some(reconnectAtMs);
      }
      return None;
    }

    /** The round up to and including update_connection. */
    method HandleEvents(events: set<Bit>, o: Outside)
      requires Valid()
      modifies this, batch`count, batch.buffer, client`bits
      ensures Valid() && measurementQueue == []
      ensures var (a, posts) := Connection(batch.settings, old(View()), old(measurementQueue), events, o);
              View() == a && client.bits == old(client.bits) + if posts then {WentDown} else {}
    {
      CollectMeasurements();
      if GotPuback in events {
        HandlePuback();
      }
      CheckPubackTimeout(o.checkedAt, o.closes);
      UpdateConnection(events, o);
    }

    /** One round of the loop after the thread woke up with these events. */
    method Round(events: set<Bit>, o: Outside) returns (sent: Option<(nat, string, seq<byte>)>)
      requires Valid() && o.id != 0
      modifies this, batch`count, batch.buffer, client
      ensures Valid() && measurementQueue == []
      ensures var (a, posts) := Connection(batch.settings, old(View()), old(measurementQueue), events, o);
              var next := Next(batch.settings, a, o.utcMs);
              var fits := next.Some? && TopicFits(next.value);
              && View() == Publishing(batch.settings, a, old(client.pendingMessageId), fits, o)
              && client.bits == old(client.bits) + if posts then {WentDown} else {}
    {
      HandleEvents(events, o);
      sent := PublishNext(o);
    }
  }
}

/** The measurement service of the full firmware: sampling, NBIRTH before NDATA,
    one publish in flight, and commit on the completion with its token. The
    functions say what each handler does to the state; the class is
    measurement_service.c on top of the buffer and the MQTT client. */
module MeasurementService {
  import opened Common
  import S = Sparkplug
  import DT = DataTransmission
  import MC = MqttClient

  /** What a payload carries. */
  datatype Body = Birth(timestampMs: uint64, bdSeq: uint8) | Data(current: uint8, readings: seq<Measurement>)

  /** When a publish that is asked for starts: at once, or a sampling interval later. */
  datatype Delay = Now | OneInterval

  datatype Service = Service(
    buffer: seq<Measurement>, nextSeq: uint8,
    pendingCount: nat, pendingToken: nat, inFlight: bool, connected: bool,
    birthPending: bool, birthInFlight: bool, bdSeq: uint8,
    publishWork: bool, publishDelay: Delay, lastSample: int, dropped: nat)

  const Start := Service([], 1, 0, 0, false, false, false, false, 0, false, Now, 0, 0)

  /** The topic a body is sent to. */
  function TopicOf(b: Body): S.MessageType {
    if b.Birth? then S.NBIRTH else S.NDATA
  }

  /** request_publish: an existing deadline is kept. */
  function Requested(s: Service, delay: Delay): Service {
    if s.connected && !s.inFlight && !s.publishWork then s.(publishWork := true, publishDelay := delay) else s
  }

  /** measurement_work with a successful sensor read. A full buffer skips the slot. */
  function Sampled(g: DT.Settings, s: Service, m: Measurement): Service {
    if |s.buffer| >= DT.Capacity(g) then s.(dropped := Min(s.dropped + 1, 0xffff_ffff))
    else
      var s' := s.(buffer := s.buffer + [m], lastSample := m.timestamp);
      if s'.pendingCount != 0 || DT.FlushDue(g, s'.buffer, s'.lastSample) then Requested(s', Now) else s'
  }

  /** aitsm_measurement_service_mqtt_connected */
  function OnConnected(s: Service): Service {
    Requested(s.(connected := true, birthPending := true), Now)
  }

  /** aitsm_measurement_service_mqtt_disconnected */
  function OnDisconnected(s: Service): Service {
    s.(connected := false, publishWork := false, inFlight := false, birthInFlight := false, birthPending := false,
       bdSeq := NextSeq(s.bdSeq))
  }

  /** aitsm_data_transmission_commit, whose result the service ignores. */
  function Committed(s: Service, n: nat): Service {
    if n == 0 || n > |s.buffer| then s else s.(buffer := s.buffer[n..], nextSeq := NextSeq(s.nextSeq))
  }

  predicate Accepts(s: Service, token: nat) {
    s.inFlight && token == s.pendingToken
  }

  /** aitsm_measurement_service_publish_result */
  function OnResult(g: DT.Settings, s: Service, token: nat, ok: bool): Service {
    if !Accepts(s, token) then s
    else
      var s' := s.(inFlight := false);
      if s'.birthInFlight then
        if ok then Requested(s'.(birthInFlight := false, birthPending := false, nextSeq := 1), Now)
        else Requested(s'.(birthInFlight := false), OneInterval)
      else if ok then
        var done := Committed(s', s'.pendingCount).(pendingCount := 0);
        if DT.FlushDue(g, done.buffer, done.lastSample) then Requested(done, Now) else done
      else Requested(s', OneInterval)
  }

  /** What publish_buffer would hand over, if anything. */
  function Next(s: Service, timestampMs: uint64): Option<Body> {
    if !s.connected || s.inFlight then None
    else if s.birthPending then Some(Birth(timestampMs, s.bdSeq))
    else if s.buffer == [] then None
    else Some(Data(s.nextSeq, s.buffer))
  }

  /** The client took the body and returned the token. */
  function HandedOver(s: Service, b: Body, token: nat): Service {
    var s' := s.(pendingToken := token, inFlight := true);
    if b.Birth? then s'.(birthInFlight := true) else s'.(pendingCount := |b.readings|)
  }

  /** The service after it offered b: the client went from `before` to `after`. */
  ghost function Noted<T, P>(s: Service, before: MC.Client<T, P>, after: MC.Client<T, P>, b: Body,
                             submits: bool): Service {
    if after == before then s
    else if submits then HandedOver(s, b, after.publishToken)
    else s.(pendingToken := after.publishToken)
  }

  function BodyBytes(g: DT.Settings, b: Body): seq<byte>
    requires b.Data? ==> b.readings != []
  {
    match b
    case Birth(t, bd) => S.NbirthBytes(t, bd)
    case Data(current, readings) => S.NdataBytes(readings, current, g.batch)
  }

  class MeasurementService {
    const buffer: DT.Buffer
    const client: MC.MqttClient
    const group: string
    const edge: string
    var pendingMeasurementCount: nat
    var pendingPublishToken: nat
    var publishInFlight: bool
    var mqttConnected: bool
    var birthPending: bool
    var birthInFlight: bool
    var bdSeq: uint8
    var publishWork: bool
    var publishDelay: Delay
    var lastSampleTimestamp: int
    var droppedSamples: nat

    /** The client's payload buffer has the size that holds a full batch. */
    ghost predicate Valid()
      reads this, buffer, buffer.measurements
    {
      && buffer.Valid() && buffer.initialized && DT.ValidSettings(buffer.settings)
      && client.payloadSize == buffer.settings.payloadSize
    }

    ghost function View(): Service
      reads this, buffer, buffer.measurements
      requires Valid()
    {
      Service(buffer.Contents(), buffer.nextSeq, pendingMeasurementCount, pendingPublishToken,
              publishInFlight, mqttConnected, birthPending, birthInFlight, bdSeq, publishWork, publishDelay,
              lastSampleTimestamp, droppedSamples)
    }

    constructor (buffer: DT.Buffer, client: MC.MqttClient, group: string, edge: string)
      requires buffer.Valid() && buffer.initialized && DT.ValidSettings(buffer.settings) && buffer.nextSeq == 1
      requires buffer.Contents() == []
      requires client.payloadSize == buffer.settings.payloadSize
      ensures Valid() && View() == Start && this.buffer == buffer && this.client == client
      ensures this.group == group && this.edge == edge
    {
      this.buffer, this.client, this.group, this.edge := buffer, client, group, edge;
      pendingMeasurementCount, pendingPublishToken, publishInFlight, mqttConnected := 0, 0, false, false;
      birthPending, birthInFlight, bdSeq, publishWork, publishDelay := false, false, 0, false, Now;
      lastSampleTimestamp, droppedSamples := 0, 0;
    }

    /** k_work_schedule leaves a work item that is already scheduled alone. */
    method RequestPublish(delay: Delay)
      requires Valid()
      modifies this`publishWork, this`publishDelay
      ensures Valid() && View() == Requested(old(View()), delay)
    {
      if mqttConnected && !publishInFlight {
        if !publishWork {
          publishWork, publishDelay := true, delay;
        }
      }
    }

    /** The client has copied these bytes in on the topic of b, under a new token,
        or has refused them and is as before. */
    predicate Offered(before: MC.Client<string, seq<byte>>, after: MC.Client<string, seq<byte>>, b: Body, submits: bool)
      requires b.Data? ==> b.readings != []
    {
      || after == before
      || after == MC.Taken(before, S.TopicText(group, TopicOf(b), edge), BodyBytes(buffer.settings, b), submits)
    }

    method Offer(ghost b: Body, t: S.MessageType, bytes: seq<byte>, submits: bool) returns (err: Option<Errno>)
      requires Valid() && (b.Data? ==> b.readings != []) && t == TopicOf(b)
      requires bytes == BodyBytes(buffer.settings, b)
      modifies this`pendingPublishToken, client`c
      ensures Valid() && Offered(old(client.c), client.c, b, submits) && err != Some(ENODATA)
      ensures err == None <==> client.c != old(client.c) && submits
      ensures View() == if client.c == old(client.c) then old(View())
              else old(View()).(pendingToken := client.c.publishToken)
    {
      var topic := S.Topic(group, t, edge, MC.TopicSize);
      if topic.Err? {
        return Some(topic.error);
      }
      var token: Option<nat>;
      err, token := client.PublishPayload(topic.value, bytes, submits);
      if token.Some? {
        pendingPublishToken := token.value;
      }
    }

    method PublishBirth(timestampMs: uint64, submits: bool) returns (err: Option<Errno>)
      requires Valid()
      modifies this`pendingPublishToken, this`publishInFlight, this`birthInFlight, client`c
      ensures Valid() && Offered(old(client.c), client.c, Birth(timestampMs, bdSeq), submits) && err != Some(ENODATA)
      ensures err == None <==> client.c != old(client.c) && submits
      ensures View() == Noted(old(View()), old(client.c), client.c, Birth(timestampMs, bdSeq), submits)
    {
      var bytes := S.EncodeNbirth(timestampMs, bdSeq, buffer.settings.payloadSize);
      err := Offer(Birth(timestampMs, bdSeq), S.NBIRTH, bytes.value, submits);
      if err.Some? {
        return;
      }
      publishInFlight, birthInFlight := true, true;
    }

    /** The second half of publish_buffer, with the payload and the count it formatted. */
    method OfferData(bytes: seq<byte>, count: nat, submits: bool) returns (err: Option<Errno>)
      requires Valid() && buffer.Contents() != [] && count == |buffer.Contents()|
      requires bytes == BodyBytes(buffer.settings, Data(buffer.nextSeq, buffer.Contents()))
      modifies this`pendingMeasurementCount, this`pendingPublishToken, this`publishInFlight, client`c
      ensures Valid()
      ensures var b := Data(old(View()).nextSeq, old(View()).buffer);
              && Offered(old(client.c), client.c, b, submits) && err != Some(ENODATA)
              && (err == None <==> client.c != old(client.c) && submits)
              && View() == Noted(old(View()), old(client.c), client.c, b, submits)
    {
      err := Offer(Data(buffer.nextSeq, buffer.Contents()), S.NDATA, bytes, submits);
      if err.Some? {
        return;
      }
      pendingMeasurementCount, publishInFlight := count, true;
    }

    method PublishData(submits: bool) returns (err: Option<Errno>)
      requires Valid()
      modifies this`pendingMeasurementCount, this`pendingPublishToken, this`publishInFlight, client`c
      ensures Valid()
      ensures old(View()).buffer == [] ==> err == Some(ENODATA) && View() == old(View()) && client.c == old(client.c)
      ensures old(View()).buffer != [] ==>
                var b := Data(old(View()).nextSeq, old(View()).buffer);
                && Offered(old(client.c), client.c, b, submits) && err != Some(ENODATA)
                && (err == None <==> client.c != old(client.c) && submits)
                && View() == Noted(old(View()), old(client.c), client.c, b, submits)
    {
      var data := buffer.Format(buffer.settings.payloadSize);
      if data.Err? {
        return Some(data.error);
      }
      err := OfferData(data.value.0, data.value.1, submits);
    }

    /** publish_buffer: the payload bytes are those of the next body, on its
        topic, and the bookkeeping follows the client's answer. */
    method PublishBuffer(timestampMs: uint64, submits: bool) returns (err: Option<Errno>)
      requires Valid()
      modifies this`pendingMeasurementCount, this`pendingPublishToken, this`publishInFlight, this`birthInFlight
      modifies client`c
      ensures Valid()
      ensures var next := Next(old(View()), timestampMs);
              if next.None? then
                && View() == old(View()) && client.c == old(client.c)
                && (err == None || (err == Some(ENODATA) && old(View()).buffer == []))
              else
                && Offered(old(client.c), client.c, next.value, submits) && err != Some(ENODATA)
                && (err == None <==> client.c != old(client.c) && submits)
                && View() == Noted(old(View()), old(client.c), client.c, next.value, submits)
    {
      if !mqttConnected || publishInFlight {
        return None;
      }
      if birthPending {
        err := PublishBirth(timestampMs, submits);
      } else {
        err := PublishData(submits);
      }
    }

    /** publish_work: an error other than an empty buffer is retried later. */
    method PublishWork(timestampMs: uint64, submits: bool)
      requires Valid()
      modifies this`pendingMeasurementCount, this`pendingPublishToken, this`publishInFlight, this`birthInFlight
      modifies this`publishWork, this`publishDelay, client`c
      ensures Valid()
      ensures var s, next := old(View()).(publishWork := false), Next(old(View()), timestampMs);
              if next.None? then View() == s && client.c == old(client.c)
              else
                && Offered(old(client.c), client.c, next.value, submits)
                && View() == Requested(Noted(s, old(client.c), client.c, next.value, submits), OneInterval)
    {
      publishWork := false;
      var err := PublishBuffer(timestampMs, submits);
      if err.Some? && err != Some(ENODATA) {
        RequestPublish(OneInterval);
      }
    }

    /** measurement_work: no sensor call when there is nowhere to keep the
        result, and nothing is stored when the read fails. */
    method MeasurementWork(reading: Option<Measurement>)
      requires Valid()
      modifies this`publishWork, this`publishDelay, this`lastSampleTimestamp, this`droppedSamples
      modifies buffer`count, buffer`firstTimestamp, buffer.measurements
      ensures Valid()
      ensures reading.Some? ==> View() == Sampled(buffer.settings, old(View()), reading.value)
      ensures reading.None? && |old(View()).buffer| < DT.Capacity(buffer.settings) ==> View() == old(View())
      ensures |old(View()).buffer| >= DT.Capacity(buffer.settings) ==>
                View() == old(View()).(dropped := Min(old(View()).dropped + 1, 0xffff_ffff))
    {
      var available := buffer.HasCapacity();
      if !available {
        if droppedSamples < 0xffff_ffff {
          droppedSamples := droppedSamples + 1;
        } else {
          droppedSamples := 0xffff_ffff;
        }
        return;
      }
      if reading.None? {
        return;
      }
      var err := buffer.Add(reading.value);
      if err.Some? {
        return;
      }
      lastSampleTimestamp := reading.value.timestamp;
      var flush := buffer.ShouldFlush(lastSampleTimestamp);
      if pendingMeasurementCount != 0 || flush {
        RequestPublish(Now);
      }
    }

    method MqttConnected()
      requires Valid()
      modifies this`mqttConnected, this`birthPending, this`publishWork, this`publishDelay
      ensures Valid() && View() == OnConnected(old(View()))
    {
      mqttConnected := true;
      birthPending := true;
      RequestPublish(Now);
    }

    /** Nothing buffered is lost on a disconnect. */
    method MqttDisconnected()
      requires Valid()
      modifies this`mqttConnected, this`publishWork, this`publishInFlight, this`birthInFlight, this`birthPending
      modifies this`bdSeq
      ensures Valid() && View() == OnDisconnected(old(View()))
    {
      mqttConnected, publishWork, publishInFlight := false, false, false;
      birthInFlight, birthPending := false, false;
      bdSeq := NextSeq(bdSeq);
    }

    /** A completion for another token changes nothing. */
    method PublishResult(token: nat, ok: bool) returns (accepted: bool)
      requires Valid()
      modifies this`publishInFlight, this`birthInFlight, this`birthPending, this`pendingMeasurementCount
      modifies this`publishWork, this`publishDelay
      modifies buffer`count, buffer`firstTimestamp, buffer`nextSeq, buffer.measurements
      ensures Valid() && accepted == Accepts(old(View()), token)
      ensures View() == OnResult(buffer.settings, old(View()), token, ok)
    {
      if !publishInFlight || token != pendingPublishToken {
        return false;
      }
      publishInFlight := false;
      if birthInFlight {
        birthInFlight := false;
        if ok {
          birthPending := false;
          buffer.StartSession();
          RequestPublish(Now);
        } else {
          RequestPublish(OneInterval);
        }
        return true;
      }
      if ok {
        var err := buffer.Commit(pendingMeasurementCount);
        pendingMeasurementCount := 0;
        var flush := buffer.ShouldFlush(lastSampleTimestamp);
        if flush {
          RequestPublish(Now);
        }
      } else {
        RequestPublish(OneInterval);
      }
      return true;
    }
  }
}

/** The controller of the full firmware: app_controller.c. Its event queue is
    drained in order; each event updates the client, the service and the
    reconnect policy. The functions state the effect of one event; the class is
    the C code. Module Sequential shows that the interleaved machine (module
    Device) takes the same way when nothing interferes. */
module AppController {
  import opened Common
  import opened Device
  import MC = MqttClient
  import MS = MeasurementService
  import RP = ReconnectPolicy
  import DT = DataTransmission

  /** AITSM_APP_EVENT_QUEUE_LENGTH */
  const QueueLength: nat := 16

  /** What the controller works on. */
  datatype App<T, P> = App(c: MC.Client<T, P>, svc: MS.Service, rec: RP.State, timer: Option<nat>, q: seq<Event>)

  /** k_msgq_put without waiting: a full queue loses the event. */
  function Put(q: seq<Event>, e: Event): seq<Event> {
    if |q| < QueueLength then q + [e] else q
  }

  predicate CanConnect<T, P>(c: MC.Client<T, P>) {
    c.lte && !c.connected && !c.connectPending
  }

  /** `submits` is whether the work item of a connection attempt can be submitted. */
  function Applied<T, P>(d: RP.Delays, a: App<T, P>, e: RP.Event, submits: bool): App<T, P> {
    var (rec, order) := RP.Respond(d, a.rec, e);
    var a' := a.(rec := rec, timer := RP.Rearm(a.timer, order));
    if !order.Connect? then a'
    else if CanConnect(a.c) && submits then a'.(c := a.c.(connectPending := true, connectWork := true))
    else a'.(q := Put(a.q, MqttError))
  }

  function Unplugged<T, P>(c: MC.Client<T, P>): MC.Client<T, P> {
    MC.Invalidate(c).(disconnectWork := true)
  }

  function Handled<T, P>(d: RP.Delays, g: DT.Settings, a: App<T, P>, e: Event, submits: bool): App<T, P> {
    match e
    case LteLost =>
      var c := if a.c.lte then Unplugged(a.c.(lte := false)) else a.c;
      Applied(d, a.(c := c, svc := MS.OnDisconnected(a.svc)), RP.LteDown, submits)
    case LteConnected => Applied(d, a.(c := a.c.(lte := true)), RP.LteUp, submits)
    case MqttConnected =>
      if !a.rec.lte then a.(c := Unplugged(a.c))
      else
        var a' := Applied(d, a, RP.MqttUp, submits);
        a'.(svc := MS.OnConnected(a'.svc))
    case MqttDisconnected => Applied(d, a.(svc := MS.OnDisconnected(a.svc)), RP.Failure, submits)
    case MqttError =>
      var c := if a.rec.lte then Unplugged(a.c) else a.c;
      Applied(d, a.(c := c, svc := MS.OnDisconnected(a.svc)), RP.Failure, submits)
    case Completed(token, ok) => a.(svc := MS.OnResult(g, a.svc, token, ok))
  }

  /** What each event does to the connection: losing LTE, an error and a
      connection that comes up without LTE make every publish of the generation
      void and have the connection closed; the first two and a disconnect end the
      session, with nothing buffered lost; a connection that comes up under LTE
      starts one. */
  lemma EventEffects<T, P>(d: RP.Delays, g: DT.Settings, a: App<T, P>, e: Event, submits: bool)
    ensures var a', ends := Handled(d, g, a, e, submits), e.LteLost? || e.MqttDisconnected? || e.MqttError?;
            var opens := e.MqttConnected? && a.rec.lte;
            var closes := (e.LteLost? && a.c.lte) || (e.MqttConnected? && !a.rec.lte) || (e.MqttError? && a.rec.lte);
            && (ends ==>
                  && !a'.svc.connected && !a'.svc.publishWork && !a'.svc.inFlight && a'.svc.buffer == a.svc.buffer
                  && a'.svc.bdSeq == (a.svc.bdSeq + 1) % 256)
            && (opens ==> a'.svc.connected && a'.svc.birthPending && a'.timer == None)
            && (closes ==>
                  && a'.c.generation == a.c.generation + 1 && a'.c.activeId == 0 && a'.c.timer == None
                  && a'.c.disconnectWork)
            && (!closes ==> a'.c.generation == a.c.generation && a'.c.disconnectWork == a.c.disconnectWork)
            && a'.c.lte == ((a.c.lte || e.LteConnected?) && !e.LteLost?)
            && (!ends && !opens && !e.Completed? ==> a'.svc == a.svc)
  {
    match e {
      case LteLost => case LteConnected => case MqttConnected => case MqttDisconnected => case MqttError =>
      case Completed(_, _) =>
    }
  }

  /** How many events handling the queue can still take: connecting may post one error. */
  function Weight(q: seq<Event>): nat {
    if q == [] then 0 else Weight(q[..|q| - 1]) + if q[|q| - 1].LteConnected? then 2 else 1
  }

  lemma {:induction false} WeightPop(q: seq<Event>)
    requires q != []
    ensures Weight(q) == Weight(q[1..]) + if q[0].LteConnected? then 2 else 1
  {
    if |q| > 1 {
      WeightPop(q[..|q| - 1]);
      assert q[1..][..|q| - 2] == q[..|q| - 1][1..];
    } else {
      assert q[..0] == [] && q[1..] == [];
    }
  }

  lemma WeightPush(q: seq<Event>, e: Event)
    ensures Weight(q + [e]) == Weight(q) + if e.LteConnected? then 2 else 1
  {
    assert (q + [e])[..|q|] == q;
  }

  /** Handling an event posts at most one error, and only LTE_CONNECTED can make it. */
  lemma HandledPosts<T, P>(d: RP.Delays, g: DT.Settings, a: App<T, P>, e: Event, submits: bool)
    ensures var q := Handled(d, g, a, e, submits).q; q == a.q || (e.LteConnected? && q == a.q + [MqttError])
  {
  }

  lemma HandledWeighsLess<T, P>(d: RP.Delays, g: DT.Settings, a: App<T, P>, submits: bool)
    requires a.q != []
    ensures Weight(Handled(d, g, a.(q := a.q[1..]), a.q[0], submits).q) < Weight(a.q)
  {
    var rest := a.q[1..];
    WeightPop(a.q);
    WeightPush(rest, MqttError);
    HandledPosts(d, g, a.(q := rest), a.q[0], submits);
  }

  /** The results of the submits in the order in which events are handled; all later ones succeed. */
  function First(submits: seq<bool>): bool {
    submits == [] || submits[0]
  }

  function Later(submits: seq<bool>): seq<bool> {
    if submits == [] then [] else submits[1..]
  }

  /** The state once the queue is empty. */
  function Drained<T, P>(d: RP.Delays, g: DT.Settings, a: App<T, P>, submits: seq<bool>): (r: App<T, P>)
    ensures r.q == []
    decreases Weight(a.q)
  {
    if a.q == [] then a
    else
      HandledWeighsLess(d, g, a, First(submits));
      Drained(d, g, Handled(d, g, a.(q := a.q[1..]), a.q[0], First(submits)), Later(submits))
  }

  class AppController {
    const client: MC.MqttClient
    const service: MS.MeasurementService
    const reconnect: RP.ReconnectState
    var reconnectTimer: Option<nat>
    var queue: seq<Event>

    /** network_init registers for events only after aitsm_mqtt_init. */
    ghost predicate Valid()
      reads this, service, service.buffer, service.buffer.measurements, client`initialized
    {
      service.Valid() && service.client == client && client.initialized
    }

    ghost function View(): App<string, seq<byte>>
      reads this, client, service, service.buffer, service.buffer.measurements, reconnect
      requires Valid()
    {
      App(client.c, service.View(), reconnect.View(), reconnectTimer, queue)
    }

    constructor (client: MC.MqttClient, service: MS.MeasurementService, delays: RP.Delays)
      requires service.Valid() && service.client == client && client.initialized
      ensures Valid() && fresh(reconnect) && this.client == client && this.service == service
      ensures reconnect.delays == delays
      ensures View() == App(client.c, service.View(), RP.Initial(delays), None, [])
    {
      this.client, this.service := client, service;
      reconnect := new RP.ReconnectState(delays);
      reconnectTimer, queue := None, [];
    }

    method PostEvent(e: Event)
      requires Valid()
      modifies this`queue
      ensures Valid() && View() == old(View()).(q := Put(old(queue), e))
    {
      if |queue| < QueueLength {
        queue := queue + [e];
      }
    }

    method ApplyReconnect(e: RP.Event, submits: bool)
      requires Valid()
      modifies this`queue, this`reconnectTimer, reconnect, client`c
      ensures Valid() && View() == Applied(reconnect.delays, old(View()), e, submits)
    {
      var order := reconnect.Handle(e);
      match order {
        case Connect =>
          var err := client.Connect(submits);
          if err.Some? {
            PostEvent(MqttError);
          }
        case Schedule(delay) => reconnectTimer := Some(delay);
        case Cancel => reconnectTimer := None;
        case Nothing =>
      }
    }

    /** reconnect_work_handler: the timer has fired. */
    method ReconnectWork(submits: bool)
      requires Valid()
      modifies this`queue, this`reconnectTimer, reconnect, client`c
      ensures Valid() && View() == Applied(reconnect.delays, old(View()).(timer := None), RP.Timer, submits)
    {
      reconnectTimer := None;
      ApplyReconnect(RP.Timer, submits);
    }

    method LteWasLost(submits: bool)
      requires Valid()
      modifies this`queue, this`reconnectTimer, reconnect, client`c
      modifies service`mqttConnected, service`publishWork, service`publishDelay, service`publishInFlight
      modifies service`birthInFlight, service`birthPending, service`bdSeq
      ensures Valid() && View() == Handled(reconnect.delays, service.buffer.settings, old(View()), LteLost, submits)
    {
      client.SetLteAvailable(false);
      service.MqttDisconnected();
      ApplyReconnect(RP.LteDown, submits);
    }

    method HandleEvent(e: Event, submits: bool)
      requires Valid()
      modifies this`queue, this`reconnectTimer, reconnect, client`c
      modifies service`mqttConnected, service`publishWork, service`publishDelay, service`publishInFlight
      modifies service`birthInFlight, service`birthPending, service`bdSeq
      modifies service`pendingMeasurementCount
      modifies service.buffer`count, service.buffer`firstTimestamp, service.buffer`nextSeq, service.buffer.measurements
      ensures Valid() && View() == Handled(reconnect.delays, service.buffer.settings, old(View()), e, submits)
    {
      match e {
        case LteLost => LteWasLost(submits);
        case LteConnected =>
          client.SetLteAvailable(true);
          ApplyReconnect(RP.LteUp, submits);
        case MqttConnected =>
          if !reconnect.lteAvailable {
            var err := client.Disconnect();
          } else {
            ApplyReconnect(RP.MqttUp, submits);
            service.MqttConnected();
          }
        case MqttDisconnected =>
          service.MqttDisconnected();
          ApplyReconnect(RP.Failure, submits);
        case MqttError =>
          service.MqttDisconnected();
          if reconnect.lteAvailable {
            var err := client.Disconnect();
          }
          ApplyReconnect(RP.Failure, submits);
        case Completed(token, ok) =>
          var accepted := service.PublishResult(token, ok);
      }
    }

    /** app_event_work_handler: every queued event is handled, oldest first, and
        so are the errors that handling them posts. */
    method HandleEvents(submits: seq<bool>)
      requires Valid()
      modifies this`queue, this`reconnectTimer, reconnect, client`c
      modifies service`mqttConnected, service`publishWork, service`publishDelay, service`publishInFlight
      modifies service`birthInFlight, service`birthPending, service`bdSeq
      modifies service`pendingMeasurementCount
      modifies service.buffer`count, service.buffer`firstTimestamp, service.buffer`nextSeq, service.buffer.measurements
      ensures Valid() && queue == []
      ensures View() == Drained(reconnect.delays, service.buffer.settings, old(View()), submits)
    {
      var rest := submits;
      while queue != []
        invariant Valid()
        invariant Drained(reconnect.delays, service.buffer.settings, View(), rest)
               == Drained(reconnect.delays, service.buffer.settings, old(View()), submits)
        decreases Weight(queue)
      {
        HandledWeighsLess(reconnect.delays, service.buffer.settings, View(), First(rest));
        var e := queue[0];
        queue := queue[1..];
        HandleEvent(e, First(rest));
        rest := Later(rest);
      }
    }
  }
}

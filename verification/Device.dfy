/** The full firmware as interleaved steps: the system work queue (service and
    controller), the MQTT work queue, and the callbacks of the MQTT helper.
    Each atomic operation, lock region and queue operation is one step. A work
    queue may start any of its submitted items, not only the oldest, so the runs
    of this machine include those of the real queues. */
module Device {
  import opened Common
  import MC = MqttClient
  import MS = MeasurementService
  import RP = ReconnectPolicy
  import PP = PublishProtocol
  import DT = DataTransmission
  import S = Sparkplug

  datatype Config = Config(settings: DT.Settings, timing: MC.Timing, delays: RP.Delays)

  predicate ValidConfig(g: Config) {
    DT.ValidSettings(g.settings) && 0 < g.timing.timeout <= g.timing.maxDelay && RP.ValidDelays(g.delays)
  }

  type Message = PP.Message<S.MessageType, MS.Body>
  type Channel = PP.Channel<S.MessageType, MS.Body>

  /** The queue of app_controller.c. SEARCHING and DISCONNECTED are both LteLost. */
  datatype Event =
    | LteLost | LteConnected | MqttConnected | MqttDisconnected | MqttError
    | Completed(token: nat, ok: bool)

  /** Who called aitsm_mqtt_disconnect on the system work queue. */
  datatype Reason = LostLte | AfterError | Stray

  /** The controller's next operation; the caller of a publish is in the channel. */
  datatype Sys =
    | SysIdle
    | LteCas | LteSet
    | Lock(why: Reason) | Submit(why: Reason)
    | ConnectLte | ConnectHelper | ConnectCas | ConnectSubmit | PostError

  /** The next operation of the connect or disconnect handler on the MQTT work
      queue; the publish handlers are in the channel. */
  datatype Opener =
    | OpenIdle
    | OpenLte | OpenAbort | OpenRead | OpenMark(generation: nat) | OpenCall(generation: nat)
    | OpenFailed(generation: nat) | FailLte(generation: nat) | FailCheck(generation: nat) | FailPost
    | CloseRead | CloseCall

  /** The next operation of the running helper callback other than a PUBACK. */
  datatype Callback =
    | CallIdle
    | UpSet | UpLte | UpMark | UpCheck(mark: nat) | UpPost | UpLock | UpSubmit
    | RefusedLte | RefusedMark | RefusedCheck(mark: nat) | RefusedPost
    | DownLock | DownPost

  /** The helper's connection. */
  datatype Link = Down | Opening | Up

  /** Ghost history of the service: readings accepted by the buffer and removed
      from it, the tokens of the publishes that removed them, the bodies
      acknowledged in this session, and whether the last connection event
      handled was MQTT_CONNECTED. */
  datatype History = History(
    accepted: seq<Measurement>, committed: seq<Measurement>, commits: seq<nat>, acks: seq<MS.Body>, open: bool)

  datatype State = State(
    ch: Channel, svc: MS.Service, rec: RP.State, recTimer: Option<nat>, q: seq<Event>,
    sys: Sys, opener: Opener, call: Callback, link: Link, closing: bool, h: History)

  datatype Action =
    // outside the firmware
    | LteChanges(up: bool) | Arrive(packet: nat)
    // system work queue
    | HandleEvent | StartPublish(timestampMs: uint64) | Sample(m: Measurement) | ReconnectFires
    | SysNext(ok: bool) | CallerNext(ok: bool)
    // MQTT work queue
    | StartJob | StartRetry | StartOpen | StartClose | SenderNext(id: nat, ok: bool) | RetryNext | OpenNext(ok: bool)
    // helper callbacks
    | Connack(accepted: bool) | Disconnected | HelperError | Puback(id: nat, ok: bool) | CallNext | PostPuback

  const NoClient: MC.Client<S.MessageType, MS.Body> :=
    MC.Client(false, false, false, 0, 0, false, S.NBIRTH, MS.Birth(0, 0), 0, 0, 0, 0, 0, 0, 0, None,
              false, false, false)

  const NoChannel: Channel := PP.Channel(NoClient, PP.NoCall, PP.Rest, None, 0, PP.Log(map[], map[], [], [], []))

  function Initial(g: Config): State {
    State(NoChannel, MS.Start, RP.Initial(g.delays), None, [], SysIdle, OpenIdle, CallIdle, Down, false,
      History([], [], [], [], false))
  }

  // ------------------------------------------------------ system work queue

  /** The reconnect policy, with its timer orders carried out. */
  function Apply(g: Config, s: State, e: RP.Event): State {
    var (rec, order) := RP.Respond(g.delays, s.rec, e);
    s.(rec := rec, recTimer := RP.Rearm(s.recTimer, order), sys := if order.Connect? then ConnectLte else SysIdle)
  }

  /** The end of lte_lost. */
  function LoseLte(g: Config, s: State): State {
    Apply(g, s.(svc := MS.OnDisconnected(s.svc)), RP.LteDown)
  }

  /** The readings the service removes when it handles a completion. */
  function Removed(svc: MS.Service, token: nat, ok: bool): seq<Measurement> {
    if MS.Accepts(svc, token) && ok && !svc.birthInFlight && svc.pendingCount <= |svc.buffer|
    then svc.buffer[..svc.pendingCount] else []
  }

  function Complete(g: Config, s: State, token: nat, ok: bool): State {
    var acked := MS.Accepts(s.svc, token) && ok && token in s.ch.h.submitted;
    s.(svc := MS.OnResult(g.settings, s.svc, token, ok),
       h := s.h.(committed := s.h.committed + Removed(s.svc, token, ok),
                 commits := if acked && !s.svc.birthInFlight then s.h.commits + [token] else s.h.commits,
                 acks := if acked then s.h.acks + [s.ch.h.submitted[token].payload] else s.h.acks))
  }

  /** handle_event, up to its first operation on shared state. */
  function Dispatch(g: Config, s: State, e: Event): State {
    match e
    case LteLost => s.(sys := LteCas)
    case LteConnected => s.(sys := LteSet)
    case MqttConnected =>
      var s' := s.(h := s.h.(open := true));
      if !s.rec.lte then s'.(sys := Lock(Stray))
      else Apply(g, s'.(svc := MS.OnConnected(s.svc), h := s'.h.(acks := [])), RP.MqttUp)
    case MqttDisconnected =>
      Apply(g, s.(svc := MS.OnDisconnected(s.svc), h := s.h.(open := false)), RP.Failure)
    case MqttError =>
      var s' := s.(svc := MS.OnDisconnected(s.svc));
      if s.rec.lte then s'.(sys := Lock(AfterError)) else Apply(g, s', RP.Failure)
    case Completed(token, ok) => Complete(g, s, token, ok)
  }

  function AfterSubmit(g: Config, s: State, why: Reason): State {
    match why
    case LostLte => LoseLte(g, s)
    case AfterError => Apply(g, s, RP.Failure)
    case Stray => s.(sys := SysIdle)
  }

  function WithClient(s: State, c: MC.Client<S.MessageType, MS.Body>): State {
    s.(ch := s.ch.(c := c))
  }

  function Post(s: State, e: Event): State {
    s.(q := s.q + [e])
  }

  function SysStep(g: Config, s: State, ok: bool): State {
    var c := s.ch.c;
    match s.sys
    case SysIdle => s
    case LteCas => if c.lte then WithClient(s.(sys := Lock(LostLte)), c.(lte := false)) else LoseLte(g, s)
    case LteSet => Apply(g, WithClient(s, c.(lte := true)), RP.LteUp)
    case Lock(why) => WithClient(s.(sys := Submit(why)), MC.Invalidate(c))
    case Submit(why) => AfterSubmit(g, WithClient(s, c.(disconnectWork := true)), why)
    // aitsm_mqtt_connect
    case ConnectLte => s.(sys := if c.lte then ConnectHelper else PostError)
    case ConnectHelper => s.(sys := if c.connected then PostError else ConnectCas)
    case ConnectCas =>
      if c.connectPending then s.(sys := PostError)
        else WithClient(s.(sys := ConnectSubmit), c.(connectPending := true))
    case ConnectSubmit =>
      if ok then WithClient(s.(sys := SysIdle), c.(connectWork := true))
      else WithClient(s.(sys := PostError), c.(connectPending := false))
    case PostError => Post(s.(sys := SysIdle), MqttError)
  }

  /** publish_work_handler, up to the call of aitsm_mqtt_publish_payload. The topic fits its buffer. */
  function BeginPublish(s: State, timestampMs: uint64): State {
    var svc := s.svc.(publishWork := false);
    match MS.Next(svc, timestampMs)
    case None => s.(svc := svc)
    case Some(b) => s.(svc := svc, ch := s.ch.(caller := PP.Call(PP.Lte, PP.Message(MS.TopicOf(b), b))))
  }

  /** A step of aitsm_mqtt_publish_payload; when it returns, the service takes note. */
  function CallerOp(s: State, ok: bool): State
    requires s.ch.caller.Call?
  {
    var ch := PP.CallerStep(s.ch, ok);
    var svc :=
      if s.ch.caller.at.Token? then s.svc.(pendingToken := ch.c.publishToken)
      else if ch.caller.Call? then s.svc
      else if s.ch.caller.at.Submit? && ok then MS.HandedOver(s.svc, s.ch.caller.m.payload, ch.c.publishToken)
      else MS.Requested(s.svc, MS.OneInterval);
    s.(ch := ch, svc := svc)
  }

  // -------------------------------------------------------- MQTT work queue

  function SenderOp(g: Config, s: State, id: nat, ok: bool): State
    requires !s.ch.sender.Rest? && !s.ch.sender.Retry?
  {
    var s' := s.(ch := PP.SendStep(g.timing, s.ch, id, ok));
    if s.ch.sender.Failing? then Post(s', Completed(s.ch.sender.token, false)) else s'
  }

  function OpenStep(s: State, ok: bool): State {
    var c := s.ch.c;
    match s.opener
    case OpenIdle => s
    // mqtt_connect_work_handler
    case OpenLte => s.(opener := if c.lte then OpenRead else OpenAbort)
    case OpenAbort => WithClient(s.(opener := OpenIdle), c.(connectPending := false))
    case OpenRead => s.(opener := OpenMark(c.generation))
    case OpenMark(n) => WithClient(s.(opener := OpenCall(n)), c.(connectGeneration := n))
    case OpenCall(n) => if ok then s.(link := Opening, opener := OpenIdle) else s.(opener := OpenFailed(n))
    case OpenFailed(n) => WithClient(s.(opener := FailLte(n)), c.(connectPending := false))
    case FailLte(n) => s.(opener := if c.lte then FailCheck(n) else OpenIdle)
    case FailCheck(n) => s.(opener := if n == c.generation then FailPost else OpenIdle)
    case FailPost => Post(s.(opener := OpenIdle), MqttError)
    // mqtt_disconnect_work_handler
    case CloseRead => s.(opener := if c.connected then CloseCall else OpenIdle)
    case CloseCall => s.(closing := s.closing || s.link == Up, opener := OpenIdle)
  }

  // ------------------------------------------------------- helper callbacks

  function CallStep(s: State): State {
    var c := s.ch.c;
    match s.call
    case CallIdle => s
    // mqtt_on_connack, accepted
    case UpSet => WithClient(s.(call := UpLte), c.(connected := true))
    case UpLte => s.(call := if c.lte then UpMark else UpLock)
    case UpMark => s.(call := UpCheck(c.connectGeneration))
    case UpCheck(n) => s.(call := if n == c.generation then UpPost else UpLock)
    case UpPost => Post(s.(call := CallIdle), MqttConnected)
    case UpLock => WithClient(s.(call := UpSubmit), MC.Invalidate(c))
    case UpSubmit => WithClient(s.(call := CallIdle), c.(disconnectWork := true))
    // mqtt_on_connack, refused
    case RefusedLte => s.(call := if c.lte then RefusedMark else CallIdle)
    case RefusedMark => s.(call := RefusedCheck(c.connectGeneration))
    case RefusedCheck(n) => s.(call := if n == c.generation then RefusedPost else CallIdle)
    case RefusedPost => Post(s.(call := CallIdle), MqttError)
    // mqtt_on_disconnect
    case DownLock => s.(ch := PP.Closed(s.ch), call := DownPost)
    case DownPost => Post(s.(call := CallIdle), MqttDisconnected)
  }

  function ConnackStep(s: State, accepted: bool): State {
    WithClient(s.(link := if accepted then Up else Down, call := if accepted then UpSet else RefusedLte),
               s.ch.c.(connectPending := false))
  }

  /** The helper closes the socket and then calls back. */
  function DisconnectedStep(s: State): State {
    s.(link := Down, closing := false, call := DownLock)
  }

  // ------------------------------------------------------------- the machine

  predicate SysFree(s: State) {
    s.sys.SysIdle? && s.ch.caller.NoCall?
  }

  predicate WorkFree(s: State) {
    s.opener.OpenIdle? && s.ch.sender.Rest?
  }

  predicate CallFree(s: State) {
    s.call.CallIdle? && s.ch.posting.None?
  }

  /** Each of the three threads runs one handler at a time. */
  ghost predicate Enabled(s: State, a: Action) {
    match a
    case LteChanges(_) => true
    case Arrive(k) => k < |s.ch.h.wire|
    case HandleEvent => SysFree(s) && s.q != []
    case StartPublish(_) => SysFree(s) && s.svc.publishWork
    case Sample(_) => SysFree(s)
    case ReconnectFires => SysFree(s) && s.recTimer.Some?
    case SysNext(_) => !s.sys.SysIdle?
    case CallerNext(_) => s.ch.caller.Call?
    case StartJob => WorkFree(s) && s.ch.c.publishWork
    case StartRetry => WorkFree(s) && s.ch.c.timer.Some?
    case StartOpen => WorkFree(s) && s.ch.c.connectWork
    case StartClose => WorkFree(s) && s.ch.c.disconnectWork
    case SenderNext(id, _) => !s.ch.sender.Rest? && !s.ch.sender.Retry? && (s.ch.sender.Lock? ==> PP.FreshId(s.ch, id))
    case RetryNext => s.ch.sender.Retry?
    // The helper accepts a connection request only while it has no connection.
    case OpenNext(ok) => !s.opener.OpenIdle? && (s.opener.OpenCall? && ok ==> s.link.Down?)
    case Connack(_) => CallFree(s) && s.link.Opening?
    case Disconnected => CallFree(s)
    case HelperError => CallFree(s)
    case Puback(id, _) => CallFree(s) && PP.BrokerHas(s.ch, id)
    case CallNext => !s.call.CallIdle?
    case PostPuback => s.ch.posting.Some?
  }

  function Step(g: Config, s: State, a: Action): State
    requires Enabled(s, a)
  {
    match a
    case LteChanges(up) => Post(s, if up then LteConnected else LteLost)
    case Arrive(k) => s.(ch := s.ch.(h := s.ch.h.(arrived := s.ch.h.arrived + [k])))
    case HandleEvent => Dispatch(g, s.(q := s.q[1..]), s.q[0])
    case StartPublish(t) => BeginPublish(s, t)
    case Sample(m) =>
      s.(svc := MS.Sampled(g.settings, s.svc, m),
         h := if |s.svc.buffer| < DT.Capacity(g.settings) then s.h.(accepted := s.h.accepted + [m]) else s.h)
    case ReconnectFires => Apply(g, s.(recTimer := None), RP.Timer)
    case SysNext(ok) => SysStep(g, s, ok)
    case CallerNext(ok) => CallerOp(s, ok)
    case StartJob => s.(ch := PP.StartJob(s.ch))
    case StartRetry => s.(ch := PP.StartRetry(s.ch))
    case StartOpen => WithClient(s.(opener := OpenLte), s.ch.c.(connectWork := false))
    case StartClose => WithClient(s.(opener := CloseRead), s.ch.c.(disconnectWork := false))
    case SenderNext(id, ok) => SenderOp(g, s, id, ok)
    case RetryNext => s.(ch := PP.RetryStep(g.timing, s.ch))
    case OpenNext(ok) => OpenStep(s, ok)
    case Connack(accepted) => ConnackStep(s, accepted)
    case Disconnected => DisconnectedStep(s)
    case HelperError => Post(s, MqttError)
    case Puback(id, ok) => s.(ch := PP.PubackStep(s.ch, id, ok))
    case CallNext => CallStep(s)
    case PostPuback =>
      var (token, ok) := s.ch.posting.value;
      Post(s.(ch := s.ch.(posting := None)), Completed(token, ok))
  }

  /** The state after a run; None when some action of the run is not possible. */
  ghost function After(g: Config, run: seq<Action>): Option<State>
    decreases |run|
  {
    if run == [] then Some(Initial(g))
    else
      var before := After(g, run[..|run| - 1]);
      if before.Some? && Enabled(before.value, run[|run| - 1])
      then Some(Step(g, before.value, run[|run| - 1])) else None
  }
}

/** What each kind of step of the full firmware leaves alone. */
module DeviceFrames {
  import opened Device
  import MS = MeasurementService

  /** The event queue is the same, or has one more MQTT event at its end. */
  predicate PostsAtMost(q: seq<Event>, q': seq<Event>) {
    q' == q || q' == q + [MqttConnected] || q' == q + [MqttDisconnected] || q' == q + [MqttError]
  }

  predicate PostsErrors(q: seq<Event>, q': seq<Event>) {
    q' == q || q' == q + [MqttError]
  }

  /** A step of the controller. */
  predicate SysLeaves(s: State, s': State) {
    && s'.opener == s.opener && s'.call == s.call && s'.link == s.link && s'.closing == s.closing && s'.h == s.h
    && s'.ch == s.ch.(c := s'.ch.c) && (s'.svc == s.svc || s'.svc == MS.OnDisconnected(s.svc))
    && PostsErrors(s.q, s'.q)
  }

  lemma SysFrame(g: Config, s: State, ok: bool)
    ensures SysLeaves(s, SysStep(g, s, ok))
  {
    match s.sys {
      case SysIdle => case LteCas => case LteSet => case Lock(_) => case Submit(_) =>
      case ConnectLte => case ConnectHelper => case ConnectCas => case ConnectSubmit => case PostError =>
    }
  }

  /** A step of the connect or disconnect handler. */
  predicate OpenLeaves(s: State, s': State) {
    && s' == s.(ch := s.ch.(c := s'.ch.c), opener := s'.opener, link := s'.link, closing := s'.closing, q := s'.q)
    && PostsErrors(s.q, s'.q)
  }

  lemma OpenFrame(s: State, ok: bool)
    ensures OpenLeaves(s, OpenStep(s, ok))
  {
    match s.opener {
      case OpenIdle => case OpenLte => case OpenAbort => case OpenRead => case OpenMark(_) => case OpenCall(_) =>
      case OpenFailed(_) => case FailLte(_) => case FailCheck(_) => case FailPost => case CloseRead => case CloseCall =>
    }
  }

  predicate ComingUp(call: Callback) {
    call.UpSet? || call.UpLte? || call.UpMark? || call.UpCheck? || call.UpPost? || call.UpLock? || call.UpSubmit?
  }

  /** A step of a helper callback. */
  predicate CallLeaves(s: State, s': State) {
    && s' == s.(ch := s.ch.(c := s'.ch.c, session := s'.ch.session), call := s'.call, q := s'.q)
    && s'.ch.c.publishToken == s.ch.c.publishToken && (ComingUp(s'.call) ==> ComingUp(s.call))
    && PostsAtMost(s.q, s'.q) && (!s.call.UpPost? && !s.call.RefusedPost? && !s.call.DownPost? ==> s'.q == s.q)
  }

  lemma CallFrame(s: State)
    ensures CallLeaves(s, CallStep(s))
  {
    match s.call {
      case CallIdle => case UpSet => case UpLte => case UpMark => case UpCheck(_) => case UpPost => case UpLock =>
      case UpSubmit =>
      case RefusedLte => case RefusedMark => case RefusedCheck(_) => case RefusedPost => case DownLock =>
      case DownPost =>
    }
  }

  /** A step of the publish handlers on the MQTT work queue. */
  predicate SendLeaves(s: State, s': State) {
    && s' == s.(ch := s'.ch, q := s'.q)
    && s'.ch.caller == s.ch.caller && s'.ch.posting == s.ch.posting && s'.ch.session == s.ch.session
    && s'.ch.c.publishToken == s.ch.c.publishToken && s'.ch.h.submitted == s.ch.h.submitted
  }

  lemma SendFrame(g: Config, s: State, id: nat, ok: bool)
    requires !s.ch.sender.Rest? && !s.ch.sender.Retry?
    ensures SendLeaves(s, SenderOp(g, s, id, ok))
  {
    match s.ch.sender {
      case Lock(_) => case Stale => case Start(_, _, _, _) => case Writing(_, _, _) => case Written(_, _, _, _) =>
      case Failing(_) => case Finish =>
    }
  }

  /** What the controller does before its first operation on shared state. */
  predicate HandleLeaves(s: State, s': State) {
    && s'.ch == s.ch && s'.opener == s.opener && s'.call == s.call && s'.link == s.link && s'.closing == s.closing
    && s'.q == s.q && s'.h.accepted == s.h.accepted
  }

  lemma HandleFrame(g: Config, s: State, e: Event)
    ensures HandleLeaves(s, Dispatch(g, s, e))
  {
    match e {
      case LteLost => case LteConnected => case MqttConnected => case MqttDisconnected => case MqttError =>
      case Completed(_, _) =>
    }
  }

  // ------------------------------------------------------ who changes what

  /** Only the service's own handlers and the controller change the service; of
      these, only a publish call is under way between steps. */
  lemma ServiceStays(g: Config, s: State, a: Action)
    requires Enabled(s, a) && !a.HandleEvent? && !a.SysNext? && !a.CallerNext? && !a.StartPublish? && !a.Sample?
    ensures Step(g, s, a).svc == s.svc && Step(g, s, a).ch.caller == s.ch.caller
  {
    match a {
      case OpenNext(ok) => OpenFrame(s, ok);
      case CallNext => CallFrame(s);
      case SenderNext(id, ok) => SendFrame(g, s, id, ok);
      case LteChanges(_) => case Arrive(_) => case ReconnectFires => case StartJob => case StartRetry =>
      case StartOpen => case StartClose => case RetryNext => case Connack(_) => case Disconnected => case HelperError =>
      case Puback(_, _) => case PostPuback =>
    }
  }

  /** Only a handled event or a sample changes the history. */
  lemma HistoryStays(g: Config, s: State, a: Action)
    requires Enabled(s, a) && !a.HandleEvent? && !a.Sample?
    ensures Step(g, s, a).h == s.h
  {
    match a {
      case SysNext(ok) => SysFrame(g, s, ok);
      case OpenNext(ok) => OpenFrame(s, ok);
      case CallNext => CallFrame(s);
      case SenderNext(id, ok) => SendFrame(g, s, id, ok);
      case LteChanges(_) => case Arrive(_) => case StartPublish(_) => case ReconnectFires => case CallerNext(_) =>
      case StartJob => case StartRetry => case StartOpen => case StartClose => case RetryNext =>
      case Connack(_) => case Disconnected => case HelperError => case Puback(_, _) => case PostPuback =>
    }
  }

  /** Only the controller and the timer change the policy. */
  lemma PolicyStays(g: Config, s: State, a: Action)
    requires Enabled(s, a) && !a.HandleEvent? && !a.SysNext? && !a.ReconnectFires?
    ensures Step(g, s, a).rec == s.rec && Step(g, s, a).recTimer == s.recTimer
  {
    match a {
      case OpenNext(ok) => OpenFrame(s, ok);
      case CallNext => CallFrame(s);
      case SenderNext(id, ok) => SendFrame(g, s, id, ok);
      case LteChanges(_) => case Arrive(_) => case StartPublish(_) => case Sample(_) => case CallerNext(_) =>
      case StartJob => case StartRetry => case StartOpen => case StartClose => case RetryNext =>
      case Connack(_) => case Disconnected => case HelperError => case Puback(_, _) => case PostPuback =>
    }
  }

  /** Only a publish call hands a message over. */
  lemma SubmittedStays(g: Config, s: State, a: Action)
    requires Enabled(s, a) && !a.CallerNext?
    ensures Step(g, s, a).ch.h.submitted == s.ch.h.submitted
  {
    match a {
      case HandleEvent => HandleFrame(g, s.(q := s.q[1..]), s.q[0]);
      case SysNext(ok) => SysFrame(g, s, ok);
      case OpenNext(ok) => OpenFrame(s, ok);
      case CallNext => CallFrame(s);
      case SenderNext(id, ok) => SendFrame(g, s, id, ok);
      case LteChanges(_) => case Arrive(_) => case StartPublish(_) => case Sample(_) => case ReconnectFires =>
      case StartJob => case StartRetry => case StartOpen => case StartClose => case RetryNext =>
      case Connack(_) => case Disconnected => case HelperError => case Puback(_, _) => case PostPuback =>
    }
  }
}

/** An NBIRTH whose acknowledgement the service handles was acknowledged in the
    present connection, if there is one, and nothing is on its way that replaces
    it; as long as the MQTT work queue starts the older of a queued publish and a
    queued connect item first. */
module DeviceBirthAcked {
  import opened Common
  import opened Device
  import opened DeviceFrames
  import opened DeviceSound
  import opened DeviceOutbox
  import opened DeviceWake
  import opened DeviceConnection
  import MC = MqttClient
  import MS = MeasurementService
  import PP = PublishProtocol
  import PB = PublishBuffer
  import PK = PublishPackets
  import PS = PublishSound
  import RP = ReconnectPolicy

  // ------------------------------------------------------- oldest first

  /** Of the MQTT work queue: whether the queued connect item is older than the
      queued publish item, and the tokens of the publish items started since a
      connect item was last started. */
  datatype Past = Past(connectOlder: bool, started: set<nat>)

  function Extended(s: State, a: Action, s': State, p: Past): Past {
    if a.StartOpen? then p.(started := {})
    else if a.StartJob? then p.(started := p.started + {s.ch.c.publishToken})
    else if !s.ch.c.publishWork && s'.ch.c.publishWork then p.(connectOlder := s.ch.c.connectWork)
    else if !s.ch.c.connectWork && s'.ch.c.connectWork then p.(connectOlder := false)
    else p
  }

  /** Of the two items the older one is started first. */
  predicate OldestFirst(s: State, a: Action, p: Past) {
    && (a.StartJob? && s.ch.c.connectWork ==> !p.connectOlder)
    && (a.StartOpen? && s.ch.c.publishWork ==> p.connectOlder)
  }

  // ----------------------------------------------------------- what is kept

  /** The operations of aitsm_mqtt_connect. */
  predicate Ordering(sys: Sys) {
    sys.ConnectLte? || sys.ConnectHelper? || sys.ConnectCas? || sys.ConnectSubmit?
  }

  /** While the service is connected no connect is ordered. */
  predicate Steadfast(s: State) {
    s.svc.connected ==> s.rec.phase.Connected? && !Ordering(s.sys)
  }

  predicate DownComing(s: State) {
    s.call.DownPost? || MqttDisconnected in s.q
  }

  /** A service whose NBIRTH was acknowledged is settled, and no connect is queued. */
  ghost predicate Birthed(s: State) {
    s.svc.connected && !s.svc.birthPending ==>
      Settled(s) && !s.ch.c.connectWork && (DownComing(s) ==> !Live(s))
  }

  /** The payload buffer is read, or will be. */
  predicate InUse(ch: Channel) {
    ch.c.publishWork || ch.sender.Lock? || ch.c.activeId != 0 || PB.RetryId(ch) != 0 || PB.WritingOut(ch)
  }

  /** A job or a publish of the present generation. */
  predicate Current(ch: Channel) {
    || ch.c.activeId != 0
    || (ch.c.publishWork && ch.c.publishGeneration == ch.c.generation)
    || (ch.sender.Lock? && ch.sender.job == ch.c.generation)
  }

  // ----------------------------------------------------- who changes what

  /** The publish item and the payload are those of before, or gone. */
  predicate SameJob(ch: Channel, ch': Channel) {
    && ch'.c.payload == ch.c.payload && ch'.c.publishToken == ch.c.publishToken
    && (ch'.c.publishWork ==> ch.c.publishWork)
    && (InUse(ch') ==> InUse(ch)) && (Current(ch') ==> Current(ch))
  }

  lemma OutsideSameJob(ch: Channel, ch': Channel)
    requires PP.Outside(ch, ch') && ch.c.publishGeneration <= ch.c.generation
    requires ch.sender.Lock? ==> ch.sender.job <= ch.c.generation
    ensures SameJob(ch, ch')
  {
  }

  lemma SenderSameJob(g: Config, s: State, id: nat, ok: bool)
    requires !s.ch.sender.Rest? && !s.ch.sender.Retry?
    ensures SameJob(s.ch, SenderOp(g, s, id, ok).ch)
  {
    match s.ch.sender {
      case Lock(_) => case Stale => case Start(_, _, _, _) => case Writing(_, _, _) => case Written(_, _, _, _) =>
      case Failing(_) => case Finish =>
    }
  }

  lemma RetrySameJob(g: Config, s: State)
    requires s.ch.sender.Retry? && PB.RetryReads(s.ch)
    ensures SameJob(s.ch, PP.RetryStep(g.timing, s.ch))
  {
    match s.ch.sender.at {
      case Own => case Id => case Job => case Stamp => case LteUp => case HelperUp => case Check =>
    }
  }

  lemma StartSameJob(ch: Channel)
    requires ch.sender.Rest?
    ensures ch.c.publishWork ==> SameJob(ch, PP.StartJob(ch))
    ensures SameJob(ch, PP.StartRetry(ch))
  {
  }

  lemma PubackSameJob(ch: Channel, id: nat, ok: bool)
    ensures SameJob(ch, PP.PubackStep(ch, id, ok))
  {
  }

  lemma ProtocolSameJob(g: Config, s: State, a: Action)
    requires Enabled(s, a) && Protocol(a) && !a.CallerNext? && PB.RetryReads(s.ch)
    ensures SameJob(s.ch, Step(g, s, a).ch)
  {
    match a {
      case SenderNext(id, ok) => SenderSameJob(g, s, id, ok);
      case RetryNext => RetrySameJob(g, s);
      case StartJob => StartSameJob(s.ch);
      case StartRetry => StartSameJob(s.ch);
      case Puback(id, ok) => PubackSameJob(s.ch, id, ok);
      case Arrive(_) => case StartPublish(_) => case PostPuback =>
    }
  }

  lemma StepSameJob(g: Config, s: State, a: Action)
    requires Enabled(s, a) && !a.CallerNext? && PB.RetryReads(s.ch) && Anchored(s)
    ensures SameJob(s.ch, Step(g, s, a).ch)
  {
    if Protocol(a) {
      ProtocolSameJob(g, s, a);
    } else {
      OutsideStep(g, s, a);
      OutsideSameJob(s.ch, Step(g, s, a).ch);
    }
  }

  /** What the service and the controller believe of the session stays. */
  predicate SameSession(s: State, s': State) {
    && s'.svc.connected == s.svc.connected && s'.svc.birthPending == s.svc.birthPending
    && s'.svc.birthInFlight == s.svc.birthInFlight && s'.svc.inFlight == s.svc.inFlight
    && s'.svc.pendingToken == s.svc.pendingToken && s'.sys == s.sys && s'.rec == s.rec
  }

  /** The actions of the controller. */
  predicate Controlling(a: Action) {
    a.HandleEvent? || a.SysNext? || a.ReconnectFires?
  }

  lemma ProtocolSameSession(g: Config, s: State, a: Action)
    requires Enabled(s, a) && Protocol(a) && !a.CallerNext?
    ensures SameSession(s, Step(g, s, a))
  {
    match a {
      case SenderNext(id, ok) => SendFrame(g, s, id, ok);
      case StartPublish(_) => case Arrive(_) => case StartJob => case StartRetry => case RetryNext =>
      case Puback(_, _) => case PostPuback =>
    }
  }

  lemma ConnectingSameSession(g: Config, s: State, a: Action)
    requires Enabled(s, a) && Connecting(a)
    ensures SameSession(s, Step(g, s, a))
  {
    match a {
      case OpenNext(ok) => OpenFrame(s, ok);
      case CallNext => CallFrame(s);
      case StartOpen => case Connack(_) => case Disconnected =>
    }
  }

  lemma OutsideSameSession(g: Config, s: State, a: Action)
    requires Enabled(s, a) && !Protocol(a) && !Connecting(a) && !Controlling(a)
    ensures SameSession(s, Step(g, s, a))
  {
    match a {
      case LteChanges(_) => case Sample(_) => case StartClose => case HelperError =>
    }
  }

  lemma OthersSameSession(g: Config, s: State, a: Action)
    requires Enabled(s, a) && !Controlling(a) && !a.CallerNext?
    ensures SameSession(s, Step(g, s, a))
  {
    if Protocol(a) { ProtocolSameSession(g, s, a); }
    else if Connecting(a) { ConnectingSameSession(g, s, a); }
    else { OutsideSameSession(g, s, a); }
  }

  // ------------------------------------------------------ no connect is ordered

  lemma ApplySteadfast(g: Config, s: State, e: RP.Event)
    requires s.svc.connected ==> s.rec.lte && (e.MqttUp? || (s.rec.phase.Connected? && (e.LteUp? || e.Timer?)))
    ensures Steadfast(Apply(g, s, e))
  {
  }

  lemma HandleSteadfast(g: Config, s: State, e: Event)
    requires Steadfast(s) && Gate(s.svc, s.rec)
    ensures Steadfast(Dispatch(g, s, e))
  {
    match e {
      case MqttConnected =>
        if s.rec.lte {
          ApplySteadfast(g, s.(svc := MS.OnConnected(s.svc), h := s.h.(open := true, acks := [])), RP.MqttUp);
        }
      case MqttDisconnected =>
        ApplySteadfast(g, s.(svc := MS.OnDisconnected(s.svc), h := s.h.(open := false)), RP.Failure);
      case MqttError => if !s.rec.lte { ApplySteadfast(g, s.(svc := MS.OnDisconnected(s.svc)), RP.Failure); }
      case LteLost => case LteConnected => case Completed(_, _) =>
    }
  }

  lemma SysSteadfast(g: Config, s: State, ok: bool)
    requires Steadfast(s) && Gate(s.svc, s.rec) && Told(s)
    ensures Steadfast(SysStep(g, s, ok))
  {
    match s.sys {
      case LteCas => if !s.ch.c.lte { ApplySteadfast(g, s.(svc := MS.OnDisconnected(s.svc)), RP.LteDown); }
      case LteSet => ApplySteadfast(g, WithClient(s, s.ch.c.(lte := true)), RP.LteUp);
      case Submit(why) => SubmitSteadfast(g, WithClient(s, s.ch.c.(disconnectWork := true)), why);
      case SysIdle => case Lock(_) => case ConnectLte => case ConnectHelper => case ConnectCas =>
      case ConnectSubmit => case PostError =>
    }
  }

  lemma SubmitSteadfast(g: Config, s: State, why: Reason)
    requires why != LostLte ==> !s.svc.connected
    ensures Steadfast(AfterSubmit(g, s, why))
  {
    match why {
      case LostLte => ApplySteadfast(g, s.(svc := MS.OnDisconnected(s.svc)), RP.LteDown);
      case AfterError => ApplySteadfast(g, s, RP.Failure);
      case Stray =>
    }
  }

  lemma StepSteadfast(g: Config, s: State, a: Action)
    requires Steadfast(s) && Gate(s.svc, s.rec) && Told(s) && Enabled(s, a)
    ensures Steadfast(Step(g, s, a))
  {
    match a {
      case HandleEvent => HandleSteadfast(g, s.(q := s.q[1..]), s.q[0]);
      case SysNext(ok) => SysSteadfast(g, s, ok);
      case ReconnectFires => ApplySteadfast(g, s.(recTimer := None), RP.Timer);
      case CallerNext(ok) => CallerSession(s, ok);
      case _ => OthersSameSession(g, s, a);
    }
  }

  /** A publish call leaves the session alone; handing over notes the token. */
  lemma CallerSession(s: State, ok: bool)
    requires s.ch.caller.Call?
    ensures var s' := CallerOp(s, ok);
            && s'.svc.connected == s.svc.connected && s'.svc.birthPending == s.svc.birthPending
            && s'.sys == s.sys && s'.rec == s.rec && s'.q == s.q && s'.call == s.call
            && (s.ch.caller.at.Submit? && ok ==>
                  s'.svc.inFlight && s'.svc.pendingToken == s'.ch.c.publishToken == s.ch.c.publishToken
                  && s'.svc.birthInFlight == (s.svc.birthInFlight || s.ch.caller.m.payload.Birth?))
            && (!(s.ch.caller.at.Submit? && ok) ==>
                  s'.svc.inFlight == s.svc.inFlight && s'.svc.birthInFlight == s.svc.birthInFlight)
  {
    match s.ch.caller.at {
      case Lte => case Helper => case Cas => case Active => case Release =>
      case Payload => case Topic => case Generation => case Token => case Submit =>
    }
  }

  // -------------------------------------------------- the end of a session

  lemma StepDownComing(g: Config, s: State, a: Action)
    requires Enabled(s, a) && Tracked(s) && DownComing(Step(g, s, a))
    ensures DownComing(s) || !Live(Step(g, s, a))
  {
    match a {
      case HandleEvent => HandleFrame(g, s.(q := s.q[1..]), s.q[0]);
      case SysNext(ok) => SysFrame(g, s, ok);
      case OpenNext(ok) => OpenFrame(s, ok);
      case CallNext => CallDownComing(s);
      case SenderNext(id, ok) => SenderPosts(g, s, id, ok);
      case CallerNext(ok) => CallerSession(s, ok);
      case LteChanges(_) => case Arrive(_) => case StartPublish(_) => case Sample(_) => case ReconnectFires =>
      case StartJob => case StartRetry => case StartOpen => case StartClose => case RetryNext =>
      case Connack(_) => case Disconnected => case HelperError => case Puback(_, _) => case PostPuback =>
    }
  }

  lemma CallDownComing(s: State)
    requires Tracked(s) && DownComing(CallStep(s))
    ensures DownComing(s) || !Live(CallStep(s))
  {
    match s.call {
      case CallIdle => case UpSet => case UpLte => case UpMark => case UpCheck(_) => case UpPost => case UpLock =>
      case UpSubmit =>
      case RefusedLte => case RefusedMark => case RefusedCheck(_) => case RefusedPost => case DownLock =>
      case DownPost =>
    }
  }

  lemma SenderPosts(g: Config, s: State, id: nat, ok: bool)
    requires !s.ch.sender.Rest? && !s.ch.sender.Retry?
    ensures var s' := SenderOp(g, s, id, ok);
            && s'.call == s.call
            && (s'.q == s.q || (s.ch.sender.Failing? && s'.q == s.q + [Completed(s.ch.sender.token, false)]))
  {
    SendFrame(g, s, id, ok);
  }

  /** The NBIRTH of a connected service is acknowledged. */
  predicate AcksBirth(s: State, a: Action) {
    && a.HandleEvent? && s.q != [] && s.svc.connected && s.svc.birthInFlight && s.svc.inFlight
    && s.q[0] == Completed(s.svc.pendingToken, true)
  }

  /** The NBIRTH was acknowledged before, or is just now. */
  lemma HandleBirthed(g: Config, s: State)
    requires s.q != [] && (s.svc.birthInFlight ==> s.svc.birthPending)
    ensures var svc' := Dispatch(g, s.(q := s.q[1..]), s.q[0]).svc;
            svc'.connected && !svc'.birthPending ==>
              (s.svc.connected && !s.svc.birthPending) || AcksBirth(s, HandleEvent)
  {
    match s.q[0] {
      case LteLost => case LteConnected => case MqttConnected => case MqttDisconnected => case MqttError =>
      case Completed(token, ok) => if MS.Accepts(s.svc, token) { ResultAnswers(g, s.svc, token, ok); }
    }
  }

  lemma StepBirthed(g: Config, s: State, a: Action)
    requires Enabled(s, a) && (s.svc.birthInFlight ==> s.svc.birthPending)
    ensures var svc' := Step(g, s, a).svc;
            svc'.connected && !svc'.birthPending ==>
              (s.svc.connected && !s.svc.birthPending) || AcksBirth(s, a)
  {
    match a {
      case HandleEvent => HandleBirthed(g, s);
      case SysNext(ok) => SysFrame(g, s, ok);
      case ReconnectFires =>
      case CallerNext(ok) => CallerSession(s, ok);
      case _ => OthersSameSession(g, s, a);
    }
  }

  /** While the NBIRTH stays acknowledged nothing new is on its way. */
  lemma StaysBirthed(g: Config, s: State, a: Action)
    requires Birthed(s) && Enabled(s, a) && s.svc.connected && !s.svc.birthPending
    requires PB.Buffered(s.ch) && Reported(s.q, s.ch) && Tracked(s) && Steadfast(s)
    ensures Birthed(Step(g, s, a))
  {
    StepStaysSettled(g, s, a);
    if Step(g, s, a).ch.c.connectWork { ConnectItemStays(g, s, a); }
    if DownComing(Step(g, s, a)) { StepDownComing(g, s, a); }
  }

  // ------------------------------------------------------ the NBIRTH in flight

  /** The NBIRTH in flight waits behind a queued connect item, or has been started
      and none is queued. */
  predicate BirthStarted(s: State, p: Past) {
    s.svc.connected && s.svc.birthInFlight ==>
      && s.svc.pendingToken == s.ch.c.publishToken
      && if s.ch.c.publishWork then s.ch.c.connectWork ==> p.connectOlder
         else s.svc.pendingToken in p.started && !s.ch.c.connectWork
  }

  predicate DiallingFresh(s: State, p: Past) {
    Dialling(s.opener) ==> p.started == {}
  }

  /** Since a publish started since then was acknowledged, the connection has not been replaced. */
  ghost predicate StartedKept(s: State, p: Past) {
    forall k :: 0 <= k < |s.ch.h.done| && s.ch.h.done[k].ok && s.ch.h.done[k].token in p.started ==>
      Unreplaced(s, s.ch.h.done[k].session)
  }

  /** A disconnect is handled before any completion of the token. */
  ghost predicate Ahead(q: seq<Event>, token: nat) {
    exists i :: 0 <= i < |q| && q[i].MqttDisconnected? && Free(q, i, token)
  }

  ghost predicate Free(q: seq<Event>, n: nat, token: nat) {
    forall j :: 0 <= j < n <= |q| && q[j].Completed? ==> q[j].token != token
  }

  /** An acknowledged NBIRTH in flight is overtaken by a disconnect, or any
      disconnect on its way is that of the present connection. */
  ghost predicate BirthAhead(s: State) {
    s.svc.connected && s.svc.birthInFlight && Decided(s.ch.h.done, s.svc.pendingToken, true) ==>
      Ahead(s.q, s.svc.pendingToken) || (DownComing(s) ==> !Live(s))
  }

  /** A later NBIRTH in flight is the one of before. */
  predicate SameBirth(svc: MS.Service, svc': MS.Service) {
    svc'.connected && svc'.birthInFlight ==>
      svc.connected && svc.birthInFlight && svc'.pendingToken == svc.pendingToken && svc'.inFlight == svc.inFlight
  }

  lemma HandleSameBirth(g: Config, s: State, e: Event)
    requires s.svc.birthInFlight ==> s.svc.connected
    ensures SameBirth(s.svc, Dispatch(g, s, e).svc)
    ensures e.MqttDisconnected? ==> !Dispatch(g, s, e).svc.connected
    ensures e.Completed? && MS.Accepts(s.svc, e.token) ==> !Dispatch(g, s, e).svc.birthInFlight
  {
    match e {
      case LteLost => case LteConnected => case MqttConnected => case MqttDisconnected => case MqttError =>
      case Completed(token, ok) => if MS.Accepts(s.svc, token) { ResultAnswers(g, s.svc, token, ok); }
    }
  }

  lemma StepSameBirth(g: Config, s: State, a: Action)
    requires Enabled(s, a) && !a.CallerNext? && (s.svc.birthInFlight ==> s.svc.connected)
    ensures SameBirth(s.svc, Step(g, s, a).svc)
  {
    match a {
      case HandleEvent => HandleSameBirth(g, s.(q := s.q[1..]), s.q[0]);
      case SysNext(ok) => SysFrame(g, s, ok);
      case ReconnectFires =>
      case _ => OthersSameSession(g, s, a);
    }
  }

  /** While the service is connected no connect item is queued. */
  lemma NoConnectItem(g: Config, s: State, a: Action)
    requires Enabled(s, a) && Steadfast(s) && s.svc.connected && Step(g, s, a).ch.c.connectWork
    ensures s.ch.c.connectWork
  {
    if !s.ch.c.connectWork { ConnectItemStays(g, s, a); }
  }

  lemma StepBirthStarted(g: Config, s: State, a: Action, p: Past)
    requires Enabled(s, a) && !a.CallerNext? && OldestFirst(s, a, p) && BirthStarted(s, p) && Steadfast(s)
    requires Anchored(s) && PB.RetryReads(s.ch) && (s.svc.birthInFlight ==> s.svc.connected)
    ensures BirthStarted(Step(g, s, a), Extended(s, a, Step(g, s, a), p))
  {
    StepSameBirth(g, s, a);
    StepSameJob(g, s, a);
    var s' := Step(g, s, a);
    if s'.svc.connected && s'.svc.birthInFlight {
      if s'.ch.c.connectWork { NoConnectItem(g, s, a); }
      if s.ch.c.publishWork && !s'.ch.c.publishWork { PublishItemStarted(g, s, a); }
    }
  }

  lemma PublishItemStarted(g: Config, s: State, a: Action)
    requires Enabled(s, a) && !a.CallerNext? && s.ch.c.publishWork && !Step(g, s, a).ch.c.publishWork
    ensures a.StartJob?
  {
    if Protocol(a) {
      match a {
        case StartJob =>
        case SenderNext(id, ok) => SenderFlags(g, s, id, ok);
        case RetryNext => RetryFlags(g, s);
        case Arrive(_) => case StartPublish(_) => case StartRetry => case Puback(_, _) => case PostPuback =>
      }
    } else {
      OutsideStep(g, s, a);
    }
  }

  /** A publish call with an NBIRTH, just submitted. */
  lemma CallerBirthStarted(g: Config, s: State, ok: bool, p: Past)
    requires s.ch.caller.Call? && PB.OneOwner(s.ch) && Offering(s.svc, s.ch) && InFlight(s.svc, s.ch.h.submitted)
    ensures BirthStarted(CallerOp(s, ok), Extended(s, CallerNext(ok), CallerOp(s, ok), p))
  {
    CallerSession(s, ok);
    CallerFlags(s, ok);
  }

  lemma StepDiallingFresh(g: Config, s: State, a: Action, p: Past)
    requires Enabled(s, a) && DiallingFresh(s, p)
    ensures DiallingFresh(Step(g, s, a), Extended(s, a, Step(g, s, a), p))
  {
    if Protocol(a) {
      ProtocolSameLink(g, s, a);
    } else if !Connecting(a) {
      OthersSameLink(g, s, a);
    } else {
      match a {
        case OpenNext(ok) => OpenDialling(s, ok);
        case CallNext => CallFrame(s);
        case StartOpen => case Connack(_) => case Disconnected =>
      }
    }
  }

  lemma OpenDialling(s: State, ok: bool)
    ensures Dialling(OpenStep(s, ok).opener) ==> Dialling(s.opener)
  {
    match s.opener {
      case OpenIdle => case OpenLte => case OpenAbort => case OpenRead => case OpenMark(_) => case OpenCall(_) =>
      case OpenFailed(_) => case FailLte(_) => case FailCheck(_) => case FailPost => case CloseRead => case CloseCall =>
    }
  }

  // the acknowledged publishes

  lemma StepNoSuccess(g: Config, s: State, a: Action)
    requires Enabled(s, a) && !a.Puback?
    ensures NoSuccess(s.ch, Step(g, s, a).ch)
  {
    if Protocol(a) {
      match a {
        case CallerNext(ok) => PB.CallerFrame(s.ch, ok);
        case SenderNext(id, ok) => SenderFlags(g, s, id, ok);
        case RetryNext => RetryFlags(g, s);
        case Arrive(_) => case StartPublish(_) => case StartJob => case StartRetry => case PostPuback =>
      }
    } else {
      OutsideStep(g, s, a);
    }
  }

  /** What a PUBACK acknowledges was written to the present connection. */
  lemma PubackKept(s: State, id: nat, ok: bool, p: Past)
    requires CallFree(s) && PP.BrokerHas(s.ch, id) && MC.Acknowledges(s.ch.c, id)
    requires Anchored(s) && PK.Identified(s.ch) && DiallingFresh(s, p) && s.ch.c.activeToken in p.started
    ensures Unreplaced(s, s.ch.session)
  {
    var k :| 0 <= k < |s.ch.h.arrived| && PP.ArrivedAs(s.ch, s.ch.h.arrived[k], id);
    assert PK.GoodPacket(s.ch, s.ch.h.wire[s.ch.h.arrived[k]]) && id != 0;
  }

  lemma PubackStartedKept(s: State, id: nat, ok: bool, p: Past)
    requires CallFree(s) && PP.BrokerHas(s.ch, id) && StartedKept(s, p)
    requires Anchored(s) && PK.Identified(s.ch) && DiallingFresh(s, p)
    ensures StartedKept(s.(ch := PP.PubackStep(s.ch, id, ok)), p)
  {
    if MC.Acknowledges(s.ch.c, id) && s.ch.c.activeToken in p.started { PubackKept(s, id, ok, p); }
  }

  /** The job about to start has not been completed. */
  lemma WaitingIsOpen(ch: Channel, k: nat)
    requires PK.Identified(ch) && PS.CompletedOnce(ch) && PB.JobWaits(ch) && k < |ch.h.done|
    ensures ch.h.done[k].token != ch.c.publishToken
  {
  }

  /** Nothing new succeeded, nothing completed was started, and the connection was not replaced. */
  lemma StartedStays(s: State, s': State, p: Past, p': Past)
    requires StartedKept(s, p) && NoSuccess(s.ch, s'.ch) && forall n: nat :: Unreplaced(s, n) ==> Unreplaced(s', n)
    requires forall k :: 0 <= k < |s.ch.h.done| && s.ch.h.done[k].token in p'.started ==>
               s.ch.h.done[k].token in p.started
    ensures StartedKept(s', p')
  {
  }

  lemma StartedOnce(s: State, a: Action, s': State, p: Past)
    requires a.StartJob? ==> s.ch.c.publishWork
    requires PK.Identified(s.ch) && PS.CompletedOnce(s.ch)
    ensures forall k :: 0 <= k < |s.ch.h.done| && s.ch.h.done[k].token in Extended(s, a, s', p).started ==>
              s.ch.h.done[k].token in p.started
  {
    forall k | 0 <= k < |s.ch.h.done| && a.StartJob?
      ensures s.ch.h.done[k].token != s.ch.c.publishToken
    {
      WaitingIsOpen(s.ch, k);
    }
  }

  lemma StepStartedKept(g: Config, s: State, a: Action, p: Past)
    requires Enabled(s, a) && StartedKept(s, p) && DiallingFresh(s, p) && Anchored(s) && Tracked(s)
    requires PK.Identified(s.ch) && PS.CompletedOnce(s.ch)
    ensures StartedKept(Step(g, s, a), Extended(s, a, Step(g, s, a), p))
  {
    if a.Puback? {
      PubackStartedKept(s, a.id, a.ok, p);
    } else if !a.StartOpen? {
      StepNoSuccess(g, s, a);
      forall n: nat | Unreplaced(s, n)
        ensures Unreplaced(Step(g, s, a), n)
      {
        StepStaysUnreplaced(g, s, a, n);
      }
      StartedOnce(s, a, Step(g, s, a), p);
      StartedStays(s, Step(g, s, a), p, Extended(s, a, Step(g, s, a), p));
    }
  }

  // the order of the event queue

  /** A completion that was not decided is not in the queue. */
  lemma UndecidedIsAhead(q: seq<Event>, ch: Channel, token: nat)
    requires Reported(q, ch) && PS.Open(ch, token) && MqttDisconnected in q
    ensures Ahead(q, token)
  {
    var i :| 0 <= i < |q| && q[i] == MqttDisconnected;
    forall j | 0 <= j < i && q[j].Completed?
      ensures q[j].token != token
    {
      assert Decided(ch.h.done, q[j].token, q[j].ok);
      var k :| 0 <= k < |ch.h.done| && ch.h.done[k].token == q[j].token && ch.h.done[k].ok == q[j].ok;
    }
    assert Free(q, i, token);
  }

  lemma AheadPushed(q: seq<Event>, more: seq<Event>, token: nat)
    requires Ahead(q, token)
    ensures Ahead(q + more, token)
  {
    var i :| 0 <= i < |q| && q[i].MqttDisconnected? && Free(q, i, token);
    assert (q + more)[i] == q[i] && Free(q + more, i, token);
  }

  lemma AheadPopped(q: seq<Event>, token: nat)
    requires Ahead(q, token) && !q[0].MqttDisconnected?
    ensures !(q[0].Completed? && q[0].token == token) && Ahead(q[1..], token)
  {
    var i :| 0 <= i < |q| && q[i].MqttDisconnected? && Free(q, i, token);
    assert q[1..][i - 1] == q[i];
    forall j | 0 <= j < i - 1 && q[1..][j].Completed?
      ensures q[1..][j].token != token
    {
      assert q[1..][j] == q[j + 1];
    }
    assert Free(q[1..], i - 1, token);
  }

  lemma StepPosts(g: Config, s: State, a: Action)
    requires Enabled(s, a) && !a.HandleEvent?
    ensures s.q <= Step(g, s, a).q
  {
    match a {
      case SysNext(ok) => SysFrame(g, s, ok);
      case OpenNext(ok) => OpenFrame(s, ok);
      case CallNext => CallFrame(s);
      case SenderNext(id, ok) => SenderPosts(g, s, id, ok);
      case CallerNext(ok) => CallerSession(s, ok);
      case LteChanges(_) => case Arrive(_) => case StartPublish(_) => case Sample(_) => case ReconnectFires =>
      case StartJob => case StartRetry => case StartOpen => case StartClose => case RetryNext =>
      case Connack(_) => case Disconnected => case HelperError => case Puback(_, _) => case PostPuback =>
    }
  }

  lemma StepAhead(g: Config, s: State, a: Action, token: nat)
    requires Enabled(s, a) && Ahead(s.q, token) && !(a.HandleEvent? && s.q[0].MqttDisconnected?)
    ensures Ahead(Step(g, s, a).q, token)
  {
    if a.HandleEvent? {
      HandleFrame(g, s.(q := s.q[1..]), s.q[0]);
      AheadPopped(s.q, token);
    } else {
      StepPosts(g, s, a);
      AheadPushed(s.q, Step(g, s, a).q[|s.q|..], token);
      assert s.q + Step(g, s, a).q[|s.q|..] == Step(g, s, a).q;
    }
  }

  /** The NBIRTH in flight has been decided: it was started. */
  lemma DecidedIsStarted(s: State, p: Past) returns (k: nat)
    requires BirthStarted(s, p) && s.svc.connected && s.svc.birthInFlight
    requires Decided(s.ch.h.done, s.svc.pendingToken, true)
    requires PK.Identified(s.ch) && PS.CompletedOnce(s.ch) && StartedKept(s, p)
    ensures k < |s.ch.h.done| && s.ch.h.done[k].token == s.svc.pendingToken && s.ch.h.done[k].ok
    ensures Unreplaced(s, s.ch.h.done[k].session) && !s.ch.c.connectWork
  {
    k :| 0 <= k < |s.ch.h.done| && s.ch.h.done[k].token == s.svc.pendingToken && s.ch.h.done[k].ok;
    if s.ch.c.publishWork { WaitingIsOpen(s.ch, k); }
  }

  /** A decided NBIRTH stays ahead. */
  lemma DecidedStaysAhead(g: Config, s: State, a: Action, p: Past)
    requires Enabled(s, a) && BirthAhead(s) && BirthStarted(s, p) && StartedKept(s, p) && Tracked(s)
    requires PK.Identified(s.ch) && PS.CompletedOnce(s.ch)
    requires s.svc.connected && s.svc.birthInFlight && Decided(s.ch.h.done, s.svc.pendingToken, true)
    requires !(a.HandleEvent? && s.q[0].MqttDisconnected?)
    ensures var s' := Step(g, s, a); Ahead(s'.q, s.svc.pendingToken) || (DownComing(s') ==> !Live(s'))
  {
    if Ahead(s.q, s.svc.pendingToken) {
      StepAhead(g, s, a, s.svc.pendingToken);
    } else {
      var k := DecidedIsStarted(s, p);
      StepStaysUnreplaced(g, s, a, s.ch.h.done[k].session);
      if DownComing(Step(g, s, a)) { StepDownComing(g, s, a); }
    }
  }

  lemma PubackAhead(s: State, id: nat, ok: bool)
    requires CallFree(s) && PP.BrokerHas(s.ch, id) && Reported(s.q, s.ch)
    requires PK.Identified(s.ch) && PS.CompletedOnce(s.ch) && !Decided(s.ch.h.done, s.svc.pendingToken, true)
    ensures BirthAhead(s.(ch := PP.PubackStep(s.ch, id, ok)))
  {
    var s' := s.(ch := PP.PubackStep(s.ch, id, ok));
    if MC.Acknowledges(s.ch.c, id) && s.ch.c.activeToken == s.svc.pendingToken {
      var k :| 0 <= k < |s.ch.h.arrived| && PP.ArrivedAs(s.ch, s.ch.h.arrived[k], id);
      assert PK.GoodPacket(s.ch, s.ch.h.wire[s.ch.h.arrived[k]]) && id != 0;
      if MqttDisconnected in s.q { UndecidedIsAhead(s.q, s.ch, s.svc.pendingToken); }
    } else {
      assert !Decided(s'.ch.h.done, s.svc.pendingToken, true);
    }
  }

  /** What a step leaves of a decided NBIRTH, and that it decides none. */
  lemma AheadStays(s: State, s': State)
    requires SameBirth(s.svc, s'.svc) && NoSuccess(s.ch, s'.ch)
    requires s'.svc.connected && s'.svc.birthInFlight && Decided(s.ch.h.done, s.svc.pendingToken, true) ==>
               Ahead(s'.q, s.svc.pendingToken) || (DownComing(s') ==> !Live(s'))
    ensures BirthAhead(s')
  {
    if s'.svc.connected && s'.svc.birthInFlight && Decided(s'.ch.h.done, s'.svc.pendingToken, true) {
      var k :| 0 <= k < |s'.ch.h.done| && s'.ch.h.done[k].token == s.svc.pendingToken && s'.ch.h.done[k].ok;
      assert k < |s.ch.h.done|;
    }
  }

  lemma PubackBirthAhead(s: State, id: nat, ok: bool)
    requires CallFree(s) && PP.BrokerHas(s.ch, id) && BirthAhead(s) && Reported(s.q, s.ch)
    requires PK.Identified(s.ch) && PS.CompletedOnce(s.ch)
    ensures BirthAhead(s.(ch := PP.PubackStep(s.ch, id, ok)))
  {
    if !Decided(s.ch.h.done, s.svc.pendingToken, true) { PubackAhead(s, id, ok); }
  }

  lemma StepBirthAhead(g: Config, s: State, a: Action, p: Past)
    requires Enabled(s, a) && !a.CallerNext? && BirthAhead(s) && BirthStarted(s, p) && StartedKept(s, p) && Tracked(s)
    requires PK.Identified(s.ch) && PS.CompletedOnce(s.ch) && Reported(s.q, s.ch)
    requires s.svc.birthInFlight ==> s.svc.connected
    ensures BirthAhead(Step(g, s, a))
  {
    if a.Puback? {
      PubackBirthAhead(s, a.id, a.ok);
    } else {
      StepSameBirth(g, s, a);
      StepNoSuccess(g, s, a);
      if Step(g, s, a).svc.connected && Step(g, s, a).svc.birthInFlight
         && Decided(s.ch.h.done, s.svc.pendingToken, true) {
        if a.HandleEvent? { HandleSameBirth(g, s.(q := s.q[1..]), s.q[0]); }
        DecidedStaysAhead(g, s, a, p);
      }
      AheadStays(s, Step(g, s, a));
    }
  }

  lemma CallerBirthAhead(s: State, ok: bool)
    requires s.ch.caller.Call? && Offering(s.svc, s.ch) && InFlight(s.svc, s.ch.h.submitted)
    requires PK.Identified(s.ch) && PS.CompletedOnce(s.ch)
    ensures BirthAhead(CallerOp(s, ok))
  {
    var s' := CallerOp(s, ok);
    CallerSession(s, ok);
    PB.CallerFrame(s.ch, ok);
    if s.ch.caller.at.Submit? && ok {
      forall k | 0 <= k < |s.ch.h.done|
        ensures s.ch.h.done[k].token != s.ch.c.publishToken
      {
        WaitingIsOpen(s.ch, k);
      }
    }
  }

  /** The acknowledged NBIRTH is handled: its connection is the present one, if there is one. */
  lemma BirthAcked(g: Config, s: State, p: Past)
    requires AcksBirth(s, HandleEvent) && SysFree(s) && Reported(s.q, s.ch) && InFlight(s.svc, s.ch.h.submitted)
    requires BirthAhead(s) && BirthStarted(s, p) && StartedKept(s, p) && Tracked(s) && Steadfast(s)
    requires PB.Buffered(s.ch) && PK.Identified(s.ch) && PS.CompletedOnce(s.ch)
    ensures Birthed(Step(g, s, HandleEvent))
  {
    assert Decided(s.ch.h.done, s.q[0].token, s.q[0].ok);
    var k := DecidedIsStarted(s, p);
    assert SettledBy(s, k);
    StepStaysSettled(g, s, HandleEvent);
    if Step(g, s, HandleEvent).ch.c.connectWork { NoConnectItem(g, s, HandleEvent); }
    if Ahead(s.q, s.svc.pendingToken) { AheadPopped(s.q, s.svc.pendingToken); }
    if DownComing(Step(g, s, HandleEvent)) { StepDownComing(g, s, HandleEvent); }
  }
}

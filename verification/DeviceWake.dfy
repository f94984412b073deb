/** The full firmware never waits for something that cannot come: a publish in
    flight is queued or active in the current generation, or its completion or
    the end of the connection is on its way. That an active publish goes on being
    resent is in module DeviceTimer, and that a service with something to send has
    asked for a publish in module DeviceRequests. */
module DeviceWake {
  import opened Common
  import opened Device
  import opened DeviceFrames
  import opened DeviceSound
  import opened DeviceOutbox
  import MC = MqttClient
  import MS = MeasurementService
  import RP = ReconnectPolicy
  import PP = PublishProtocol
  import PB = PublishBuffer
  import PK = PublishPackets
  import PS = PublishSound

  // ---------------------------------------------------------- the invariant

  /** A disconnect the service has not handled. */
  predicate DownPending(s: State) {
    s.call.DownLock? || s.call.DownPost? || MqttDisconnected in s.q
  }

  /** An LTE loss the service is about to be told of. */
  predicate LosingLte(s: State) {
    s.sys == Lock(LostLte) || s.sys == Submit(LostLte)
  }

  predicate Ending(s: State) {
    DownPending(s) || LosingLte(s)
  }

  /** The token's job waits for the sender, stamped with the current generation. */
  predicate Queued(ch: Channel, token: nat) {
    && ch.c.publishToken == token
    && ((ch.c.publishWork && ch.c.publishGeneration == ch.c.generation)
       || (ch.sender.Lock? && ch.sender.job == ch.c.generation))
  }

  predicate Active(ch: Channel, token: nat) {
    ch.c.activeId != 0 && ch.c.activeToken == token && ch.c.activeGeneration == ch.c.generation
  }

  predicate Answering(s: State, token: nat) {
    || s.ch.sender == PP.Failing(token) || (s.ch.posting.Some? && s.ch.posting.value.0 == token)
    || Completed(token, true) in s.q || Completed(token, false) in s.q
  }

  predicate Awake(s: State) {
    s.svc.inFlight ==>
      Queued(s.ch, s.svc.pendingToken) || Active(s.ch, s.svc.pendingToken) || Answering(s, s.svc.pendingToken)
        || Ending(s)
  }

  predicate Stamped(s: State) {
    s.ch.caller.Call? && (s.ch.caller.at.Token? || s.ch.caller.at.Submit?) ==>
      s.ch.c.publishGeneration == s.ch.c.generation || DownPending(s)
  }

  /** The LTE flag, the connection flag and what the retransmission read agree with what they stand for. */
  predicate Tracked(s: State) {
    && (s.rec.lte ==> s.ch.c.lte || LosingLte(s))
    && (s.link.Up? ==> s.ch.c.connected || s.call.UpSet?) && (s.call.DownLock? || s.call.DownPost? ==> !s.link.Up?)
    && (s.ch.sender.Retry? && !s.ch.sender.at.Own? && !s.ch.sender.at.Id? && s.ch.c.activeId != 0 ==>
       s.ch.sender.id == s.ch.c.activeId)
  }

  /** The controller disconnects for another reason than LTE only when the service has been told. */
  predicate Told(s: State) {
    (s.sys.Lock? || s.sys.Submit?) && s.sys.why != LostLte ==> !s.svc.connected
  }

  predicate Woke(s: State) {
    Awake(s) && Stamped(s) && Tracked(s) && Told(s)
  }

  // ------------------------------------------------- what the others provide

  lemma {:induction false} StaysOpen(open: bool, q: seq<Event>)
    requires open && !Final(open, q)
    ensures MqttDisconnected in q
  {
    if !q[|q| - 1].MqttDisconnected? { StaysOpen(open, q[..|q| - 1]); }
  }

  /** While the service believes in the connection, the helper has it or a disconnect is on its way. */
  lemma ConnectedOrDown(g: Config, s: State)
    requires Outbox(g, s) && Tracked(s) && s.svc.connected
    ensures s.ch.c.connected || DownPending(s)
    ensures ComingUp(s.call) ==> DownPending(s)
  {
    if !Final(s.h.open, s.q) { StaysOpen(s.h.open, s.q); }
  }

  lemma StillQueued(q: seq<Event>, e: Event)
    requires q != [] && e in q && q[0] != e
    ensures e in q[1..]
  {
    var i :| 0 <= i < |q| && q[i] == e;
    assert q[1..][i - 1] == e;
  }

  // ------------------------------------------------------------- the steps

  /** Steps that only post events or change what the invariant does not mention. */
  predicate Quiet(s: State, s': State) {
    && s'.svc.inFlight == s.svc.inFlight && s'.svc.connected == s.svc.connected
    && s'.svc.pendingToken == s.svc.pendingToken && s'.rec.lte == s.rec.lte
    && s'.sys == s.sys && s.q <= s'.q && s'.link == s.link && s'.call == s.call
    && SameProtocol(s.ch, s'.ch)
  }

  predicate SameProtocol(ch: Channel, ch': Channel) {
    && ch'.caller == ch.caller && ch'.sender == ch.sender && ch'.posting == ch.posting
    && SameClient(ch.c, ch'.c)
  }

  predicate SameClient(c: MC.Client, c': MC.Client) {
    && c'.lte == c.lte && c'.connected == c.connected && c'.generation == c.generation
    && c'.publishWork == c.publishWork && c'.publishToken == c.publishToken
    && c'.publishGeneration == c.publishGeneration
    && c'.activeId == c.activeId && c'.activeToken == c.activeToken && c'.activeGeneration == c.activeGeneration
    && c'.timer == c.timer
  }

  lemma QuietStaysWoke(s: State, s': State)
    requires Woke(s) && Quiet(s, s')
    ensures Woke(s')
  {
  }

  // the system work queue

  lemma ApplyWoke(g: Config, s: State, e: RP.Event)
    requires Woke(s) && !LosingLte(s) && s.ch.c.lte
    ensures Woke(Apply(g, s, e))
  {
    var s' := Apply(g, s, e);
    assert s'.svc == s.svc && s'.ch == s.ch && s'.q == s.q && s'.call == s.call && s'.link == s.link;
  }

  /** What stays true of the connection when the system work queue moves. */
  predicate SameConnection(s: State, s': State) {
    && s'.link == s.link && s'.call == s.call && s'.ch.c.connected == s.ch.c.connected
    && s'.ch.sender == s.ch.sender && (s'.ch.c.activeId == s.ch.c.activeId || s'.ch.c.activeId == 0)
  }

  /** A step after which nothing is in flight and no publish is being handed over. */
  lemma NotInFlight(s: State, s': State)
    requires Woke(s) && !s'.svc.inFlight && s'.ch.caller.NoCall? && SameConnection(s, s') && Told(s')
    requires s'.rec.lte ==> s'.ch.c.lte || LosingLte(s')
    ensures Woke(s')
  {
  }

  /** An event that is neither a disconnect nor the awaited completion is taken. */
  lemma PopWoke(s: State, s': State)
    requires Woke(s) && s.sys.SysIdle? && s.ch.caller.NoCall? && s.q != [] && s'.q == s.q[1..]
    requires !s.q[0].MqttDisconnected?
    requires s.svc.inFlight && s.q[0].Completed? ==> s.q[0].token != s.svc.pendingToken
    requires s'.svc == s.svc && s'.ch == s.ch && s'.rec == s.rec && s'.link == s.link && s'.call == s.call && Told(s')
    ensures Woke(s')
  {
    if MqttDisconnected in s.q { StillQueued(s.q, MqttDisconnected); }
    if s.svc.inFlight {
      if Completed(s.svc.pendingToken, true) in s.q { StillQueued(s.q, Completed(s.svc.pendingToken, true)); }
      if Completed(s.svc.pendingToken, false) in s.q { StillQueued(s.q, Completed(s.svc.pendingToken, false)); }
    }
  }

  lemma ApplyLte(g: Config, s: State, e: RP.Event)
    requires e != RP.LteUp && e != RP.LteDown
    ensures Apply(g, s, e).rec.lte == s.rec.lte && Apply(g, s, e).svc == s.svc && Apply(g, s, e).ch == s.ch
    ensures Apply(g, s, e).h == s.h
    ensures Apply(g, s, e).q == s.q && Apply(g, s, e).link == s.link && Apply(g, s, e).call == s.call
    ensures !Apply(g, s, e).sys.Lock? && !Apply(g, s, e).sys.Submit?
  {
  }

  lemma HandleWoke(g: Config, s: State)
    requires Outbox(g, s) && Woke(s) && SysFree(s) && s.q != []
    ensures Woke(Dispatch(g, s.(q := s.q[1..]), s.q[0]))
  {
    var s1 := s.(q := s.q[1..]);
    var s' := Dispatch(g, s1, s.q[0]);
    match s.q[0] {
      case LteLost => PopWoke(s, s');
      case LteConnected => PopWoke(s, s');
      case MqttConnected =>
        PopOrdered(s.h.open, s.q, s.link, s.call);
        if s.rec.lte {
          ApplyLte(g, s1.(svc := MS.OnConnected(s1.svc), h := s1.h.(open := true, acks := [])), RP.MqttUp);
        }
        NotInFlight(s, s');
      case MqttDisconnected =>
        ApplyLte(g, s1.(svc := MS.OnDisconnected(s1.svc), h := s1.h.(open := false)), RP.Failure);
        NotInFlight(s, s');
      case MqttError =>
        ApplyLte(g, s1.(svc := MS.OnDisconnected(s1.svc)), RP.Failure);
        NotInFlight(s, s');
      case Completed(token, ok) =>
        if MS.Accepts(s.svc, token) {
          ResultAnswers(g, s.svc, token, ok);
          NotInFlight(s, s');
        } else {
          PopWoke(s, s1);
          QuietStaysWoke(s1, s');
        }
    }
  }

  lemma LoseWoke(g: Config, s: State, s1: State)
    requires Woke(s) && s.ch.caller.NoCall? && SameConnection(s, s1) && s1.ch.caller.NoCall?
    ensures Woke(LoseLte(g, s1))
  {
    NotInFlight(s, LoseLte(g, s1));
  }

  lemma SysWoke(g: Config, s: State, ok: bool)
    requires Outbox(g, s) && Woke(s) && !s.sys.SysIdle? && s.ch.caller.NoCall?
    ensures Woke(SysStep(g, s, ok))
  {
    match s.sys {
      case LteCas => if !s.ch.c.lte { LoseWoke(g, s, s); } else { CasWoke(s); }
      case LteSet => SetWoke(g, s);
      case Lock(why) => LockWoke(s, why);
      case Submit(why) => SubmitWoke(g, s, why);
      case _ =>
        ConnectIsPlain(g, s, ok);
        ConnectWoke(s, SysStep(g, s, ok));
    }
  }

  lemma SetWoke(g: Config, s: State)
    requires Woke(s) && s.sys.LteSet?
    ensures Woke(Apply(g, WithClient(s, s.ch.c.(lte := true)), RP.LteUp))
  {
    ApplyWoke(g, WithClient(s, s.ch.c.(lte := true)), RP.LteUp);
  }

  lemma CasWoke(s: State)
    requires Woke(s) && s.sys.LteCas? && s.ch.caller.NoCall?
    ensures Woke(WithClient(s.(sys := Lock(LostLte)), s.ch.c.(lte := false)))
  {
  }

  /** What the operations of aitsm_mqtt_connect leave alone. */
  predicate Plain(s: State, s': State) {
    && !s'.sys.Lock? && !s'.sys.Submit?
    && s'.svc == s.svc && s'.rec.lte == s.rec.lte && s.q <= s'.q && s'.link == s.link && s'.call == s.call
    && SameProtocol(s.ch, s'.ch)
  }

  lemma ConnectIsPlain(g: Config, s: State, ok: bool)
    requires !s.sys.SysIdle? && !s.sys.LteCas? && !s.sys.LteSet? && !s.sys.Lock? && !s.sys.Submit?
    ensures Plain(s, SysStep(g, s, ok))
  {
    match s.sys {
      case ConnectLte => case ConnectHelper => case ConnectCas => case ConnectSubmit => case PostError =>
    }
  }

  lemma ConnectWoke(s: State, s': State)
    requires Woke(s) && !s.sys.Lock? && !s.sys.Submit? && Plain(s, s')
    ensures Woke(s')
  {
  }

  lemma LockWoke(s: State, why: Reason)
    requires Woke(s) && s.sys == Lock(why) && s.ch.caller.NoCall? && (s.svc.inFlight ==> s.svc.connected)
    ensures Woke(WithClient(s.(sys := Submit(why)), MC.Invalidate(s.ch.c)))
  {
  }

  lemma SubmitWoke(g: Config, s: State, why: Reason)
    requires Woke(s) && s.sys == Submit(why) && s.ch.caller.NoCall? && (s.svc.inFlight ==> s.svc.connected)
    ensures Woke(AfterSubmit(g, WithClient(s, s.ch.c.(disconnectWork := true)), why))
  {
    var s1 := WithClient(s, s.ch.c.(disconnectWork := true));
    match why {
      case LostLte => LoseWoke(g, s, s1);
      case AfterError =>
        ApplyLte(g, s1, RP.Failure);
        NotInFlight(s, Apply(g, s1, RP.Failure));
      case Stray => NotInFlight(s, s1.(sys := SysIdle));
    }
  }

  lemma CallerWoke(g: Config, s: State, ok: bool)
    requires Outbox(g, s) && Woke(s) && PB.Buffered(s.ch) && s.ch.caller.Call? && s.sys.SysIdle?
    ensures Woke(CallerOp(s, ok))
  {
    PB.CallerFrame(s.ch, ok);
    match s.ch.caller.at {
      case Lte => case Helper => case Cas => case Active => case Release => case Payload => case Topic =>
      case Generation => case Token => case Submit =>
    }
  }

  // the MQTT work queue

  lemma LockedWoke(g: Config, s: State, id: nat, ok: bool)
    requires Outbox(g, s) && Woke(s) && PB.OneOwner(s.ch) && PB.Buffered(s.ch) && s.ch.sender.Lock? && id != 0
    ensures Woke(SenderOp(g, s, id, ok))
  {
    if s.svc.inFlight { ConnectedOrDown(g, s); }
  }

  lemma WrittenWoke(g: Config, s: State, id: nat, ok: bool)
    requires Woke(s) && PB.OneOwner(s.ch) && PK.Identified(s.ch) && s.ch.sender.Written?
    ensures Woke(SenderOp(g, s, id, ok))
  {
  }

  lemma FailingWoke(g: Config, s: State, id: nat, ok: bool)
    requires Woke(s) && s.ch.sender.Failing?
    ensures Woke(SenderOp(g, s, id, ok))
  {
  }

  lemma SenderWoke(g: Config, s: State, id: nat, ok: bool)
    requires Outbox(g, s) && Woke(s) && PB.OneOwner(s.ch) && PB.Buffered(s.ch) && PK.Identified(s.ch)
    requires !s.ch.sender.Rest? && !s.ch.sender.Retry? && (s.ch.sender.Lock? ==> id != 0)
    ensures Woke(SenderOp(g, s, id, ok))
  {
    match s.ch.sender {
      case Lock(_) => LockedWoke(g, s, id, ok);
      case Written(_, _, _, _) => WrittenWoke(g, s, id, ok);
      case Failing(_) => FailingWoke(g, s, id, ok);
      case _ => PassingWoke(g, s, id, ok);
    }
  }

  lemma PassingWoke(g: Config, s: State, id: nat, ok: bool)
    requires Woke(s) && PB.OneOwner(s.ch) && PB.Buffered(s.ch)
    requires s.ch.sender.Stale? || s.ch.sender.Start? || s.ch.sender.Writing? || s.ch.sender.Finish?
    ensures Woke(SenderOp(g, s, id, ok))
  {
    match s.ch.sender {
      case Stale => case Start(_, _, _, _) => case Writing(_, _, _) => case Finish =>
    }
  }

  lemma RetryWoke(g: Config, s: State)
    requires Outbox(g, s) && Woke(s) && PB.OneOwner(s.ch) && PB.Buffered(s.ch) && PB.RetryReads(s.ch)
    requires s.ch.sender.Retry?
    ensures Woke(s.(ch := PP.RetryStep(g.timing, s.ch)))
  {
    if s.svc.inFlight { ConnectedOrDown(g, s); }
    match s.ch.sender.at {
      case Own => case Id => case Job => case Stamp => case LteUp => case HelperUp => case Check =>
    }
  }

  lemma StartWoke(s: State)
    requires Woke(s) && PB.OneOwner(s.ch) && PB.Buffered(s.ch) && s.ch.sender.Rest?
    ensures s.ch.c.publishWork ==> Woke(s.(ch := PP.StartJob(s.ch)))
    ensures Woke(s.(ch := PP.StartRetry(s.ch)))
  {
  }

  lemma OpenedIsQuiet(s: State, ok: bool)
    requires !s.opener.OpenCall?
    ensures Quiet(s, OpenStep(s, ok))
  {
    match s.opener {
      case OpenIdle => case OpenLte => case OpenAbort => case OpenRead => case OpenMark(_) =>
      case OpenFailed(_) => case FailLte(_) => case FailCheck(_) => case FailPost => case CloseRead => case CloseCall =>
    }
  }

  lemma OpenWoke(s: State, ok: bool)
    requires Woke(s) && (s.opener.OpenCall? && ok ==> s.link.Down?)
    ensures Woke(OpenStep(s, ok))
  {
    if s.opener.OpenCall? {
      OpenCallWoke(s, ok);
    } else {
      OpenedIsQuiet(s, ok);
      QuietStaysWoke(s, OpenStep(s, ok));
    }
  }

  lemma OpenCallWoke(s: State, ok: bool)
    requires Woke(s) && s.opener.OpenCall? && (ok ==> s.link.Down?)
    ensures Woke(OpenStep(s, ok))
  {
  }

  // the callbacks

  lemma DownWoke(s: State)
    requires Woke(s) && (s.call.DownLock? || s.call.DownPost?)
    ensures Woke(CallStep(s))
  {
  }

  lemma UpLockWoke(s: State)
    requires Woke(s) && s.call.UpLock? && (s.svc.connected ==> DownPending(s))
    requires (s.ch.caller.Call? ==> s.svc.connected)
    requires s.svc.inFlight ==> s.svc.connected
    ensures Woke(CallStep(s))
  {
  }

  lemma CallWoke(g: Config, s: State)
    requires Outbox(g, s) && Woke(s)
    ensures Woke(CallStep(s))
  {
    if s.call.DownLock? || s.call.DownPost? {
      DownWoke(s);
    } else if s.call.UpLock? {
      if s.svc.connected { ConnectedOrDown(g, s); }
      UpLockWoke(s);
    } else {
      UpWoke(s);
    }
  }

  lemma UpWoke(s: State)
    requires Woke(s) && !s.call.DownLock? && !s.call.DownPost? && !s.call.UpLock?
    ensures Woke(CallStep(s))
  {
    match s.call {
      case CallIdle => case UpSet => case UpLte => case UpMark => case UpCheck(_) => case UpPost => case UpSubmit =>
      case RefusedLte => case RefusedMark => case RefusedCheck(_) => case RefusedPost =>
    }
  }

  lemma ClosedWoke(s: State)
    requires Woke(s) && CallFree(s)
    ensures Woke(DisconnectedStep(s))
  {
  }

  lemma ConnackWoke(s: State, accepted: bool)
    requires Woke(s) && CallFree(s)
    ensures Woke(ConnackStep(s, accepted))
  {
  }

  lemma PubackWoke(g: Config, s: State, id: nat, ok: bool)
    requires Woke(s) && CallFree(s)
    ensures Woke(s.(ch := PP.PubackStep(s.ch, id, ok)))
  {
  }

  lemma PostWoke(g: Config, s: State)
    requires Woke(s) && s.ch.posting.Some?
    ensures Woke(Step(g, s, PostPuback))
  {
  }

  predicate SenderSide(a: Action) {
    a.StartJob? || a.StartRetry? || a.SenderNext? || a.RetryNext?
  }

  lemma SenderSideWoke(g: Config, s: State, a: Action)
    requires Outbox(g, s) && Woke(s) && PS.Sound(g.timing, s.ch) && Enabled(s, a) && SenderSide(a)
    ensures Woke(Step(g, s, a))
  {
    match a {
      case StartJob => StartWoke(s);
      case StartRetry => StartWoke(s);
      case SenderNext(id, ok) => SenderWoke(g, s, id, ok);
      case RetryNext => RetryWoke(g, s);
    }
  }

  lemma BeginWoke(s: State, t: uint64)
    requires Woke(s) && SysFree(s)
    ensures Woke(BeginPublish(s, t))
  {
    assert s.svc.inFlight ==> BeginPublish(s, t).ch == s.ch;
  }

  lemma ProtocolWoke(g: Config, s: State, a: Action)
    requires Outbox(g, s) && Woke(s) && PS.Sound(g.timing, s.ch) && OneHandler(s) && Enabled(s, a) && Protocol(a)
    ensures Woke(Step(g, s, a))
  {
    if SenderSide(a) {
      SenderSideWoke(g, s, a);
    } else {
      match a {
        case CallerNext(ok) => CallerWoke(g, s, ok);
        case StartPublish(t) => BeginWoke(s, t);
        case Puback(id, ok) => PubackWoke(g, s, id, ok);
        case PostPuback => PostWoke(g, s);
        case Arrive(_) => QuietStaysWoke(s, Step(g, s, a));
      }
    }
  }

  lemma OutsideWoke(g: Config, s: State, a: Action)
    requires Outbox(g, s) && Woke(s) && OneHandler(s) && Enabled(s, a) && !Protocol(a)
    ensures Woke(Step(g, s, a))
  {
    match a {
      case HandleEvent => HandleWoke(g, s);
      case SysNext(ok) => SysWoke(g, s, ok);
      case ReconnectFires => FiresWoke(g, s);
      case OpenNext(ok) => OpenWoke(s, ok);
      case Connack(accepted) => ConnackWoke(s, accepted);
      case Disconnected => ClosedWoke(s);
      case CallNext => CallWoke(g, s);
      case _ => QuietWoke(g, s, a);
    }
  }

  lemma FiresWoke(g: Config, s: State)
    requires Woke(s) && SysFree(s)
    ensures Woke(Apply(g, s.(recTimer := None), RP.Timer))
  {
    ApplyLte(g, s.(recTimer := None), RP.Timer);
    ConnectWoke(s, Apply(g, s.(recTimer := None), RP.Timer));
  }

  lemma QuietWoke(g: Config, s: State, a: Action)
    requires Woke(s) && Enabled(s, a)
    requires a.LteChanges? || a.Sample? || a.HelperError? || a.StartOpen? || a.StartClose?
    ensures Woke(Step(g, s, a))
  {
    match a {
      case LteChanges(_) => QuietStaysWoke(s, Step(g, s, a));
      case Sample(_) => QuietStaysWoke(s, Step(g, s, a));
      case HelperError => QuietStaysWoke(s, Step(g, s, a));
      case StartOpen => QuietStaysWoke(s, Step(g, s, a));
      case StartClose => QuietStaysWoke(s, Step(g, s, a));
    }
  }

  lemma {:induction false} AlwaysWoke(g: Config, run: seq<Action>)
    requires ValidConfig(g) && After(g, run).Some?
    ensures Woke(After(g, run).value)
    decreases |run|
  {
    if run != [] {
      var before := run[..|run| - 1];
      AlwaysWoke(g, before);
      AlwaysSound(g, before);
      AlwaysOneHandler(g, before);
      AlwaysOutbox(g, before);
      var a := run[|run| - 1];
      if Protocol(a) { ProtocolWoke(g, After(g, before).value, a); } else { OutsideWoke(g, After(g, before).value, a); }
    }
  }

  // ------------------------------------------------------- what this means

  /** No lost wake-up: a publish in flight is queued or active in the current
      generation, or its completion, a disconnect or an LTE loss is queued or
      being handled. */
  lemma NoLostWakeUp(g: Config, run: seq<Action>)
    requires ValidConfig(g) && After(g, run).Some? && After(g, run).value.svc.inFlight
    ensures var s := After(g, run).value;
            Queued(s.ch, s.svc.pendingToken) || Active(s.ch, s.svc.pendingToken) || Answering(s, s.svc.pendingToken)
              || Ending(s)
  {
    AlwaysWoke(g, run);
  }
}

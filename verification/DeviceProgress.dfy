/** Reconnecting never gets stuck: while LTE is available and the policy is
    connecting, the order to connect is being carried out, or an attempt of the
    current generation is outstanding, or an MQTT event that will move the policy
    is queued or about to be posted, or the connection is being closed. */
module DeviceProgress {
  import opened Common
  import opened Device
  import opened DeviceFrames
  import opened DeviceSound
  import opened DeviceOutbox
  import opened DeviceWake
  import opened DeviceReconnect
  import MC = MqttClient
  import MS = MeasurementService
  import RP = ReconnectPolicy

  // ---------------------------------------------------------- the invariant

  predicate EventQueued(q: seq<Event>) {
    MqttConnected in q || MqttDisconnected in q || MqttError in q
  }

  /** The system work queue is connecting, handling an error or carrying out an LTE loss. */
  predicate SysMoves(sys: Sys) {
    !sys.SysIdle? && !sys.LteSet?
  }

  /** A callback that will post an event or ask for a disconnect. */
  predicate CallMoves(call: Callback) {
    ComingUp(call) || call.RefusedPost? || call.DownLock? || call.DownPost?
  }

  /** The connection is up and its disconnect is requested. */
  predicate Closing(s: State) {
    s.link.Up? && (s.ch.c.disconnectWork || s.opener.CloseRead? || s.opener.CloseCall? || s.closing)
  }

  predicate Moving(s: State) {
    EventQueued(s.q) || SysMoves(s.sys) || CallMoves(s.call) || s.opener.FailPost? || s.ch.c.connectWork || Closing(s)
  }

  /** The connect handler before it has marked its generation. */
  predicate Beginning(s: State) {
    s.opener.OpenLte? || s.opener.OpenRead? || (s.opener.OpenMark? && s.opener.generation == s.ch.c.generation)
  }

  predicate OpenerTries(o: Opener) {
    o.OpenCall? || o.OpenFailed? || o.FailLte? || o.FailCheck?
  }

  predicate CallTries(call: Callback, generation: nat) {
    call.RefusedLte? || call.RefusedMark? || (call.RefusedCheck? && call.mark == generation)
  }

  /** An attempt marked with the current generation. */
  predicate Attempting(s: State) {
    && s.ch.c.connectGeneration == s.ch.c.generation
    && (OpenerTries(s.opener) || s.link.Opening? || CallTries(s.call, s.ch.c.generation))
  }

  predicate Progress(s: State) {
    s.rec.phase == RP.Connecting ==> Moving(s) || Beginning(s) || Attempting(s)
  }

  /** Generations are marked in order, and the marking handler knows its mark. */
  predicate Marked(s: State) {
    && s.ch.c.connectGeneration <= s.ch.c.generation
    && (s.opener.OpenMark? ==> s.ch.c.connectGeneration <= s.opener.generation <= s.ch.c.generation)
    && (OpenerTries(s.opener) ==> s.opener.generation == s.ch.c.connectGeneration)
  }

  /** The policy and the service agree on the connection, up to an error or an LTE loss being handled. */
  predicate Agreed(s: State) {
    && (s.rec.lte <==> s.rec.phase != RP.Offline)
    && (s.svc.connected ==> s.rec.phase == RP.Connected)
    && (s.rec.phase == RP.Connected ==> s.svc.connected || s.sys == Lock(AfterError) || s.sys == Submit(AfterError))
    && (s.sys == Lock(Stray) || s.sys == Submit(Stray) ==> !s.rec.lte)
  }

  predicate OnTrack(s: State) {
    Progress(s) && Marked(s) && Agreed(s)
  }

  // ------------------------------------------------- the system work queue

  /** The policy's answer: either it connects, or it is not connecting any more,
      or nothing changed. */
  lemma ApplyPhase(g: Config, s: State, e: RP.Event)
    ensures var s' := Apply(g, s, e);
            && s' == s.(rec := s'.rec, recTimer := s'.recTimer, sys := s'.sys)
            && (s'.rec.phase == RP.Connecting ==>
                  s'.sys == ConnectLte || (s'.rec == s.rec && e != RP.MqttUp && e != RP.Failure && e != RP.LteDown)
                    || !s'.rec.lte)
            && (s'.sys == ConnectLte || s'.sys == SysIdle)
            && ((s.rec.lte <==> s.rec.phase != RP.Offline) ==> (s'.rec.lte <==> s'.rec.phase != RP.Offline))
            && (e == RP.MqttUp && s.rec.lte ==> s'.rec.phase == RP.Connected)
            && (e == RP.Failure && s.rec.lte ==> s'.rec.phase == RP.Waiting)
            && (e == RP.LteDown ==> s'.rec.phase == RP.Offline)
            && (s.rec.lte && (e == RP.LteUp || e == RP.MqttUp || e == RP.Failure) ==> s'.rec.lte)
            && ((e == RP.LteUp || e == RP.Timer) && s'.rec.phase == RP.Connected ==> s'.rec == s.rec)
            && ((e == RP.LteUp || e == RP.Timer) && s.rec.phase == RP.Connected && (s.rec.lte) ==> s'.rec == s.rec)
  {
  }

  /** Steps that leave the policy, the attempt and whatever moves it in place. */
  predicate Undisturbed(s: State, s': State) {
    && s'.rec == s.rec && s'.svc.connected == s.svc.connected && s'.opener == s.opener && s'.link == s.link
    && s'.call == s.call
    && (s.closing ==> s'.closing)
    && s'.ch.c.generation == s.ch.c.generation && s'.ch.c.connectGeneration == s.ch.c.connectGeneration
    && (s.ch.c.connectWork ==> s'.ch.c.connectWork) && (s.ch.c.disconnectWork ==> s'.ch.c.disconnectWork)
    && (EventQueued(s.q) ==> EventQueued(s'.q))
    && (s'.sys == s.sys || (!SysMoves(s.sys) && !SysMoves(s'.sys)))
  }

  lemma UndisturbedStays(s: State, s': State)
    requires OnTrack(s) && Undisturbed(s, s')
    ensures OnTrack(s')
  {
  }

  /** Steps after which the policy is not connecting, or the system work queue moves. */
  lemma SysTakesOver(s: State, s': State)
    requires Marked(s) && Agreed(s') && (s'.rec.phase == RP.Connecting ==> SysMoves(s'.sys))
    requires s'.opener == s.opener && s'.ch.c.connectGeneration == s.ch.c.connectGeneration
    requires s'.ch.c.generation >= s.ch.c.generation
    ensures OnTrack(s')
  {
  }

  lemma PopQueued(q: seq<Event>)
    requires q != [] && EventQueued(q) && !q[0].MqttConnected? && !q[0].MqttDisconnected? && !q[0].MqttError?
    ensures EventQueued(q[1..])
  {
    if MqttConnected in q { StillQueued(q, MqttConnected); }
    if MqttDisconnected in q { StillQueued(q, MqttDisconnected); }
    if MqttError in q { StillQueued(q, MqttError); }
  }

  lemma HandleOnTrack(g: Config, s: State)
    requires Outbox(g, s) && OnTrack(s) && SysFree(s) && s.q != []
    ensures OnTrack(Dispatch(g, s.(q := s.q[1..]), s.q[0]))
  {
    var s1 := s.(q := s.q[1..]);
    var s' := Dispatch(g, s1, s.q[0]);
    match s.q[0] {
      case LteLost => PopOnTrack(s, s');
      case LteConnected => PopOnTrack(s, s');
      case Completed(_, _) => PopOnTrack(s, s');
      case MqttConnected =>
        if s.rec.lte {
          ApplyPhase(g, s1.(svc := MS.OnConnected(s1.svc), h := s1.h.(open := true, acks := [])), RP.MqttUp);
        }
        SysTakesOver(s, s');
      case MqttDisconnected =>
        ApplyPhase(g, s1.(svc := MS.OnDisconnected(s1.svc), h := s1.h.(open := false)), RP.Failure);
        SysTakesOver(s, s');
      case MqttError =>
        ApplyPhase(g, s1.(svc := MS.OnDisconnected(s1.svc)), RP.Failure);
        SysTakesOver(s, s');
    }
  }

  lemma PopOnTrack(s: State, s': State)
    requires OnTrack(s) && s.sys.SysIdle? && s.q != [] && s'.q == s.q[1..] && !s.q[0].MqttConnected?
    requires !s.q[0].MqttDisconnected? && !s.q[0].MqttError?
    requires s'.rec == s.rec && s'.svc.connected == s.svc.connected && s'.opener == s.opener && s'.link == s.link
    requires s'.call == s.call
    requires s'.closing == s.closing && s'.ch == s.ch && !s'.sys.Lock? && !s'.sys.Submit?
    ensures OnTrack(s')
  {
    if EventQueued(s.q) { PopQueued(s.q); }
  }

  lemma SysOnTrack(g: Config, s: State, ok: bool)
    requires Outbox(g, s) && Told(s) && OnTrack(s) && !s.sys.SysIdle?
    ensures OnTrack(SysStep(g, s, ok))
  {
    match s.sys {
      case LteCas => if !s.ch.c.lte { LoseOnTrack(g, s, s); } else { CasOnTrack(s); }
      case LteSet => SetOnTrack(g, s);
      case Lock(why) => LockOnTrack(s, why);
      case Submit(why) => SubmitOnTrack(g, s, why);
      case _ =>
        ConnectIsOrdered(g, s, ok);
        OrderedOnTrack(s, SysStep(g, s, ok));
    }
  }

  lemma ConnectIsOrdered(g: Config, s: State, ok: bool)
    requires SysMoves(s.sys) && !s.sys.LteCas? && !s.sys.Lock? && !s.sys.Submit?
    ensures Ordering(s, SysStep(g, s, ok))
  {
    match s.sys {
      case ConnectLte => case ConnectHelper => case ConnectCas => case ConnectSubmit =>
      case PostError => assert MqttError in SysStep(g, s, ok).q;
    }
  }

  lemma CasOnTrack(s: State)
    requires OnTrack(s) && s.sys.LteCas?
    ensures OnTrack(WithClient(s.(sys := Lock(LostLte)), s.ch.c.(lte := false)))
  {
  }

  lemma LockOnTrack(s: State, why: Reason)
    requires OnTrack(s) && s.sys == Lock(why)
    ensures OnTrack(WithClient(s.(sys := Submit(why)), MC.Invalidate(s.ch.c)))
  {
  }

  predicate Ordering(s: State, s': State) {
    && (s'.ch.c.connectWork || EventQueued(s'.q) || SysMoves(s'.sys)) && !s'.sys.Lock? && !s'.sys.Submit?
    && s'.rec == s.rec && s'.svc == s.svc && s'.opener == s.opener
    && s'.ch.c.connectGeneration == s.ch.c.connectGeneration && s'.ch.c.generation == s.ch.c.generation
  }

  /** The order to connect has been carried out: there is a work item or an error event. */
  lemma OrderedOnTrack(s: State, s': State)
    requires OnTrack(s) && !s.sys.Lock? && !s.sys.Submit? && Ordering(s, s')
    ensures OnTrack(s')
  {
  }

  lemma LoseOnTrack(g: Config, s: State, s1: State)
    requires OnTrack(s) && s1.opener == s.opener && s1.rec == s.rec
    requires s1.ch.c.connectGeneration == s.ch.c.connectGeneration && s1.ch.c.generation == s.ch.c.generation
    ensures OnTrack(LoseLte(g, s1))
  {
    ApplyPhase(g, s1.(svc := MS.OnDisconnected(s1.svc)), RP.LteDown);
    SysTakesOver(s, LoseLte(g, s1));
  }

  lemma SetOnTrack(g: Config, s: State)
    requires OnTrack(s) && s.sys.LteSet? && (s.svc.connected ==> s.rec.lte)
    ensures OnTrack(Apply(g, WithClient(s, s.ch.c.(lte := true)), RP.LteUp))
  {
    var s1 := WithClient(s, s.ch.c.(lte := true));
    ApplyPhase(g, s1, RP.LteUp);
    if Apply(g, s1, RP.LteUp).rec == s.rec { UndisturbedStays(s, Apply(g, s1, RP.LteUp)); }
    else { SysTakesOver(s, Apply(g, s1, RP.LteUp)); }
  }

  lemma SubmitOnTrack(g: Config, s: State, why: Reason)
    requires OnTrack(s) && s.sys == Submit(why) && Told(s)
    ensures OnTrack(AfterSubmit(g, WithClient(s, s.ch.c.(disconnectWork := true)), why))
  {
    var s1 := WithClient(s, s.ch.c.(disconnectWork := true));
    match why {
      case LostLte => LoseOnTrack(g, s, s1);
      case AfterError =>
        ApplyPhase(g, s1, RP.Failure);
        SysTakesOver(s, Apply(g, s1, RP.Failure));
      case Stray => SysTakesOver(s, s1.(sys := SysIdle));
    }
  }

  // ------------------------------------- the MQTT work queue and callbacks

  lemma BeginOnTrack(s: State, ok: bool)
    requires OnTrack(s) && Tracked(s)
    requires s.opener.OpenLte? || s.opener.OpenAbort? || s.opener.OpenRead? || s.opener.OpenMark?
    ensures OnTrack(OpenStep(s, ok))
  {
  }

  lemma TryOnTrack(s: State, ok: bool)
    requires OnTrack(s) && Tracked(s) && OpenerTries(s.opener) && (s.opener.OpenCall? && ok ==> s.link.Down?)
    ensures OnTrack(OpenStep(s, ok))
  {
  }

  lemma EndOnTrack(s: State, ok: bool)
    requires OnTrack(s) && Tracked(s) && (s.opener.FailPost? || s.opener.CloseRead? || s.opener.CloseCall?)
    ensures OnTrack(OpenStep(s, ok))
  {
    match s.opener {
      case CloseRead => case CloseCall =>
      case FailPost => assert MqttError in OpenStep(s, ok).q;
    }
  }

  lemma OpenOnTrack(s: State, ok: bool)
    requires OnTrack(s) && Tracked(s) && !s.opener.OpenIdle? && (s.opener.OpenCall? && ok ==> s.link.Down?)
    ensures OnTrack(OpenStep(s, ok))
  {
    if OpenerTries(s.opener) { TryOnTrack(s, ok); }
    else if s.opener.FailPost? || s.opener.CloseRead? || s.opener.CloseCall? { EndOnTrack(s, ok); }
    else { BeginOnTrack(s, ok); }
  }

  lemma UpOnTrack(s: State)
    requires OnTrack(s) && ComingUp(s.call) && s.link.Up?
    ensures OnTrack(CallStep(s))
  {
    match s.call {
      case UpSet => case UpLte => case UpMark => case UpCheck(_) => case UpLock => case UpSubmit =>
      case UpPost => assert MqttConnected in CallStep(s).q;
    }
  }

  lemma RefusedOnTrack(s: State)
    requires OnTrack(s) && Tracked(s)
    requires s.call.RefusedLte? || s.call.RefusedMark? || s.call.RefusedCheck? || s.call.RefusedPost?
    ensures OnTrack(CallStep(s))
  {
    match s.call {
      case RefusedLte => case RefusedMark => case RefusedCheck(_) =>
      case RefusedPost => assert MqttError in CallStep(s).q;
    }
  }

  lemma CallOnTrack(g: Config, s: State)
    requires Outbox(g, s) && OnTrack(s) && Tracked(s)
    ensures OnTrack(CallStep(s))
  {
    if ComingUp(s.call) {
      UpOnTrack(s);
    } else if s.call.DownLock? {
      DownLockOnTrack(s);
    } else if s.call.DownPost? {
      DownPostOnTrack(s);
    } else if !s.call.CallIdle? {
      RefusedOnTrack(s);
    }
  }

  lemma DownLockOnTrack(s: State)
    requires OnTrack(s) && s.call.DownLock?
    ensures OnTrack(CallStep(s))
  {
  }

  lemma DownPostOnTrack(s: State)
    requires OnTrack(s) && s.call.DownPost?
    ensures OnTrack(CallStep(s))
  {
    assert MqttDisconnected in CallStep(s).q;
  }

  lemma ConnackOnTrack(s: State, accepted: bool)
    requires OnTrack(s) && CallFree(s) && s.link.Opening?
    ensures OnTrack(ConnackStep(s, accepted))
  {
  }

  lemma ClosedOnTrack(s: State)
    requires OnTrack(s) && CallFree(s)
    ensures OnTrack(DisconnectedStep(s))
  {
  }

  lemma StartOpenOnTrack(s: State)
    requires OnTrack(s) && s.opener.OpenIdle?
    ensures OnTrack(WithClient(s.(opener := OpenLte), s.ch.c.(connectWork := false)))
  {
  }

  lemma StartCloseOnTrack(s: State)
    requires OnTrack(s) && s.opener.OpenIdle?
    ensures OnTrack(WithClient(s.(opener := CloseRead), s.ch.c.(disconnectWork := false)))
  {
  }

  lemma FiresOnTrack(g: Config, s: State)
    requires OnTrack(s) && SysFree(s) && (s.recTimer.Some? <==> s.rec.phase == RP.Waiting) && s.recTimer.Some?
    ensures OnTrack(Apply(g, s.(recTimer := None), RP.Timer))
  {
    SysTakesOver(s, Apply(g, s.(recTimer := None), RP.Timer));
  }

  lemma ProtocolIsUndisturbed(g: Config, s: State, a: Action)
    requires Enabled(s, a) && Protocol(a)
    ensures Undisturbed(s, Step(g, s, a))
  {
    if a.CallerNext? { CallerIsUndisturbed(s, a.ok); }
    else if a.SenderNext? { SenderIsUndisturbed(g, s, a.id, a.ok); }
    else { OthersAreUndisturbed(g, s, a); }
  }

  lemma OthersAreUndisturbed(g: Config, s: State, a: Action)
    requires Enabled(s, a) && Protocol(a) && !a.CallerNext? && !a.SenderNext?
    ensures Undisturbed(s, Step(g, s, a))
  {
    match a {
      case Arrive(_) => case StartPublish(_) => case StartJob => case StartRetry => case RetryNext =>
      case Puback(_, _) => case PostPuback =>
    }
  }

  lemma CallerIsUndisturbed(s: State, ok: bool)
    requires s.ch.caller.Call?
    ensures Undisturbed(s, CallerOp(s, ok))
  {
    match s.ch.caller.at {
      case Lte => case Helper => case Cas => case Active => case Release => case Payload => case Topic =>
      case Generation => case Token => case Submit =>
    }
  }

  lemma SenderIsUndisturbed(g: Config, s: State, id: nat, ok: bool)
    requires !s.ch.sender.Rest? && !s.ch.sender.Retry?
    ensures Undisturbed(s, SenderOp(g, s, id, ok))
  {
    match s.ch.sender {
      case Lock(_) => case Stale => case Start(_, _, _, _) => case Writing(_, _, _) => case Written(_, _, _, _) =>
      case Failing(_) => case Finish =>
    }
  }

  lemma OutsideOnTrack(g: Config, s: State, a: Action)
    requires Outbox(g, s) && OnTrack(s) && Tracked(s) && Told(s) && Enabled(s, a) && !Protocol(a)
    requires s.recTimer.Some? <==> s.rec.phase == RP.Waiting
    ensures OnTrack(Step(g, s, a))
  {
    match a {
      case HandleEvent => HandleOnTrack(g, s);
      case SysNext(ok) => SysOnTrack(g, s, ok);
      case ReconnectFires => FiresOnTrack(g, s);
      case OpenNext(ok) => OpenOnTrack(s, ok);
      case Connack(accepted) => ConnackOnTrack(s, accepted);
      case Disconnected => ClosedOnTrack(s);
      case CallNext => CallOnTrack(g, s);
      case StartOpen => StartOpenOnTrack(s);
      case StartClose => StartCloseOnTrack(s);
      case LteChanges(_) => UndisturbedStays(s, Step(g, s, a));
      case Sample(_) => UndisturbedStays(s, Step(g, s, a));
      case HelperError => UndisturbedStays(s, Step(g, s, a));
    }
  }

  lemma {:induction false} AlwaysOnTrack(g: Config, run: seq<Action>)
    requires ValidConfig(g) && After(g, run).Some?
    ensures OnTrack(After(g, run).value)
    decreases |run|
  {
    if run != [] {
      var before, a := run[..|run| - 1], run[|run| - 1];
      AlwaysOnTrack(g, before);
      AlwaysOutbox(g, before);
      AlwaysWoke(g, before);
      TimerIffWaiting(g, before);
      if Protocol(a) {
        ProtocolIsUndisturbed(g, After(g, before).value, a);
        UndisturbedStays(After(g, before).value, Step(g, After(g, before).value, a));
      } else {
        OutsideOnTrack(g, After(g, before).value, a);
      }
    }
  }

  // ------------------------------------------------------- what this means

  /** Reconnecting never gets stuck. */
  lemma NeverStuck(g: Config, run: seq<Action>)
    requires ValidConfig(g) && After(g, run).Some?
    ensures var s := After(g, run).value;
            s.rec.lte && s.rec.phase == RP.Connecting ==> Moving(s) || Beginning(s) || Attempting(s)
    ensures var s := After(g, run).value;
            s.rec.phase == RP.Waiting ==> s.recTimer.Some?
  {
    AlwaysOnTrack(g, run);
    TimerIffWaiting(g, run);
  }

  /** A policy that believes in the connection has it, or an end of it is being
      handled or on its way. */
  lemma ConnectedIsReal(g: Config, run: seq<Action>)
    requires ValidConfig(g) && After(g, run).Some? && After(g, run).value.rec.phase == RP.Connected
    ensures var s := After(g, run).value;
            s.ch.c.connected || DownPending(s) || s.sys == Lock(AfterError) || s.sys == Submit(AfterError)
  {
    AlwaysOnTrack(g, run);
    AlwaysOutbox(g, run);
    AlwaysWoke(g, run);
    if After(g, run).value.svc.connected { ConnectedOrDown(g, After(g, run).value); }
  }
}

/** The interleaved machine and the C functions agree: a handler whose steps run
    without interference has the effect that the contracts of the classes state. */
module Sequential {
  import opened Common
  import opened Device
  import AC = AppController
  import MC = MqttClient
  import MS = MeasurementService
  import RP = ReconnectPolicy
  import PP = PublishProtocol
  import S = Sparkplug

  // ---------------------------------------------------------- the controller

  type App = AC.App<S.MessageType, MS.Body>

  function AppOf(s: State): App {
    AC.App(s.ch.c, s.svc, s.rec, s.recTimer, s.q)
  }

  /** Up to n operations of the controller with nothing in between. */
  function SysRun(g: Config, s: State, ok: bool, n: nat): State
    decreases n
  {
    if n == 0 || s.sys.SysIdle? then s else SysRun(g, SysStep(g, s, ok), ok, n - 1)
  }

  /** The end of aitsm_mqtt_connect, which has found LTE and no connection. */
  lemma OrderAlone(g: Config, s: State, ok: bool, n: nat)
    requires s.sys.ConnectCas? && |s.q| < AC.QueueLength && n >= 3
    ensures SysRun(g, s, ok, n).sys.SysIdle?
    ensures AppOf(SysRun(g, s, ok, n)) ==
            if !s.ch.c.connectPending && ok then AppOf(s).(c := s.ch.c.(connectPending := true, connectWork := true))
            else AppOf(s).(q := AC.Put(s.q, MqttError))
  {
    var s1 := SysStep(g, s, ok);
    assert SysRun(g, s, ok, n) == SysRun(g, s1, ok, n - 1);
    if s.ch.c.connectPending {
      FailAlone(g, s1, ok, n - 1);
    } else {
      var s2 := SysStep(g, s1, ok);
      assert SysRun(g, s1, ok, n - 1) == SysRun(g, s2, ok, n - 2);
      if ok { assert SysRun(g, s2, ok, n - 2) == s2; } else { FailAlone(g, s2, ok, n - 2); }
    }
  }

  lemma FailAlone(g: Config, s: State, ok: bool, n: nat)
    requires s.sys.PostError? && n >= 1
    ensures SysRun(g, s, ok, n) == Post(s.(sys := SysIdle), MqttError)
  {
    assert SysRun(g, s, ok, n) == SysRun(g, SysStep(g, s, ok), ok, n - 1);
  }

  /** The operations of aitsm_mqtt_connect. */
  lemma ConnectAlone(g: Config, s: State, ok: bool, n: nat)
    requires s.sys.ConnectLte? && |s.q| < AC.QueueLength && n >= 5
    ensures SysRun(g, s, ok, n).sys.SysIdle?
    ensures AppOf(SysRun(g, s, ok, n)) ==
            if AC.CanConnect(s.ch.c) && ok then AppOf(s).(c := s.ch.c.(connectPending := true, connectWork := true))
            else AppOf(s).(q := AC.Put(s.q, MqttError))
  {
    var s1 := SysStep(g, s, ok);
    assert SysRun(g, s, ok, n) == SysRun(g, s1, ok, n - 1);
    var s2 := SysStep(g, s1, ok);
    assert SysRun(g, s1, ok, n - 1) == SysRun(g, s2, ok, n - 2);
    if s2.sys.ConnectCas? {
      OrderAlone(g, s2, ok, n - 2);
    } else if s1.sys.PostError? {
      FailAlone(g, s1, ok, n - 1);
    } else {
      FailAlone(g, s2, ok, n - 2);
    }
  }

  lemma ApplyAlone(g: Config, s: State, e: RP.Event, ok: bool, n: nat)
    requires |s.q| < AC.QueueLength && n >= 5
    ensures SysRun(g, Apply(g, s, e), ok, n).sys.SysIdle?
    ensures AppOf(SysRun(g, Apply(g, s, e), ok, n)) == AC.Applied(g.delays, AppOf(s), e, ok)
  {
    var s' := Apply(g, s, e);
    if s'.sys.ConnectLte? { ConnectAlone(g, s', ok, n); }
  }

  /** One event, handled without interference. */
  lemma EventAlone(g: Config, s: State, e: Event, ok: bool)
    requires SysFree(s) && |s.q| < AC.QueueLength
    ensures SysRun(g, Dispatch(g, s, e), ok, 8).sys.SysIdle?
    ensures AppOf(SysRun(g, Dispatch(g, s, e), ok, 8)) == AC.Handled(g.delays, g.settings, AppOf(s), e, ok)
  {
    var s' := Dispatch(g, s, e);
    match e {
      case LteLost => LostAlone(g, s, ok);
      case LteConnected =>
        ApplyAlone(g, WithClient(s', s'.ch.c.(lte := true)), RP.LteUp, ok, 7);
        assert SysRun(g, s', ok, 8) == SysRun(g, Apply(g, WithClient(s', s'.ch.c.(lte := true)), RP.LteUp), ok, 7);
      case MqttConnected => ConnectedAlone(g, s, ok);
      case MqttDisconnected =>
        ApplyAlone(g, s.(svc := MS.OnDisconnected(s.svc), h := s.h.(open := false)), RP.Failure, ok, 8);
      case MqttError => ErrorAlone(g, s, ok);
      case Completed(_, _) =>
    }
  }

  lemma LostAlone(g: Config, s: State, ok: bool)
    requires SysFree(s) && |s.q| < AC.QueueLength
    ensures SysRun(g, s.(sys := LteCas), ok, 8).sys.SysIdle?
    ensures AppOf(SysRun(g, s.(sys := LteCas), ok, 8)) == AC.Handled(g.delays, g.settings, AppOf(s), LteLost, ok)
  {
    var s0 := s.(sys := LteCas);
    var s1 := SysStep(g, s0, ok);
    assert SysRun(g, s0, ok, 8) == if s1.sys.SysIdle? then s1 else SysRun(g, s1, ok, 7);
    if s.ch.c.lte { LockAlone(g, s1, LostLte, ok, 7); }
  }

  /** aitsm_mqtt_disconnect and what its caller does next. */
  lemma LockAlone(g: Config, s: State, why: Reason, ok: bool, n: nat)
    requires s.sys == Lock(why) && n >= 6 && (why == AfterError ==> s.rec.lte)
    ensures SysRun(g, s, ok, n) == AfterSubmit(g, WithClient(s.(sys := Submit(why)), AC.Unplugged(s.ch.c)), why)
    ensures SysRun(g, s, ok, n).sys.SysIdle?
  {
    var s1 := SysStep(g, s, ok);
    assert SysRun(g, s, ok, n) == SysRun(g, s1, ok, n - 1);
    var s2 := SysStep(g, s1, ok);
    assert SysRun(g, s1, ok, n - 1) == SysRun(g, s2, ok, n - 2);
    assert s2.sys.SysIdle?;
  }

  lemma ConnectedAlone(g: Config, s: State, ok: bool)
    requires SysFree(s) && |s.q| < AC.QueueLength
    ensures SysRun(g, Dispatch(g, s, MqttConnected), ok, 8).sys.SysIdle?
    ensures AppOf(SysRun(g, Dispatch(g, s, MqttConnected), ok, 8))
            == AC.Handled(g.delays, g.settings, AppOf(s), MqttConnected, ok)
  {
    if !s.rec.lte { LockAlone(g, Dispatch(g, s, MqttConnected), Stray, ok, 8); }
  }

  lemma ErrorAlone(g: Config, s: State, ok: bool)
    requires SysFree(s) && |s.q| < AC.QueueLength
    ensures SysRun(g, Dispatch(g, s, MqttError), ok, 8).sys.SysIdle?
    ensures AppOf(SysRun(g, Dispatch(g, s, MqttError), ok, 8))
            == AC.Handled(g.delays, g.settings, AppOf(s), MqttError, ok)
  {
    if s.rec.lte { LockAlone(g, Dispatch(g, s, MqttError), AfterError, ok, 8); }
  }

  // -------------------------------------------------------------- the client

  /** aitsm_mqtt_publish_payload, when its arguments are acceptable. */
  function Taken<T, P>(c: MC.Client<T, P>, m: PP.Message<T, P>, ok: bool): MC.Client<T, P> {
    if MC.MayTake(c) then MC.Taken(c, m.topic, m.payload, ok) else c
  }

  /** The call of aitsm_mqtt_publish_payload has the effect MqttClient.PublishPayload states. */
  lemma PublishAlone<T, P>(ch: PP.Channel<T, P>, m: PP.Message<T, P>, ok: bool)
    requires ch.caller.NoCall?
    ensures var ch' := PP.Calls(ch.(caller := PP.Call(PP.Lte, m)), ok, 9);
            ch'.c == Taken(ch.c, m, ok) && ch'.caller.NoCall? && ch'.sender == ch.sender && ch'.posting == ch.posting
  {
    var start := ch.(caller := PP.Call(PP.Lte, m));
    var c1 := PP.CallerStep(start, ok);
    assert PP.Calls(start, ok, 9) == PP.Calls(c1, ok, 8);
    if ch.c.lte {
      var c2 := PP.CallerStep(c1, ok);
      assert PP.Calls(c1, ok, 8) == PP.Calls(c2, ok, 7);
      if ch.c.connected {
        var c3 := PP.CallerStep(c2, ok);
        assert PP.Calls(c2, ok, 7) == PP.Calls(c3, ok, 6);
        if !ch.c.publishPending { OwnedAlone(ch, c3, m, ok); }
      }
    }
  }

  lemma OwnedAlone<T, P>(ch: PP.Channel<T, P>, c3: PP.Channel<T, P>, m: PP.Message<T, P>, ok: bool)
    requires c3 == ch.(c := ch.c.(publishPending := true), caller := PP.Call(PP.Active, m))
    requires !ch.c.publishPending && ch.c.lte && ch.c.connected
    ensures var ch' := PP.Calls(c3, ok, 6);
            ch'.c == Taken(ch.c, m, ok) && ch'.caller.NoCall? && ch'.sender == ch.sender && ch'.posting == ch.posting
  {
    var c4 := PP.CallerStep(c3, ok);
    assert PP.Calls(c3, ok, 6) == PP.Calls(c4, ok, 5);
    if ch.c.activeId == 0 {
      CopyAlone(c4, m, ok);
    } else {
      assert PP.Calls(c4, ok, 5) == PP.Calls(PP.CallerStep(c4, ok), ok, 4);
    }
  }

  /** From the copying on. */
  lemma CopyAlone<T, P>(c4: PP.Channel<T, P>, m: PP.Message<T, P>, ok: bool)
    requires c4.caller == PP.Call(PP.Payload, m) && c4.c.publishPending
    ensures var ch' := PP.Calls(c4, ok, 5);
            && ch'.c == MC.Taken(c4.c, m.topic, m.payload, ok) && ch'.caller.NoCall?
            && ch'.sender == c4.sender && ch'.posting == c4.posting
  {
    var c5 := PP.CallerStep(c4, ok);
    assert PP.Calls(c4, ok, 5) == PP.Calls(c5, ok, 4);
    var c6 := PP.CallerStep(c5, ok);
    assert PP.Calls(c5, ok, 4) == PP.Calls(c6, ok, 3);
    StampAlone(c6, m, ok);
  }

  /** From the stamping on. */
  lemma StampAlone<T, P>(c6: PP.Channel<T, P>, m: PP.Message<T, P>, ok: bool)
    requires c6.caller == PP.Call(PP.Generation, m) && c6.c.publishPending
    ensures var c, ch' := MC.Stamp(c6.c, c6.c.generation), PP.Calls(c6, ok, 3);
            && ch'.c == c.(publishPending := ok, publishWork := c.publishWork || ok) && ch'.caller.NoCall?
            && ch'.sender == c6.sender && ch'.posting == c6.posting
  {
    var c7 := PP.CallerStep(c6, ok);
    assert PP.Calls(c6, ok, 3) == PP.Calls(c7, ok, 2);
    var c8 := PP.CallerStep(c7, ok);
    assert PP.Calls(c7, ok, 2) == PP.Calls(c8, ok, 1);
  }

  /** The copied payload was written in one packet, and the write accounted for. */
  ghost predicate Wrote<T, P>(ch: PP.Channel<T, P>, c: MC.Client<T, P>, id: nat, job: nat, token: nat, dup: bool,
                              ok: bool, ch': PP.Channel<T, P>) {
    && ch'.c == MC.Sent(c, id, job, ok).(publishPending := false)
    && ch'.h.wire == ch.h.wire + [PP.Packet(ch.session, id, token, PP.Message(c.topic, c.payload), dup)]
  }

  /** The active publish was written again, to wait longer. */
  ghost predicate Resent<T, P>(t: MC.Timing, ch: PP.Channel<T, P>, c: MC.Client<T, P>, ok: bool,
                               ch': PP.Channel<T, P>) {
    Wrote(ch, c.(delay := MC.Lengthened(t, c.delay)), c.activeId, c.activeGeneration, c.activeToken, true, ok, ch')
  }

  /** The publish job has the effect MqttClient.PublishWork states. */
  lemma JobAlone<T, P>(t: MC.Timing, ch: PP.Channel<T, P>, id: nat, ok: bool)
    requires ch.sender.Rest? && ch.c.publishWork && id != 0
    ensures var c, ch' := ch.c.(publishWork := false), PP.Sends(t, PP.StartJob(ch), id, ok, 6);
            && ch'.sender.Rest?
            && if MC.MayStart(c, c.publishGeneration)
               then
                 var started := MC.Start(t, c, c.publishGeneration, id);
                 Wrote(ch, started, id, c.publishGeneration, c.publishToken, false, ok, ch')
               else ch'.c == c.(publishPending := false) && ch'.h.wire == ch.h.wire
  {
    var s1 := PP.StartJob(ch);
    var s2 := PP.SendStep(t, s1, id, ok);
    assert PP.Sends(t, s1, id, ok, 6) == PP.Sends(t, s2, id, ok, 5);
    if s2.sender.Start? { WriteAlone(t, s2, id, ok, 5); }
  }

  /** send_copied_payload and publish_sent. */
  lemma WriteAlone<T, P>(t: MC.Timing, ch: PP.Channel<T, P>, id: nat, ok: bool, n: nat)
    requires ch.sender.Start? && n >= 5
    ensures var s, ch' := ch.sender, PP.Sends(t, ch, id, ok, n);
            && ch'.sender.Rest?
            && Wrote(ch, ch.c, s.id, s.job, s.token, s.dup, ok, ch')
  {
    var s3 := PP.SendStep(t, ch, id, ok);
    assert PP.Sends(t, ch, id, ok, n) == PP.Sends(t, s3, id, ok, n - 1);
    var s4 := PP.SendStep(t, s3, id, ok);
    assert PP.Sends(t, s3, id, ok, n - 1) == PP.Sends(t, s4, id, ok, n - 2);
    var s5 := PP.SendStep(t, s4, id, ok);
    assert PP.Sends(t, s4, id, ok, n - 2) == PP.Sends(t, s5, id, ok, n - 3);
    var s6 := PP.SendStep(t, s5, id, ok);
    assert PP.Sends(t, s5, id, ok, n - 3) == PP.Sends(t, s6, id, ok, n - 4);
    if ch.sender.Start? && s5.sender.Failing? {
      assert PP.Sends(t, s6, id, ok, n - 4) == PP.Sends(t, PP.SendStep(t, s6, id, ok), id, ok, n - 5);
    }
  }

  /** The retransmission timeout has the effect MqttClient.PubackTimeout states. */
  lemma TimeoutAlone<T, P>(t: MC.Timing, ch: PP.Channel<T, P>, id: nat, ok: bool)
    requires ch.sender.Rest? && ch.c.timer.Some?
    ensures var c, ch' := ch.c.(timer := None), PP.Sends(t, PP.StartRetry(ch), id, ok, 12);
            && ch'.sender.Rest?
            && if !c.publishPending && c.activeId != 0 && c.lte && c.connected && c.activeGeneration == c.generation
               then Resent(t, ch, c.(publishPending := true), ok, ch')
               else ch'.c == c && ch'.h.wire == ch.h.wire
  {
    var s0 := PP.StartRetry(ch);
    var s1 := PP.RetryStep(t, s0);
    assert PP.Sends(t, s0, id, ok, 12) == PP.Sends(t, s1, id, ok, 11);
    if !ch.c.publishPending { TestAlone(t, s1, id, ok); }
  }

  /** The test of the timeout handler, once it owns the payload. */
  lemma TestAlone<T, P>(t: MC.Timing, s1: PP.Channel<T, P>, id: nat, ok: bool)
    requires s1.sender.Retry? && s1.sender.at.Id? && s1.c.publishPending
    ensures var c, ch' := s1.c, PP.Sends(t, s1, id, ok, 11);
            && ch'.sender.Rest?
            && if c.activeId != 0 && c.lte && c.connected && c.activeGeneration == c.generation
               then Resent(t, s1, c, ok, ch')
               else ch'.c == c.(publishPending := false) && ch'.h.wire == s1.h.wire
  {
    ReadsAlone(t, s1, id, ok);
    CheckAlone(t, Read(s1), id, ok);
  }

  /** The active publish has been read. */
  function Read<T, P>(ch: PP.Channel<T, P>): PP.Channel<T, P> {
    ch.(sender := PP.Retry(PP.LteUp, ch.c.activeId, ch.c.activeGeneration, ch.c.activeToken))
  }

  lemma ReadsAlone<T, P>(t: MC.Timing, s1: PP.Channel<T, P>, id: nat, ok: bool)
    requires s1.sender.Retry? && s1.sender.at.Id?
    ensures PP.Sends(t, s1, id, ok, 11) == PP.Sends(t, Read(s1), id, ok, 8)
  {
    var s2 := PP.RetryStep(t, s1);
    assert PP.Sends(t, s1, id, ok, 11) == PP.Sends(t, s2, id, ok, 10);
    var s3 := PP.RetryStep(t, s2);
    assert PP.Sends(t, s2, id, ok, 10) == PP.Sends(t, s3, id, ok, 9);
    assert PP.RetryStep(t, s3) == Read(s1);
    assert PP.Sends(t, s3, id, ok, 9) == PP.Sends(t, Read(s1), id, ok, 8);
  }

  /** The checks after the active publish was read. */
  lemma CheckAlone<T, P>(t: MC.Timing, s4: PP.Channel<T, P>, id: nat, ok: bool)
    requires s4.sender == PP.Retry(PP.LteUp, s4.c.activeId, s4.c.activeGeneration, s4.c.activeToken)
    ensures var c, ch' := s4.c, PP.Sends(t, s4, id, ok, 8);
            && ch'.sender.Rest?
            && if c.activeId != 0 && c.lte && c.connected && c.activeGeneration == c.generation
               then Resent(t, s4, c, ok, ch')
               else ch'.c == c.(publishPending := false) && ch'.h.wire == s4.h.wire
  {
    var s5 := PP.RetryStep(t, s4);
    assert PP.Sends(t, s4, id, ok, 8) == PP.Sends(t, s5, id, ok, 7);
    if s5.sender.Stale? {
      StaleAlone(t, s5, id, ok, 7);
    } else {
      var s6 := PP.RetryStep(t, s5);
      assert PP.Sends(t, s5, id, ok, 7) == PP.Sends(t, s6, id, ok, 6);
      if s6.sender.Stale? {
        StaleAlone(t, s6, id, ok, 6);
      } else {
        var s7 := PP.RetryStep(t, s6);
        assert PP.Sends(t, s6, id, ok, 6) == PP.Sends(t, s7, id, ok, 5);
        if s7.sender.Start? { WriteAlone(t, s7, id, ok, 5); } else { StaleAlone(t, s7, id, ok, 5); }
      }
    }
  }

  lemma StaleAlone<T, P>(t: MC.Timing, ch: PP.Channel<T, P>, id: nat, ok: bool, n: nat)
    requires ch.sender.Stale? && n >= 1
    ensures PP.Sends(t, ch, id, ok, n) == ch.(c := ch.c.(publishPending := false), sender := PP.Rest)
  {
    assert PP.Sends(t, ch, id, ok, n) == PP.Sends(t, PP.SendStep(t, ch, id, ok), id, ok, n - 1);
  }

  // -------------------------------------------------------------- connections

  /** Up to n operations of the connect or disconnect handler with nothing in between. */
  function OpenRun(s: State, ok: bool, n: nat): State
    decreases n
  {
    if n == 0 || s.opener.OpenIdle? then s else OpenRun(OpenStep(s, ok), ok, n - 1)
  }

  lemma OpenMore(s: State, ok: bool, n: nat)
    requires n > 0 && !s.opener.OpenIdle?
    ensures OpenRun(s, ok, n) == OpenRun(OpenStep(s, ok), ok, n - 1)
  {
  }

  /** The connect handler has the effect MqttClient.ConnectWork states. */
  lemma OpenAlone(s: State, ok: bool)
    requires s.opener.OpenLte?
    ensures var c, s' := s.ch.c, OpenRun(s, ok, 8);
            && s'.opener.OpenIdle? && s'.link == (if c.lte && ok then Opening else s.link)
            && s'.q == (if c.lte && !ok then s.q + [MqttError] else s.q)
            && s'.ch.c == if !c.lte then c.(connectPending := false)
                          else c.(connectGeneration := c.generation, connectPending := c.connectPending && ok)
  {
    var s1 := OpenStep(s, ok);
    OpenMore(s, ok, 8);
    if s.ch.c.lte {
      var s2 := OpenStep(s1, ok);
      OpenMore(s1, ok, 7);
      var s3 := OpenStep(s2, ok);
      OpenMore(s2, ok, 6);
      var s4 := OpenStep(s3, ok);
      OpenMore(s3, ok, 5);
      if !ok { RefusalAlone(s4); }
    } else {
      OpenMore(s1, ok, 7);
    }
  }

  lemma RefusalAlone(s: State)
    requires s.opener == OpenFailed(s.ch.c.generation) && s.ch.c.lte
    ensures OpenRun(s, false, 4)
         == s.(opener := OpenIdle, q := s.q + [MqttError], ch := s.ch.(c := s.ch.c.(connectPending := false)))
  {
    var s1 := OpenStep(s, false);
    OpenMore(s, false, 4);
    var s2 := OpenStep(s1, false);
    OpenMore(s1, false, 3);
    var s3 := OpenStep(s2, false);
    OpenMore(s2, false, 2);
    OpenMore(s3, false, 1);
  }

  /** The disconnect handler has the effect MqttClient.DisconnectWork states. */
  lemma CloseAlone(s: State, ok: bool)
    requires s.opener.CloseRead?
    ensures OpenRun(s, ok, 2)
         == s.(opener := OpenIdle, closing := s.closing || (s.ch.c.connected && s.link.Up?))
  {
    var s1 := OpenStep(s, ok);
    OpenMore(s, ok, 2);
    if s.ch.c.connected { OpenMore(s1, ok, 1); }
  }

  /** Up to n operations of the running callback with nothing in between. */
  function CallRun(s: State, n: nat): State
    decreases n
  {
    if n == 0 || s.call.CallIdle? then s else CallRun(CallStep(s), n - 1)
  }

  lemma CallMore(s: State, n: nat)
    requires n > 0 && !s.call.CallIdle?
    ensures CallRun(s, n) == CallRun(CallStep(s), n - 1)
  {
  }

  /** The CONNACK callback has the effect MqttClient.OnConnack states. */
  lemma ConnackAlone(s: State, accepted: bool)
    requires CallFree(s)
    ensures var c, s' := s.ch.c, CallRun(ConnackStep(s, accepted), 6);
            var current := c.lte && c.connectGeneration == c.generation;
            && s'.call.CallIdle?
            && s'.q == s.q + (if !current then [] else if accepted then [MqttConnected] else [MqttError])
            && s'.ch.c == if !accepted then c.(connectPending := false)
                          else if current then c.(connectPending := false, connected := true)
                          else c.(connectPending := false, connected := true, disconnectWork := true,
                                  generation := c.generation + 1, activeId := 0, timer := None)
  {
    if accepted { AcceptedAlone(ConnackStep(s, true)); } else { RefusedAlone(ConnackStep(s, false)); }
  }

  lemma AcceptedAlone(s: State)
    requires s.call.UpSet?
    ensures var c, s' := s.ch.c.(connected := true), CallRun(s, 6);
            && s'.call.CallIdle?
            && if c.lte && c.connectGeneration == c.generation
               then s'.ch.c == c && s'.q == s.q + [MqttConnected]
               else s'.ch.c == AC.Unplugged(c) && s'.q == s.q
  {
    var s1 := CallStep(s);
    CallMore(s, 6);
    var s2 := CallStep(s1);
    CallMore(s1, 5);
    if s.ch.c.lte {
      var s3 := CallStep(s2);
      CallMore(s2, 4);
      var s4 := CallStep(s3);
      CallMore(s3, 3);
      if s4.call.UpPost? { CallMore(s4, 2); } else { VoidAlone(s4, 2); }
    } else {
      VoidAlone(s2, 4);
    }
  }

  lemma VoidAlone(s: State, n: nat)
    requires s.call.UpLock? && n >= 2
    ensures CallRun(s, n) == WithClient(s.(call := CallIdle), AC.Unplugged(s.ch.c))
  {
    CallMore(s, n);
    CallMore(CallStep(s), n - 1);
  }

  lemma RefusedAlone(s: State)
    requires s.call.RefusedLte?
    ensures var c, s' := s.ch.c, CallRun(s, 6);
            && s'.call.CallIdle? && s'.ch.c == c
            && s'.q == if c.lte && c.connectGeneration == c.generation then s.q + [MqttError] else s.q
  {
    var s1 := CallStep(s);
    CallMore(s, 6);
    if s.ch.c.lte {
      var s2 := CallStep(s1);
      CallMore(s1, 5);
      var s3 := CallStep(s2);
      CallMore(s2, 4);
      if s3.call.RefusedPost? { CallMore(s3, 3); }
    }
  }
}

/** The publish protocol inside the full firmware: every step of the machine is a
    step of the protocol or leaves it alone, so its invariant holds in every
    reachable state. */
module DeviceSound {
  import opened Common
  import opened Device
  import opened DeviceFrames
  import MC = MqttClient
  import MS = MeasurementService
  import PP = PublishProtocol
  import PB = PublishBuffer
  import PK = PublishPackets
  import PW = PublishPacing
  import PS = PublishSound
  import RP = ReconnectPolicy
  import S = Sparkplug

  lemma ApplyKeepsChannel(g: Config, s: State, e: RP.Event)
    ensures Apply(g, s, e).ch == s.ch
  {
  }

  lemma SysIsOutside(g: Config, s: State, ok: bool)
    ensures PP.Outside(s.ch, SysStep(g, s, ok).ch)
  {
    if s.sys.LteCas? || s.sys.LteSet? { LteIsOutside(g, s, ok); }
    else if s.sys.Lock? || s.sys.Submit? { DisconnectIsOutside(g, s, ok); }
    else { ConnectIsOutside(g, s, ok); }
  }

  lemma LteIsOutside(g: Config, s: State, ok: bool)
    requires s.sys.LteCas? || s.sys.LteSet?
    ensures PP.Outside(s.ch, SysStep(g, s, ok).ch)
  {
    if s.sys.LteSet? {
      ApplyKeepsChannel(g, WithClient(s, s.ch.c.(lte := true)), RP.LteUp);
      FlagIsOutside(s.ch, true);
    } else if s.ch.c.lte {
      FlagIsOutside(s.ch, false);
    } else {
      ApplyKeepsChannel(g, s.(svc := MS.OnDisconnected(s.svc)), RP.LteDown);
      FlagIsOutside(s.ch, s.ch.c.lte);
    }
  }

  lemma FlagIsOutside(ch: Channel, lte: bool)
    ensures PP.Outside(ch, ch.(c := ch.c.(lte := lte)))
  {
  }

  lemma DisconnectIsOutside(g: Config, s: State, ok: bool)
    requires s.sys.Lock? || s.sys.Submit?
    ensures PP.Outside(s.ch, SysStep(g, s, ok).ch)
  {
    if s.sys.Submit? { SubmitKeepsChannel(g, WithClient(s, s.ch.c.(disconnectWork := true)), s.sys.why); }
  }

  lemma SubmitKeepsChannel(g: Config, s: State, why: Reason)
    ensures AfterSubmit(g, s, why).ch == s.ch
  {
  }

  lemma ConnectIsOutside(g: Config, s: State, ok: bool)
    requires !s.sys.LteCas? && !s.sys.LteSet? && !s.sys.Lock? && !s.sys.Submit?
    ensures PP.Outside(s.ch, SysStep(g, s, ok).ch)
  {
    match s.sys {
      case SysIdle => case ConnectLte => case ConnectHelper => case ConnectCas => case ConnectSubmit =>
      case PostError =>
    }
  }

  lemma OpenIsOutside(s: State, ok: bool)
    ensures PP.Outside(s.ch, OpenStep(s, ok).ch)
  {
    match s.opener {
      case OpenIdle => case OpenLte => case OpenAbort => case OpenRead => case OpenMark(_) => case OpenCall(_) =>
      case OpenFailed(_) => case FailLte(_) => case FailCheck(_) => case FailPost => case CloseRead => case CloseCall =>
    }
  }

  lemma CallIsOutside(s: State)
    ensures PP.Outside(s.ch, CallStep(s).ch)
  {
    match s.call {
      case CallIdle => case UpSet => case UpLte => case UpMark => case UpCheck(_) => case UpPost => case UpLock =>
      case UpSubmit =>
      case RefusedLte => case RefusedMark => case RefusedCheck(_) => case RefusedPost => case DownLock =>
      case DownPost =>
    }
  }

  lemma DispatchKeepsChannel(g: Config, s: State, e: Event)
    ensures Dispatch(g, s, e).ch == s.ch
  {
    match e {
      case LteLost => case LteConnected => case MqttConnected => case MqttDisconnected => case MqttError =>
      case Completed(_, _) =>
    }
  }

  /** The actions of the publish protocol. */
  predicate Protocol(a: Action) {
    || a.Arrive? || a.StartPublish? || a.CallerNext? || a.StartJob? || a.StartRetry?
    || a.SenderNext? || a.RetryNext? || a.Puback? || a.PostPuback?
  }

  /** The other actions leave its state or clear the active publish. */
  lemma OutsideStep(g: Config, s: State, a: Action)
    requires Enabled(s, a) && !Protocol(a)
    ensures PP.Outside(s.ch, Step(g, s, a).ch)
  {
    match a {
      case HandleEvent => DispatchKeepsChannel(g, s.(q := s.q[1..]), s.q[0]);
      case SysNext(ok) => SysIsOutside(g, s, ok);
      case OpenNext(ok) => OpenIsOutside(s, ok);
      case CallNext => CallIsOutside(s);
      case _ => SimpleOutside(g, s, a);
    }
  }

  lemma SimpleOutside(g: Config, s: State, a: Action)
    requires Enabled(s, a) && !Protocol(a) && !a.HandleEvent? && !a.SysNext? && !a.OpenNext? && !a.CallNext?
    ensures PP.Outside(s.ch, Step(g, s, a).ch)
  {
    match a {
      case LteChanges(_) => case Sample(_) => case ReconnectFires => case HelperError =>
      case StartOpen => case StartClose => case Connack(_) => case Disconnected =>
    }
  }

  lemma ProtocolStep(g: Config, s: State, a: Action)
    requires ValidConfig(g) && PS.Sound(g.timing, s.ch) && Enabled(s, a) && Protocol(a)
    ensures PS.Sound(g.timing, Step(g, s, a).ch)
  {
    var t, ch := g.timing, s.ch;
    match a {
      case Arrive(k) => PS.SoundByPost(t, ch, ch.(h := ch.h.(arrived := ch.h.arrived + [k])));
      case PostPuback => PS.SoundByPost(t, ch, ch.(posting := None));
      case StartPublish(time) =>
        var b := MS.Next(s.svc.(publishWork := false), time);
        if b.Some? { PS.SoundByBegin(t, ch, PP.Message(MS.TopicOf(b.value), b.value)); }
      case CallerNext(ok) => PS.SoundByCaller(t, ch, ok);
      case StartJob => PS.SoundByJob(t, ch);
      case StartRetry => PS.SoundByTimer(t, ch);
      case SenderNext(id, ok) => PS.SoundBySender(t, ch, id, ok);
      case RetryNext => PS.SoundByRetry(t, ch);
      case Puback(id, ok) => PS.SoundByPuback(t, ch, id, ok);
    }
  }

  lemma StepKeepsSound(g: Config, s: State, a: Action)
    requires ValidConfig(g) && PS.Sound(g.timing, s.ch) && Enabled(s, a)
    ensures PS.Sound(g.timing, Step(g, s, a).ch)
  {
    if Protocol(a) {
      ProtocolStep(g, s, a);
    } else {
      OutsideStep(g, s, a);
      PS.SoundByOutside(g.timing, s.ch, Step(g, s, a).ch);
    }
  }

  /** In every reachable state the payload buffer has one owner and holds what
      was handed over, packets carry their token's message and identifier, the
      waits double, and no token is completed twice or without its own PUBACK. */
  lemma {:induction false} AlwaysSound(g: Config, run: seq<Action>)
    requires ValidConfig(g) && After(g, run).Some?
    ensures PS.Sound(g.timing, After(g, run).value.ch)
    decreases |run|
  {
    if run != [] {
      AlwaysSound(g, run[..|run| - 1]);
      StepKeepsSound(g, After(g, run[..|run| - 1]).value, run[|run| - 1]);
    }
  }

  // ------------------------------------------------------- one handler each

  /** Each of the three threads is inside at most one handler. */
  predicate OneHandler(s: State) {
    (s.sys.SysIdle? || s.ch.caller.NoCall?) && (s.opener.OpenIdle? || s.ch.sender.Rest?)
      && (s.call.CallIdle? || s.ch.posting.None?)
  }

  lemma SysKeepsHandler(g: Config, s: State, ok: bool)
    requires OneHandler(s) && s.ch.caller.NoCall?
    ensures OneHandler(SysStep(g, s, ok))
  {
    SysFrame(g, s, ok);
  }

  lemma ProtocolKeepsHandler(g: Config, s: State, a: Action)
    requires OneHandler(s) && Enabled(s, a) && Protocol(a)
    ensures OneHandler(Step(g, s, a))
  {
    match a {
      case CallerNext(ok) => PB.CallerFrame(s.ch, ok);
      case SenderNext(_, _) => case RetryNext => case Puback(_, _) => case PostPuback => case Arrive(_) =>
      case StartPublish(_) => case StartJob => case StartRetry =>
    }
  }

  lemma HandleKeepsHandler(g: Config, s: State, e: Event)
    requires OneHandler(s) && SysFree(s)
    ensures OneHandler(Dispatch(g, s, e))
  {
    DispatchKeepsChannel(g, s, e);
    match e {
      case LteLost => case LteConnected => case MqttConnected => case MqttDisconnected => case MqttError =>
      case Completed(_, _) =>
    }
  }

  lemma OpenKeepsHandler(s: State, ok: bool)
    requires OneHandler(s) && !s.opener.OpenIdle?
    ensures OneHandler(OpenStep(s, ok))
  {
    OpenIsOutside(s, ok);
  }

  lemma CallKeepsHandler(s: State)
    requires OneHandler(s) && !s.call.CallIdle?
    ensures OneHandler(CallStep(s))
  {
    CallIsOutside(s);
  }

  lemma OutsideKeepsHandler(g: Config, s: State, a: Action)
    requires OneHandler(s) && Enabled(s, a) && !Protocol(a)
    ensures OneHandler(Step(g, s, a))
  {
    match a {
      case HandleEvent => HandleKeepsHandler(g, s.(q := s.q[1..]), s.q[0]);
      case SysNext(ok) => SysKeepsHandler(g, s, ok);
      case OpenNext(ok) => OpenKeepsHandler(s, ok);
      case CallNext => CallKeepsHandler(s);
      case _ => SimpleKeepsHandler(g, s, a);
    }
  }

  lemma SimpleKeepsHandler(g: Config, s: State, a: Action)
    requires OneHandler(s) && Enabled(s, a) && !Protocol(a) && !a.HandleEvent? && !a.SysNext? && !a.OpenNext?
    requires !a.CallNext?
    ensures OneHandler(Step(g, s, a))
  {
    match a {
      case LteChanges(_) => case Sample(_) => case ReconnectFires => case HelperError =>
      case StartOpen => case StartClose => case Connack(_) => case Disconnected =>
    }
  }

  lemma StepKeepsHandler(g: Config, s: State, a: Action)
    requires OneHandler(s) && Enabled(s, a)
    ensures OneHandler(Step(g, s, a))
  {
    if Protocol(a) { ProtocolKeepsHandler(g, s, a); } else { OutsideKeepsHandler(g, s, a); }
  }

  lemma {:induction false} AlwaysOneHandler(g: Config, run: seq<Action>)
    requires After(g, run).Some?
    ensures OneHandler(After(g, run).value)
    decreases |run|
  {
    if run != [] {
      AlwaysOneHandler(g, run[..|run| - 1]);
      StepKeepsHandler(g, After(g, run[..|run| - 1]).value, run[|run| - 1]);
    }
  }

  // ------------------------------------------------------- what this means

  /** No step writes the payload or the topic while a socket write reads them or
      while a publish is active, even when its PUBACK comes before the write returns. */
  lemma PayloadOwnership(g: Config, run: seq<Action>, a: Action)
    requires ValidConfig(g) && After(g, run).Some? && Enabled(After(g, run).value, a)
    requires PB.InUse(After(g, run).value.ch)
    ensures PB.SameBuffer(After(g, run).value.ch, Step(g, After(g, run).value, a).ch)
  {
    AlwaysSound(g, run);
    if Protocol(a) { ProtocolSparesBuffer(g, After(g, run).value, a); } else { OutsideStep(g, After(g, run).value, a); }
  }

  lemma ProtocolSparesBuffer(g: Config, s: State, a: Action)
    requires PB.OneOwner(s.ch) && PB.Buffered(s.ch) && Enabled(s, a) && Protocol(a) && PB.InUse(s.ch)
    ensures PB.SameBuffer(s.ch, Step(g, s, a).ch)
  {
    if a.CallerNext? {
      PB.CallerSparesBuffer(s.ch, a.ok);
    } else if a.SenderNext? {
      PB.SenderSparesBuffer(g.timing, s.ch, a.id, a.ok);
    } else {
      QuietSparesBuffer(g, s, a);
    }
  }

  lemma QuietSparesBuffer(g: Config, s: State, a: Action)
    requires Enabled(s, a) && Protocol(a) && !a.CallerNext? && !a.SenderNext?
    ensures PB.SameBuffer(s.ch, Step(g, s, a).ch)
  {
    match a {
      case RetryNext => PB.SenderSparesBuffer(g.timing, s.ch, 0, true);
      case Arrive(_) => case StartPublish(_) => case StartJob => case StartRetry => case Puback(_, _) =>
      case PostPuback =>
    }
  }

  /** Each token has at most one completion, and a success is only ever decided
      for a packet with that token's message that has reached the broker. */
  lemma CompletionCorrectness(g: Config, run: seq<Action>, j: nat)
    requires ValidConfig(g) && After(g, run).Some? && j < |After(g, run).value.ch.h.done|
    ensures var h := After(g, run).value.ch.h;
            && (forall k :: 0 <= k < |h.done| && h.done[k].token == h.done[j].token ==> k == j)
            && (h.done[j].ok ==> exists k :: 0 <= k < |h.arrived| && Carried(h, h.arrived[k], h.done[j]))
  {
    AlwaysSound(g, run);
    var ch := After(g, run).value.ch;
    if ch.h.done[j].ok {
      var k :| 0 <= k < |ch.h.arrived| && PS.AckedBy(ch, ch.h.arrived[k], ch.h.done[j]);
      assert PK.GoodPacket(ch, ch.h.wire[ch.h.arrived[k]]);
      assert Carried(ch.h, ch.h.arrived[k], ch.h.done[j]);
    }
  }

  /** Packet n, written in the completion's session under its identifier, holds its token's message. */
  ghost predicate Carried(h: PP.Log<S.MessageType, MS.Body>, n: nat, d: PP.Done) {
    && n < |h.wire| && h.wire[n].session == d.session && h.wire[n].id == d.id
    && h.wire[n].token == d.token && d.token in h.submitted && h.wire[n].m == h.submitted[d.token]
  }

  /** Which PUBACKs are taken, of whatever connection: those with the identifier
      that the active token was given, while LTE is up and the generation is still
      its own. A PUBACK of an earlier connection is ignored unless its identifier
      was given out again for the active publish. */
  lemma PubackTakenIff(g: Config, run: seq<Action>, id: nat, ok: bool)
    requires ValidConfig(g) && After(g, run).Some? && id != 0
    ensures var ch := After(g, run).value.ch;
            PP.PubackStep(ch, id, ok) != ch <==>
              && ch.c.lte && ch.c.activeId != 0 && ch.c.activeGeneration == ch.c.generation
              && PK.HasId(ch, ch.c.activeToken, id)
  {
    AlwaysSound(g, run);
    var ch := After(g, run).value.ch;
    assert |PP.PubackStep(ch, id, ok).h.done| == |ch.h.done| <==> !MC.Acknowledges(ch.c, id);
  }

  /** A PUBACK that changes anything acknowledges the active publish: every
      packet of this session with its identifier holds the active token's
      message. A late or duplicate PUBACK changes nothing. */
  lemma PubackIsOwn(g: Config, run: seq<Action>, id: nat, ok: bool)
    requires ValidConfig(g) && After(g, run).Some? && Enabled(After(g, run).value, Puback(id, ok))
    ensures var s, s' := After(g, run).value, Step(g, After(g, run).value, Puback(id, ok));
            s' != s ==>
              && s'.ch.posting == Some((s.ch.c.activeToken, ok)) && s.ch.c.activeGeneration == s.ch.c.generation
              && forall k: nat :: PP.ArrivedAs(s.ch, k, id) ==> HoldsActive(s.ch, s.ch.h.wire[k])
  {
    AlwaysSound(g, run);
    var ch := After(g, run).value.ch;
    var n :| 0 <= n < |ch.h.arrived| && PP.ArrivedAs(ch, ch.h.arrived[n], id);
    assert PK.GoodPacket(ch, ch.h.wire[ch.h.arrived[n]]);
    if MC.Acknowledges(ch.c, id) { OwnPackets(g, ch, id); }
  }

  predicate HoldsActive(ch: Channel, p: PP.Packet<S.MessageType, MS.Body>) {
    p.token == ch.c.activeToken && p.m == PP.Message(ch.c.topic, ch.c.payload)
  }

  lemma OwnPackets(g: Config, ch: Channel, id: nat)
    requires PS.Sound(g.timing, ch) && MC.Acknowledges(ch.c, id) && id != 0
    ensures forall k: nat :: PP.ArrivedAs(ch, k, id) ==> HoldsActive(ch, ch.h.wire[k])
  {
    forall k: nat | PP.ArrivedAs(ch, k, id)
      ensures HoldsActive(ch, ch.h.wire[k])
    {
      assert PK.GoodPacket(ch, ch.h.wire[k]);
    }
  }

  /** Every resend of a message has the payload, topic and identifier of its
      first packet, and DUP set; the first has no DUP. */
  lemma ResendsAreIdentical(g: Config, run: seq<Action>, j: nat, k: nat)
    requires ValidConfig(g) && After(g, run).Some?
    requires var wire := After(g, run).value.ch.h.wire; j < k < |wire| && wire[j].token == wire[k].token
    ensures var wire := After(g, run).value.ch.h.wire;
            && wire[k].m == wire[j].m && wire[k].id == wire[j].id && wire[k].dup
            && ((forall i :: 0 <= i < j ==> wire[i].token != wire[j].token) ==> !wire[j].dup)
  {
    AlwaysSound(g, run);
    var ch := After(g, run).value.ch;
    assert PK.GoodPacket(ch, ch.h.wire[j]) && PK.GoodPacket(ch, ch.h.wire[k]);
    assert PW.DupOk(ch.h.wire, j) && PW.DupOk(ch.h.wire, k);
    PW.CountSome(ch.h.wire[..k], j);
    if forall i :: 0 <= i < j ==> ch.h.wire[i].token != ch.h.wire[j].token {
      PW.CountNone(ch.h.wire[..j], ch.h.wire[j].token);
    }
  }

  /** While the n-th write of a message waits for its PUBACK, the timer runs for min(T * 2^(n-1), max). */
  lemma WaitLaw(g: Config, run: seq<Action>)
    requires ValidConfig(g) && After(g, run).Some? && After(g, run).value.ch.c.timer.Some?
    ensures var ch := After(g, run).value.ch;
            var n := PW.Count(ch.h.wire, ch.c.activeToken);
            && ch.c.activeId != 0 && ch.c.activeGeneration == ch.c.generation && n > 0
            && ch.c.timer.value == Min(g.timing.timeout * Pow2(n - 1), g.timing.maxDelay)
  {
    AlwaysSound(g, run);
    PW.TimerPaced(g.timing, After(g, run).value.ch);
  }
}

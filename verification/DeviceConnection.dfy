/** The connections of the full firmware, one after the other: what belongs to the
    present one, and when it cannot be replaced by another. */
module DeviceConnection {
  import opened Device
  import opened DeviceFrames
  import opened DeviceSound
  import opened DeviceOutbox
  import opened DeviceWake
  import MS = MeasurementService
  import PP = PublishProtocol
  import PB = PublishBuffer
  import RP = ReconnectPolicy

  // ------------------------------------------------- the connection's flags

  /** The helper has the connection the client believes in, an active publish
      belongs to it, and a job's generation is no later than the present one,
      earlier once the controller has invalidated it. */
  predicate Anchored(s: State) {
    var c := s.ch.c;
    && (c.connected ==> s.link.Up? || s.call.DownLock?) && (c.activeId != 0 ==> c.connected)
    && c.publishGeneration <= c.generation && (s.ch.sender.Lock? ==> s.ch.sender.job <= c.generation)
    && (s.sys.Submit? ==>
          && c.publishGeneration < c.generation && c.activeId == 0
          && (s.ch.sender.Lock? ==> s.ch.sender.job < c.generation))
  }

  /** Nothing of this changes. */
  predicate SameAnchors(s: State, s': State) {
    var c, c' := s.ch.c, s'.ch.c;
    && s'.link == s.link && s'.call == s.call && c'.connected == c.connected && c'.generation == c.generation
    && (c'.activeId == 0 || c'.activeId == c.activeId) && c'.publishGeneration == c.publishGeneration
    && (s'.ch.sender.Lock? ==> s'.ch.sender == s.ch.sender || s'.ch.sender.job == c.publishGeneration)
    && (s'.sys.Submit? ==> s.sys == s'.sys)
  }

  lemma SameStaysAnchored(s: State, s': State)
    requires Anchored(s) && SameAnchors(s, s')
    ensures Anchored(s')
  {
  }

  lemma SysSameAnchors(g: Config, s: State, ok: bool)
    requires !s.sys.Lock?
    ensures SameAnchors(s, SysStep(g, s, ok))
  {
    match s.sys {
      case LteCas => if !s.ch.c.lte { LoseSameAnchors(g, s); }
      case LteSet => ApplySameAnchors(g, WithClient(s, s.ch.c.(lte := true)), RP.LteUp);
      case Submit(why) => AfterSubmitSameAnchors(g, WithClient(s, s.ch.c.(disconnectWork := true)), why);
      case SysIdle => case ConnectLte => case ConnectHelper => case ConnectCas => case ConnectSubmit =>
      case PostError =>
    }
  }

  lemma ApplySameAnchors(g: Config, s: State, e: RP.Event)
    ensures SameAnchors(s, Apply(g, s, e))
  {
  }

  lemma LoseSameAnchors(g: Config, s: State)
    ensures SameAnchors(s, LoseLte(g, s))
  {
    ApplySameAnchors(g, s.(svc := MS.OnDisconnected(s.svc)), RP.LteDown);
  }

  lemma AfterSubmitSameAnchors(g: Config, s: State, why: Reason)
    ensures SameAnchors(s, AfterSubmit(g, s, why))
  {
    match why {
      case LostLte => LoseSameAnchors(g, s);
      case AfterError => ApplySameAnchors(g, s, RP.Failure);
      case Stray =>
    }
  }

  lemma SysAnchored(g: Config, s: State, ok: bool)
    requires Anchored(s)
    ensures Anchored(SysStep(g, s, ok))
  {
    if !s.sys.Lock? {
      SysSameAnchors(g, s, ok);
      SameStaysAnchored(s, SysStep(g, s, ok));
    }
  }

  lemma CallerAnchored(s: State, ok: bool)
    requires Anchored(s) && s.ch.caller.Call? && s.sys.SysIdle?
    ensures Anchored(CallerOp(s, ok))
  {
    match s.ch.caller.at {
      case Lte => case Helper => case Cas => case Active => case Release =>
      case Payload => case Topic => case Generation => case Token => case Submit =>
    }
  }

  lemma SenderSameAnchors(g: Config, s: State, id: nat, ok: bool)
    requires !s.ch.sender.Rest? && !s.ch.sender.Retry? && !s.ch.sender.Lock?
    ensures SameAnchors(s, SenderOp(g, s, id, ok))
  {
    match s.ch.sender {
      case Stale => case Start(_, _, _, _) => case Writing(_, _, _) => case Written(_, _, _, _) =>
      case Failing(_) => case Finish =>
    }
  }

  lemma SenderAnchored(g: Config, s: State, id: nat, ok: bool)
    requires Anchored(s) && !s.ch.sender.Rest? && !s.ch.sender.Retry?
    ensures Anchored(SenderOp(g, s, id, ok))
  {
    if !s.ch.sender.Lock? {
      SenderSameAnchors(g, s, id, ok);
      SameStaysAnchored(s, SenderOp(g, s, id, ok));
    }
  }

  lemma OpenAnchored(s: State, ok: bool)
    requires Anchored(s) && (s.opener.OpenCall? && ok ==> s.link.Down?)
    ensures Anchored(OpenStep(s, ok))
  {
    match s.opener {
      case OpenIdle => case OpenLte => case OpenAbort => case OpenRead => case OpenMark(_) => case OpenCall(_) =>
      case OpenFailed(_) => case FailLte(_) => case FailCheck(_) => case FailPost => case CloseRead => case CloseCall =>
    }
  }

  lemma CallAnchored(s: State)
    requires Anchored(s) && (ComingUp(s.call) ==> s.link.Up?)
    ensures Anchored(CallStep(s))
  {
    match s.call {
      case CallIdle => case UpSet => case UpLte => case UpMark => case UpCheck(_) => case UpPost => case UpLock =>
      case UpSubmit =>
      case RefusedLte => case RefusedMark => case RefusedCheck(_) => case RefusedPost => case DownLock =>
      case DownPost =>
    }
  }

  /** The steps that concern neither the connection nor the controller's operations. */
  predicate Aside(a: Action) {
    || a.LteChanges? || a.Arrive? || a.StartPublish? || a.Sample? || a.ReconnectFires? || a.StartJob?
    || a.StartRetry? || a.StartOpen? || a.StartClose? || a.RetryNext? || a.HelperError? || a.Puback? || a.PostPuback?
  }

  lemma AsideSameAnchors(g: Config, s: State, a: Action)
    requires Enabled(s, a) && Aside(a) && !Protocol(a)
    ensures SameAnchors(s, Step(g, s, a))
  {
    match a {
      case LteChanges(_) => case Sample(_) => case ReconnectFires => case StartOpen => case StartClose =>
      case HelperError =>
    }
  }

  lemma ProtocolSameAnchors(g: Config, s: State, a: Action)
    requires Enabled(s, a) && Aside(a) && Protocol(a)
    ensures SameAnchors(s, Step(g, s, a))
  {
    match a {
      case Arrive(_) => case StartPublish(_) => case StartJob => case StartRetry => case PostPuback =>
      case Puback(id, ok) => PubackSameAnchors(s, id, ok);
      case RetryNext => RetryFlags(g, s);
    }
  }

  lemma PubackSameAnchors(s: State, id: nat, ok: bool)
    ensures SameAnchors(s, s.(ch := PP.PubackStep(s.ch, id, ok)))
  {
  }

  lemma HandleSameAnchors(g: Config, s: State)
    requires SysFree(s) && s.q != []
    ensures SameAnchors(s, Dispatch(g, s.(q := s.q[1..]), s.q[0]))
  {
    HandleFrame(g, s.(q := s.q[1..]), s.q[0]);
    DispatchSys(g, s.(q := s.q[1..]), s.q[0]);
  }

  lemma StepAnchored(g: Config, s: State, a: Action)
    requires Anchored(s) && OneHandler(s) && (ComingUp(s.call) ==> s.link.Up?) && Enabled(s, a)
    ensures Anchored(Step(g, s, a))
  {
    if Aside(a) {
      if Protocol(a) { ProtocolSameAnchors(g, s, a); } else { AsideSameAnchors(g, s, a); }
      SameStaysAnchored(s, Step(g, s, a));
    } else {
      match a {
        case HandleEvent =>
          HandleSameAnchors(g, s);
          SameStaysAnchored(s, Step(g, s, a));
        case SysNext(ok) => SysAnchored(g, s, ok);
        case CallerNext(ok) => CallerAnchored(s, ok);
        case SenderNext(id, ok) => SenderAnchored(g, s, id, ok);
        case OpenNext(ok) => OpenAnchored(s, ok);
        case CallNext => CallAnchored(s);
        case Connack(_) => case Disconnected =>
      }
    }
  }

  /** Handling an event never leaves the controller at a submit. */
  lemma DispatchSys(g: Config, s: State, e: Event)
    requires s.sys.SysIdle?
    ensures !Dispatch(g, s, e).sys.Submit?
  {
    match e {
      case LteLost => case LteConnected => case MqttConnected => case MqttDisconnected => case MqttError =>
      case Completed(_, _) =>
    }
  }

  // ------------------------------------------------ who touches the connection

  /** The connection flag, the queued connect item and the session stay. */
  predicate SameFlags(ch: Channel, ch': Channel) {
    ch'.c.connected == ch.c.connected && ch'.c.connectWork == ch.c.connectWork && ch'.session == ch.session
  }

  /** No success is decided but by a PUBACK. */
  ghost predicate NoSuccess(ch: Channel, ch': Channel) {
    || ch'.h.done == ch.h.done
    || (|ch'.h.done| == |ch.h.done| + 1 && ch.h.done <= ch'.h.done && !ch'.h.done[|ch.h.done|].ok)
  }

  lemma SysFlags(g: Config, s: State, ok: bool)
    ensures var ch' := SysStep(g, s, ok).ch;
            && ch'.c.connected == s.ch.c.connected && ch'.session == s.ch.session
            && (s.sys.ConnectSubmit? || ch'.c.connectWork == s.ch.c.connectWork)
  {
    match s.sys {
      case SysIdle => case LteCas => case LteSet => case Lock(_) => case Submit(_) =>
      case ConnectLte => case ConnectHelper => case ConnectCas => case ConnectSubmit => case PostError =>
    }
  }

  lemma CallerFlags(s: State, ok: bool)
    requires s.ch.caller.Call?
    ensures SameFlags(s.ch, CallerOp(s, ok).ch)
  {
    match s.ch.caller.at {
      case Lte => case Helper => case Cas => case Active => case Release =>
      case Payload => case Topic => case Generation => case Token => case Submit =>
    }
  }

  lemma SenderFlags(g: Config, s: State, id: nat, ok: bool)
    requires !s.ch.sender.Rest? && !s.ch.sender.Retry?
    ensures var ch' := SenderOp(g, s, id, ok).ch;
            SameFlags(s.ch, ch') && NoSuccess(s.ch, ch') && ch'.c.publishWork == s.ch.c.publishWork
  {
    match s.ch.sender {
      case Lock(_) => case Stale => case Start(_, _, _, _) => case Writing(_, _, _) => case Written(_, _, _, _) =>
      case Failing(_) => case Finish =>
    }
  }

  lemma RetryFlags(g: Config, s: State)
    requires s.ch.sender.Retry?
    ensures var ch' := PP.RetryStep(g.timing, s.ch);
            && SameFlags(s.ch, ch') && !ch'.sender.Lock? && ch'.h == s.ch.h
            && ch'.c.publishWork == s.ch.c.publishWork && ch'.c.generation == s.ch.c.generation
            && ch'.c.publishGeneration == s.ch.c.publishGeneration && ch'.c.activeId == s.ch.c.activeId
  {
    match s.ch.sender.at {
      case Own => case Id => case Job => case Stamp => case LteUp => case HelperUp => case Check =>
    }
  }

  lemma ProtocolFlags(g: Config, s: State, a: Action)
    requires Enabled(s, a) && Protocol(a)
    ensures SameFlags(s.ch, Step(g, s, a).ch)
  {
    match a {
      case CallerNext(ok) => CallerFlags(s, ok);
      case SenderNext(id, ok) => SenderFlags(g, s, id, ok);
      case RetryNext => RetryFlags(g, s);
      case Arrive(_) => case StartPublish(_) => case StartJob => case StartRetry => case Puback(_, _) =>
      case PostPuback =>
    }
  }

  lemma OpenFlags(s: State, ok: bool)
    ensures SameFlags(s.ch, OpenStep(s, ok).ch)
  {
    match s.opener {
      case OpenIdle => case OpenLte => case OpenAbort => case OpenRead => case OpenMark(_) => case OpenCall(_) =>
      case OpenFailed(_) => case FailLte(_) => case FailCheck(_) => case FailPost => case CloseRead => case CloseCall =>
    }
  }

  lemma CallFlags(s: State)
    ensures CallStep(s).ch.c.connectWork == s.ch.c.connectWork
    ensures s.call.UpSet? || s.ch.c.connected || !CallStep(s).ch.c.connected
  {
    match s.call {
      case CallIdle => case UpSet => case UpLte => case UpMark => case UpCheck(_) => case UpPost => case UpLock =>
      case UpSubmit =>
      case RefusedLte => case RefusedMark => case RefusedCheck(_) => case RefusedPost => case DownLock =>
      case DownPost =>
    }
  }

  /** Only the controller queues a connect item. */
  lemma ConnectItemStays(g: Config, s: State, a: Action)
    requires Enabled(s, a) && Step(g, s, a).ch.c.connectWork && !s.ch.c.connectWork
    ensures a.SysNext? && s.sys.ConnectSubmit?
  {
    if Protocol(a) {
      ProtocolFlags(g, s, a);
    } else {
      match a {
        case HandleEvent => HandleFrame(g, s.(q := s.q[1..]), s.q[0]);
        case SysNext(ok) => SysFlags(g, s, ok);
        case OpenNext(ok) => OpenFlags(s, ok);
        case CallNext => CallFlags(s);
        case LteChanges(_) => case Sample(_) => case ReconnectFires => case StartOpen => case StartClose =>
        case Connack(_) => case Disconnected => case HelperError =>
      }
    }
  }

  // ------------------------------------------- a connection that is not replaced

  predicate Dialling(opener: Opener) {
    opener.OpenLte? || opener.OpenRead? || opener.OpenMark? || opener.OpenCall?
  }

  /** A new connection may be on its way. */
  predicate Coming(s: State) {
    s.link.Opening? || Dialling(s.opener) || s.call.UpSet?
  }

  predicate Live(s: State) {
    s.link.Up? || s.ch.c.connected
  }

  /** No new connection is on its way, and if there is one it is number n. */
  predicate Unreplaced(s: State, n: nat) {
    !Coming(s) && (Live(s) ==> s.ch.session == n)
  }

  /** The connection is not touched. */
  predicate SameLink(s: State, s': State) {
    && s'.link == s.link && s'.call == s.call && (s'.opener == s.opener || s'.opener.CloseRead?)
    && s'.ch.session == s.ch.session && s'.ch.c.connected == s.ch.c.connected
  }

  /** The actions of the helper and of the connect and disconnect handlers. */
  predicate Connecting(a: Action) {
    a.StartOpen? || a.OpenNext? || a.Connack? || a.Disconnected? || a.CallNext?
  }

  lemma OthersSameLink(g: Config, s: State, a: Action)
    requires Enabled(s, a) && !Protocol(a) && !Connecting(a)
    ensures SameLink(s, Step(g, s, a))
  {
    match a {
      case HandleEvent => HandleFrame(g, s.(q := s.q[1..]), s.q[0]);
      case SysNext(ok) =>
        SysFrame(g, s, ok);
        SysFlags(g, s, ok);
      case LteChanges(_) => case Sample(_) => case ReconnectFires => case StartClose => case HelperError =>
    }
  }

  lemma ProtocolSameLink(g: Config, s: State, a: Action)
    requires Enabled(s, a) && Protocol(a)
    ensures SameLink(s, Step(g, s, a))
  {
    ProtocolFlags(g, s, a);
    match a {
      case SenderNext(id, ok) => SendFrame(g, s, id, ok);
      case CallerNext(_) => case RetryNext => case Arrive(_) => case StartPublish(_) => case StartJob =>
      case StartRetry => case Puback(_, _) => case PostPuback =>
    }
  }

  lemma OpenStaysUnreplaced(s: State, ok: bool, n: nat)
    requires Unreplaced(s, n)
    ensures Unreplaced(OpenStep(s, ok), n) && (Live(OpenStep(s, ok)) ==> Live(s))
  {
    match s.opener {
      case OpenIdle => case OpenAbort =>
      case OpenFailed(_) => case FailLte(_) => case FailCheck(_) => case FailPost => case CloseRead => case CloseCall =>
    }
  }

  lemma CallStaysUnreplaced(s: State, n: nat)
    requires Unreplaced(s, n) && (s.call.DownLock? ==> !s.link.Up?)
    ensures Unreplaced(CallStep(s), n) && (Live(CallStep(s)) ==> Live(s))
  {
    match s.call {
      case CallIdle => case UpLte => case UpMark => case UpCheck(_) => case UpPost => case UpLock =>
      case UpSubmit =>
      case RefusedLte => case RefusedMark => case RefusedCheck(_) => case RefusedPost => case DownLock =>
      case DownPost =>
    }
  }

  lemma StepStaysUnreplaced(g: Config, s: State, a: Action, n: nat)
    requires Enabled(s, a) && !a.StartOpen? && Unreplaced(s, n) && (s.call.DownLock? ==> !s.link.Up?)
    ensures Unreplaced(Step(g, s, a), n) && (Live(Step(g, s, a)) ==> Live(s))
  {
    if Protocol(a) {
      ProtocolSameLink(g, s, a);
    } else if !Connecting(a) {
      OthersSameLink(g, s, a);
    } else {
      match a {
        case OpenNext(ok) => OpenStaysUnreplaced(s, ok, n);
        case CallNext => CallStaysUnreplaced(s, n);
        case Disconnected =>
      }
    }
  }

  // ------------------------------------------------ an acknowledged NBIRTH

  ghost predicate IsBirth(ch: Channel, token: nat) {
    token in ch.h.submitted && ch.h.submitted[token].payload.Birth?
  }

  /** The k-th completion is the acknowledgement of an NBIRTH in this session. */
  ghost predicate BirthAckedIn(ch: Channel, k: nat, session: nat) {
    k < |ch.h.done| && ch.h.done[k].ok && ch.h.done[k].session == session && IsBirth(ch, ch.h.done[k].token)
  }

  /** The k-th completion is that of an NBIRTH acknowledged in the present
      connection, and no new connection is on its way. */
  ghost predicate SettledBy(s: State, k: nat) {
    k < |s.ch.h.done| && BirthAckedIn(s.ch, k, s.ch.h.done[k].session) && Unreplaced(s, s.ch.h.done[k].session)
  }

  ghost predicate Settled(s: State) {
    exists k: nat :: SettledBy(s, k)
  }

  /** Messages handed over and completions stay. */
  ghost predicate Recorded(ch: Channel, ch': Channel) {
    && ch.h.done <= ch'.h.done
    && forall t :: t in ch.h.submitted ==> t in ch'.h.submitted && ch'.h.submitted[t] == ch.h.submitted[t]
  }

  lemma CallerRecords(s: State, ok: bool)
    requires s.ch.caller.Call? && PB.Buffered(s.ch)
    ensures Recorded(s.ch, CallerOp(s, ok).ch)
  {
    PB.CallerFrame(s.ch, ok);
    match s.ch.caller.at {
      case Token => assert s.ch.c.nextToken + 1 !in s.ch.h.submitted;
      case Lte => case Helper => case Cas => case Active => case Release =>
      case Payload => case Topic => case Generation => case Submit =>
    }
  }

  lemma ProtocolRecords(g: Config, s: State, a: Action)
    requires Enabled(s, a) && Protocol(a) && PB.Buffered(s.ch) && Reported(s.q, s.ch)
    ensures Recorded(s.ch, Step(g, s, a).ch)
  {
    match a {
      case CallerNext(ok) => CallerRecords(s, ok);
      case SenderNext(id, ok) =>
        SendReported(g, s, id, ok);
        SendFrame(g, s, id, ok);
      case Puback(id, ok) => PubackReported(s, id, ok);
      case Arrive(_) => case StartPublish(_) => case StartJob => case StartRetry => case RetryNext => case PostPuback =>
    }
  }

  lemma StepRecords(g: Config, s: State, a: Action)
    requires Enabled(s, a) && PB.Buffered(s.ch) && Reported(s.q, s.ch)
    ensures Recorded(s.ch, Step(g, s, a).ch)
  {
    if Protocol(a) { ProtocolRecords(g, s, a); } else { OutsideStep(g, s, a); }
  }

  lemma StepStaysSettled(g: Config, s: State, a: Action)
    requires Enabled(s, a) && !a.StartOpen? && PB.Buffered(s.ch) && Reported(s.q, s.ch) && Tracked(s) && Settled(s)
    ensures Settled(Step(g, s, a)) && (Live(Step(g, s, a)) ==> Live(s))
  {
    var k: nat :| SettledBy(s, k);
    StepRecords(g, s, a);
    StepStaysUnreplaced(g, s, a, s.ch.h.done[k].session);
    assert SettledBy(Step(g, s, a), k);
  }
}

/** When a publish stops being retransmitted. The publish the service waits for
    never does. Any other active publish does exactly when its timer fires while
    a call of aitsm_mqtt_publish_payload holds publish_pending only to find that
    publish active: the handler gives up and nobody arms the timer again. From
    then on the service can hand over nothing until the PUBACK comes after all or
    the connection ends; module DeviceAbandoned has a run that gets there. */
module DeviceTimer {
  import opened Common
  import opened Device
  import opened DeviceFrames
  import opened DeviceSound
  import opened DeviceOutbox
  import opened DeviceWake
  import MC = MqttClient
  import PP = PublishProtocol
  import PB = PublishBuffer
  import PK = PublishPackets
  import PS = PublishSound

  predicate SomeActive(ch: Channel) {
    ch.c.activeId != 0 && ch.c.activeGeneration == ch.c.generation
  }

  /** The timer runs, or the sender is writing or looking at the active publish. */
  predicate Attended(ch: Channel) {
    ch.c.timer.Some? || PB.WritingOut(ch) || ch.sender.Retry?
  }

  /** An active publish is attended to, unless the LTE loss that ends it is being carried out. */
  predicate Watched(s: State) {
    SomeActive(s.ch) && s.sys != Lock(LostLte) ==> Attended(s.ch)
  }

  /** An active publish has its connection and LTE; an LTE loss clears the flag first. */
  predicate Upright(s: State) {
    && (SomeActive(s.ch) ==> s.ch.c.connected && (s.ch.c.lte || s.sys == Lock(LostLte)))
    && (s.sys == Lock(LostLte) ==> !s.ch.c.lte)
  }

  /** The timeout fires while a publish call holds publish_pending. */
  predicate GivesUp(s: State, a: Action) {
    a == RetryNext && s.ch.sender.Retry? && s.ch.sender.at.Own? && s.ch.c.publishPending && SomeActive(s.ch)
      && s.sys != Lock(LostLte)
  }

  // ------------------------------------------------------------- the steps

  /** The connection, LTE and the controller after a step, as far as an active publish is concerned. */
  predicate Steady(s: State, s': State) {
    && (s'.sys == Lock(LostLte) ==> !s'.ch.c.lte || (s.sys == s'.sys && s'.ch.c.lte == s.ch.c.lte))
    && (SomeActive(s'.ch) ==>
          && (s.ch.c.connected ==> s'.ch.c.connected)
          && (s.ch.c.lte || s.sys == Lock(LostLte) ==> s'.ch.c.lte || s'.sys == Lock(LostLte))
          && (s.sys == Lock(LostLte) ==> s'.sys == Lock(LostLte)))
  }

  lemma OutsideTimer(s: State, s': State)
    requires PP.Outside(s.ch, s'.ch) && Upright(s) && Steady(s, s')
    ensures Upright(s') && (Watched(s) ==> Watched(s'))
  {
  }

  lemma SysSteady(g: Config, s: State, ok: bool)
    requires !s.sys.SysIdle?
    ensures Steady(s, SysStep(g, s, ok))
  {
    match s.sys {
      case LteCas => case LteSet => case Lock(_) => case Submit(_) =>
      case ConnectLte => case ConnectHelper => case ConnectCas => case ConnectSubmit => case PostError =>
    }
  }

  lemma CallSteady(s: State)
    ensures Steady(s, CallStep(s))
  {
    match s.call {
      case CallIdle => case UpSet => case UpLte => case UpMark => case UpCheck(_) => case UpPost => case UpLock =>
      case UpSubmit =>
      case RefusedLte => case RefusedMark => case RefusedCheck(_) => case RefusedPost => case DownLock =>
      case DownPost =>
    }
  }

  lemma OpenSteady(s: State, ok: bool)
    ensures Steady(s, OpenStep(s, ok))
  {
    match s.opener {
      case OpenIdle => case OpenLte => case OpenAbort => case OpenRead => case OpenMark(_) => case OpenCall(_) =>
      case OpenFailed(_) => case FailLte(_) => case FailCheck(_) => case FailPost => case CloseRead => case CloseCall =>
    }
  }

  lemma OutsideSteady(g: Config, s: State, a: Action)
    requires Enabled(s, a) && !Protocol(a)
    ensures Steady(s, Step(g, s, a))
  {
    match a {
      case HandleEvent => DispatchKeepsChannel(g, s.(q := s.q[1..]), s.q[0]);
      case SysNext(ok) => SysSteady(g, s, ok);
      case OpenNext(ok) => OpenSteady(s, ok);
      case CallNext => CallSteady(s);
      case LteChanges(_) => case Sample(_) => case ReconnectFires => case HelperError =>
      case StartOpen => case StartClose => case Connack(_) => case Disconnected =>
    }
  }

  lemma CallerTimer(s: State, ok: bool)
    requires s.ch.caller.Call? && Upright(s)
    ensures Upright(CallerOp(s, ok)) && (Watched(s) ==> Watched(CallerOp(s, ok)))
  {
    PB.CallerFrame(s.ch, ok);
  }

  lemma SenderTimer(g: Config, s: State, id: nat, ok: bool)
    requires !s.ch.sender.Rest? && !s.ch.sender.Retry? && PB.Buffered(s.ch) && PK.Identified(s.ch) && Upright(s)
    ensures Upright(SenderOp(g, s, id, ok)) && (Watched(s) ==> Watched(SenderOp(g, s, id, ok)))
  {
    match s.ch.sender {
      case Lock(_) => case Stale => case Start(_, _, _, _) => case Writing(_, _, _) => case Written(_, _, _, _) =>
      case Failing(_) => case Finish =>
    }
  }

  lemma OwnTimer(g: Config, s: State)
    requires s.ch.sender.Retry? && s.ch.sender.at.Own? && s.ch.c.timer == None && Upright(s)
    ensures var s' := s.(ch := PP.RetryStep(g.timing, s.ch));
            Upright(s') && (Watched(s) ==> (Watched(s') <==> !GivesUp(s, RetryNext)))
  {
  }

  lemma TestTimer(g: Config, s: State)
    requires s.ch.sender.Retry? && !s.ch.sender.at.Own? && PB.RetryReads(s.ch) && Tracked(s) && Upright(s)
    ensures var s' := s.(ch := PP.RetryStep(g.timing, s.ch));
            Upright(s') && Watched(s')
  {
    match s.ch.sender.at {
      case Id => case Job => case Stamp => case LteUp => case HelperUp => case Check =>
    }
  }

  lemma RetryTimer(g: Config, s: State)
    requires s.ch.sender.Retry? && PB.RetryReads(s.ch) && s.ch.c.timer == None && Tracked(s) && Upright(s)
    ensures var s' := s.(ch := PP.RetryStep(g.timing, s.ch));
            Upright(s') && (Watched(s) ==> (Watched(s') <==> !GivesUp(s, RetryNext)))
  {
    if s.ch.sender.at.Own? { OwnTimer(g, s); } else { TestTimer(g, s); }
  }

  lemma QuietTimer(g: Config, s: State, a: Action)
    requires Enabled(s, a) && Protocol(a) && !a.CallerNext? && !a.SenderNext? && !a.RetryNext?
    requires PB.Buffered(s.ch) && Upright(s)
    ensures Upright(Step(g, s, a)) && (Watched(s) ==> Watched(Step(g, s, a)))
  {
    match a {
      case StartJob => assert s.ch.c.activeId == 0;
      case Arrive(_) => case StartPublish(_) => case StartRetry => case Puback(_, _) => case PostPuback =>
    }
  }

  lemma ProtocolTimer(g: Config, s: State, a: Action)
    requires Enabled(s, a) && Protocol(a) && PS.Sound(g.timing, s.ch) && Tracked(s) && Upright(s)
    ensures Upright(Step(g, s, a)) && (Watched(s) ==> (Watched(Step(g, s, a)) <==> !GivesUp(s, a)))
  {
    match a {
      case CallerNext(ok) => CallerTimer(s, ok);
      case SenderNext(id, ok) => SenderTimer(g, s, id, ok);
      case RetryNext => RetryTimer(g, s);
      case StartJob => QuietTimer(g, s, a);
      case Arrive(_) => QuietTimer(g, s, a);
      case StartPublish(_) => QuietTimer(g, s, a);
      case StartRetry => QuietTimer(g, s, a);
      case Puback(_, _) => QuietTimer(g, s, a);
      case PostPuback => QuietTimer(g, s, a);
    }
  }

  lemma StepTimer(g: Config, s: State, a: Action)
    requires Enabled(s, a) && PS.Sound(g.timing, s.ch) && Tracked(s) && Upright(s)
    ensures Upright(Step(g, s, a)) && (Watched(s) ==> (Watched(Step(g, s, a)) <==> !GivesUp(s, a)))
  {
    if Protocol(a) {
      ProtocolTimer(g, s, a);
    } else {
      OutsideStep(g, s, a);
      OutsideSteady(g, s, a);
      OutsideTimer(s, Step(g, s, a));
    }
  }

  lemma {:induction false} AlwaysUpright(g: Config, run: seq<Action>)
    requires ValidConfig(g) && After(g, run).Some?
    ensures Upright(After(g, run).value)
    decreases |run|
  {
    if run != [] {
      AlwaysUpright(g, run[..|run| - 1]);
      AlwaysSound(g, run[..|run| - 1]);
      AlwaysWoke(g, run[..|run| - 1]);
      StepTimer(g, After(g, run[..|run| - 1]).value, run[|run| - 1]);
    }
  }

  // ------------------------------------------------------- what this means

  /** A step takes the timer away from an active publish exactly when the timeout
      fires while publish_pending is held; then the holder is a publish call that
      is about to find the active publish, and the service waits for none. */
  lemma TimerLostExactly(g: Config, run: seq<Action>, a: Action)
    requires ValidConfig(g) && After(g, run).Some? && Enabled(After(g, run).value, a) && Watched(After(g, run).value)
    ensures Watched(Step(g, After(g, run).value, a)) <==> !GivesUp(After(g, run).value, a)
    ensures var s := After(g, run).value;
            GivesUp(s, a) ==>
              s.ch.caller.Call? && (s.ch.caller.at.Active? || s.ch.caller.at.Release?) && !s.svc.inFlight
  {
    AlwaysUpright(g, run);
    AlwaysSound(g, run);
    AlwaysWoke(g, run);
    AlwaysOutbox(g, run);
    StepTimer(g, After(g, run).value, a);
    if GivesUp(After(g, run).value, a) { HolderIsCall(After(g, run).value); }
  }

  lemma HolderIsCall(s: State)
    requires GivesUp(s, RetryNext) && PB.OneOwner(s.ch) && PB.Buffered(s.ch) && Offering(s.svc, s.ch)
    ensures s.ch.caller.Call? && (s.ch.caller.at.Active? || s.ch.caller.at.Release?) && !s.svc.inFlight
  {
    assert PB.CallerOwns(s.ch);
  }

  // ------------------------------------------- the publish waited for

  /** The publish the service waits for is active. */
  predicate OwnActive(s: State) {
    s.svc.inFlight && Active(s.ch, s.svc.pendingToken)
  }

  lemma CallerBecomesOwn(s: State, ok: bool)
    requires s.ch.caller.Call? && PB.OneOwner(s.ch) && PB.Buffered(s.ch) && Offering(s.svc, s.ch)
    ensures !OwnActive(CallerOp(s, ok))
  {
    PB.CallerFrame(s.ch, ok);
    match s.ch.caller.at {
      case Lte => case Helper => case Cas => case Active => case Release =>
      case Payload => case Topic => case Generation => case Token => case Submit =>
    }
  }

  lemma SenderBecomesOwn(g: Config, s: State, id: nat, ok: bool)
    requires !s.ch.sender.Rest? && !s.ch.sender.Retry? && PB.Buffered(s.ch)
    requires OwnActive(SenderOp(g, s, id, ok))
    ensures OwnActive(s) || !SomeActive(s.ch)
  {
    match s.ch.sender {
      case Lock(_) => case Stale => case Start(_, _, _, _) => case Writing(_, _, _) => case Written(_, _, _, _) =>
      case Failing(_) => case Finish =>
    }
  }

  /** What other steps leave of the publish waited for. */
  predicate NoNewOwn(s: State, s': State) {
    && (s'.svc.inFlight ==> s.svc.inFlight && s'.svc.pendingToken == s.svc.pendingToken)
    && (s'.ch.c.activeId != 0 ==> s'.ch.c.activeId == s.ch.c.activeId && s'.ch.c.generation == s.ch.c.generation)
    && s'.ch.c.activeToken == s.ch.c.activeToken && s'.ch.c.activeGeneration == s.ch.c.activeGeneration
  }

  lemma OutsideNoNewOwn(g: Config, s: State, a: Action)
    requires Enabled(s, a) && !Protocol(a)
    ensures NoNewOwn(s, Step(g, s, a))
  {
    OutsideStep(g, s, a);
    match a {
      case HandleEvent => HandleNoNewFlight(g, s);
      case SysNext(ok) => SysFrame(g, s, ok);
      case Sample(m) =>
      case _ => ServiceStays(g, s, a);
    }
  }

  lemma HandleNoNewFlight(g: Config, s: State)
    requires s.q != []
    ensures var s' := Dispatch(g, s.(q := s.q[1..]), s.q[0]);
            s'.svc.inFlight ==> s.svc.inFlight && s'.svc.pendingToken == s.svc.pendingToken
  {
    match s.q[0] {
      case LteLost => case LteConnected => case MqttConnected => case MqttDisconnected => case MqttError =>
      case Completed(_, _) =>
    }
  }

  lemma RetryNoNewOwn(g: Config, s: State)
    requires s.ch.sender.Retry?
    ensures NoNewOwn(s, s.(ch := PP.RetryStep(g.timing, s.ch)))
  {
    match s.ch.sender.at {
      case Own => case Id => case Job => case Stamp => case LteUp => case HelperUp => case Check =>
    }
  }

  lemma BeginNoNewOwn(s: State, t: uint64)
    ensures NoNewOwn(s, BeginPublish(s, t))
  {
  }

  lemma ProtocolNoNewOwn(g: Config, s: State, a: Action)
    requires Enabled(s, a) && Protocol(a) && !a.CallerNext? && !a.SenderNext?
    ensures NoNewOwn(s, Step(g, s, a))
  {
    match a {
      case RetryNext => RetryNoNewOwn(g, s);
      case StartPublish(t) => BeginNoNewOwn(s, t);
      case Puback(_, _) => case PostPuback => case Arrive(_) => case StartJob => case StartRetry =>
    }
  }

  /** A publish becomes the active one that is waited for only when nothing was active. */
  lemma BecomesOwn(g: Config, s: State, a: Action)
    requires Enabled(s, a) && PS.Sound(g.timing, s.ch) && Offering(s.svc, s.ch) && OwnActive(Step(g, s, a))
    ensures OwnActive(s) || !SomeActive(s.ch)
  {
    if a.CallerNext? { CallerBecomesOwn(s, a.ok); }
    else if a.SenderNext? { SenderBecomesOwn(g, s, a.id, a.ok); }
    else if Protocol(a) { ProtocolNoNewOwn(g, s, a); }
    else { OutsideNoNewOwn(g, s, a); }
  }

  ghost predicate OwnWatched(s: State) {
    OwnActive(s) ==> Watched(s)
  }

  lemma StepOwnWatched(g: Config, s: State, a: Action)
    requires Enabled(s, a) && PS.Sound(g.timing, s.ch) && Tracked(s) && Upright(s) && Offering(s.svc, s.ch)
    requires OwnWatched(s)
    ensures OwnWatched(Step(g, s, a))
  {
    if OwnActive(Step(g, s, a)) {
      BecomesOwn(g, s, a);
      StepTimer(g, s, a);
      if GivesUp(s, a) { HolderIsCall(s); }
    }
  }

  lemma {:induction false} AlwaysOwnWatched(g: Config, run: seq<Action>)
    requires ValidConfig(g) && After(g, run).Some?
    ensures OwnWatched(After(g, run).value)
    decreases |run|
  {
    if run != [] {
      var before := run[..|run| - 1];
      AlwaysOwnWatched(g, before);
      AlwaysSound(g, before);
      AlwaysWoke(g, before);
      AlwaysOutbox(g, before);
      AlwaysUpright(g, before);
      StepOwnWatched(g, After(g, before).value, run[|run| - 1]);
    }
  }

  /** While the publish the service waits for is active and LTE is up, its timer
      runs or the sender is writing it or looking at it, without exception. */
  lemma RetransmissionGoesOn(g: Config, run: seq<Action>)
    requires ValidConfig(g) && After(g, run).Some? && OwnActive(After(g, run).value) && After(g, run).value.ch.c.lte
    ensures Attended(After(g, run).value.ch)
  {
    AlwaysOwnWatched(g, run);
    AlwaysUpright(g, run);
  }

  // ---------------------------------------------------- abandoned publishes

  /** The handler has given the active publish up since it became active. */
  ghost predicate Abandoned(g: Config, run: seq<Action>)
    requires After(g, run).Some?
    decreases |run|
  {
    && run != [] && SomeActive(After(g, run).value.ch)
    && (GivesUp(After(g, run[..|run| - 1]).value, run[|run| - 1]) || Abandoned(g, run[..|run| - 1]))
  }

  /** Nobody comes back to an active publish that nobody attends to. */
  lemma NeglectStays(g: Config, s: State, a: Action)
    requires Enabled(s, a) && PS.Sound(g.timing, s.ch) && SomeActive(s.ch) && !Attended(s.ch)
    requires SomeActive(Step(g, s, a).ch)
    ensures !Attended(Step(g, s, a).ch)
  {
    if Protocol(a) { ProtocolLeavesAlone(g, s, a); } else { OutsideStep(g, s, a); }
  }

  /** A step that leaves an active publish alone, and unattended. */
  predicate Untouched(ch: Channel, ch': Channel) {
    && ch'.c.activeId == ch.c.activeId && ch'.c.activeGeneration == ch.c.activeGeneration
    && ch'.c.generation == ch.c.generation && !Attended(ch')
  }

  lemma CallerLeavesAlone(s: State, ok: bool)
    requires s.ch.caller.Call? && !Attended(s.ch)
    ensures Untouched(s.ch, CallerOp(s, ok).ch)
  {
    PB.CallerFrame(s.ch, ok);
  }

  lemma SenderLeavesAlone(g: Config, s: State, id: nat, ok: bool)
    requires !s.ch.sender.Rest? && PB.Buffered(s.ch) && SomeActive(s.ch) && !Attended(s.ch)
    ensures Untouched(s.ch, SenderOp(g, s, id, ok).ch)
  {
    match s.ch.sender {
      case Stale => case Failing(_) => case Finish =>
    }
  }

  lemma OtherLeavesAlone(g: Config, s: State, a: Action)
    requires Enabled(s, a) && Protocol(a) && !a.CallerNext? && !a.SenderNext?
    requires PB.Buffered(s.ch) && SomeActive(s.ch) && !Attended(s.ch)
    ensures var ch' := Step(g, s, a).ch;
            if a.Puback? && MC.Acknowledges(s.ch.c, a.id)
            then ch'.c.activeId == 0 && ch'.c.generation == s.ch.c.generation
            else Untouched(s.ch, ch')
  {
    match a {
      case Puback(_, _) => case PostPuback => case Arrive(_) => case StartPublish(_) => case StartJob =>
    }
  }

  lemma ProtocolLeavesAlone(g: Config, s: State, a: Action)
    requires Enabled(s, a) && Protocol(a) && PB.Buffered(s.ch) && SomeActive(s.ch) && !Attended(s.ch)
    ensures var ch' := Step(g, s, a).ch;
            if a.Puback? && MC.Acknowledges(s.ch.c, a.id)
            then ch'.c.activeId == 0 && ch'.c.generation == s.ch.c.generation
            else Untouched(s.ch, ch')
  {
    if a.CallerNext? { CallerLeavesAlone(s, a.ok); }
    else if a.SenderNext? { SenderLeavesAlone(g, s, a.id, a.ok); }
    else { OtherLeavesAlone(g, s, a); }
  }

  /** While an LTE loss is being carried out no other publish becomes active. */
  lemma LossStays(g: Config, s: State, a: Action)
    requires Enabled(s, a) && SomeActive(s.ch) && s.sys == Lock(LostLte) && SomeActive(Step(g, s, a).ch)
    ensures Step(g, s, a).sys == Lock(LostLte)
  {
    if Protocol(a) { ProtocolKeepsSys(g, s, a); } else { OutsideSteady(g, s, a); }
  }

  lemma ProtocolKeepsSys(g: Config, s: State, a: Action)
    requires Enabled(s, a) && Protocol(a)
    ensures Step(g, s, a).sys == s.sys
  {
    match a {
      case CallerNext(_) => case SenderNext(_, _) => case RetryNext => case Puback(_, _) => case PostPuback =>
      case Arrive(_) =>
      case StartPublish(_) => case StartJob => case StartRetry =>
    }
  }

  /** An active publish is unattended exactly when it has been given up, apart from an LTE loss that ends it anyway. */
  ghost predicate AbandonedIff(g: Config, run: seq<Action>)
    requires After(g, run).Some?
  {
    var s := After(g, run).value;
    && (Abandoned(g, run) ==> !Attended(s.ch))
    && (SomeActive(s.ch) && s.sys != Lock(LostLte) && !Attended(s.ch) ==> Abandoned(g, run))
  }

  lemma {:induction false} AlwaysAbandonedIff(g: Config, run: seq<Action>)
    requires ValidConfig(g) && After(g, run).Some?
    ensures AbandonedIff(g, run)
    decreases |run|
  {
    if run != [] {
      var before, a := run[..|run| - 1], run[|run| - 1];
      AlwaysAbandonedIff(g, before);
      AlwaysSound(g, before);
      AlwaysWoke(g, before);
      AlwaysUpright(g, before);
      StepAbandoned(g, run, After(g, before).value, a);
    }
  }

  lemma StepAbandoned(g: Config, run: seq<Action>, s: State, a: Action)
    requires run != [] && After(g, run[..|run| - 1]) == Some(s) && run[|run| - 1] == a && Enabled(s, a)
    requires PS.Sound(g.timing, s.ch) && Tracked(s) && Upright(s) && AbandonedIff(g, run[..|run| - 1])
    ensures AbandonedIff(g, run)
  {
    var s' := Step(g, s, a);
    if SomeActive(s'.ch) {
      StepTimer(g, s, a);
      if Abandoned(g, run[..|run| - 1]) {
        NeglectStays(g, s, a);
      } else if SomeActive(s.ch) && s.sys == Lock(LostLte) {
        LossStays(g, s, a);
      }
    }
  }

  /** Over every run: an active publish of the current generation, with LTE up, is
      timed, written or retried if and only if the handler has not given it up
      since it became active. */
  lemma AttendedIffNotAbandoned(g: Config, run: seq<Action>)
    requires ValidConfig(g) && After(g, run).Some? && SomeActive(After(g, run).value.ch) && After(g, run).value.ch.c.lte
    ensures Attended(After(g, run).value.ch) <==> !Abandoned(g, run)
  {
    AlwaysAbandonedIff(g, run);
    AlwaysUpright(g, run);
  }

  // --------------------------------------------- what it does to the service

  /** What ends an active publish: its PUBACK, or a new generation. */
  predicate Ends(s: State, a: Action, s': State) {
    (a.Puback? && MC.Acknowledges(s.ch.c, a.id)) || s'.ch.c.generation != s.ch.c.generation
  }

  lemma StaysActive(g: Config, s: State, a: Action)
    requires Enabled(s, a) && PS.Sound(g.timing, s.ch) && SomeActive(s.ch) && !Attended(s.ch)
    ensures SomeActive(Step(g, s, a).ch) <==> !Ends(s, a, Step(g, s, a))
  {
    if Protocol(a) { ProtocolLeavesAlone(g, s, a); } else { OutsideStep(g, s, a); }
  }

  /** While a publish is active no call gets as far as a token. */
  lemma ActiveBlocksCalls(g: Config, s: State, a: Action)
    requires Enabled(s, a) && PS.Sound(g.timing, s.ch) && SomeActive(s.ch) && !s.svc.inFlight
    ensures Step(g, s, a).ch.h.submitted == s.ch.h.submitted && !Step(g, s, a).svc.inFlight
  {
    if a.CallerNext? {
      CallIsBlocked(s, a.ok);
    } else if a.SenderNext? {
      SendFrame(g, s, a.id, a.ok);
    } else if Protocol(a) {
      ProtocolNoNewOwn(g, s, a);
      ProtocolKeepsSubmitted(g, s, a);
    } else {
      OutsideNoNewOwn(g, s, a);
      OutsideStep(g, s, a);
    }
  }

  lemma ProtocolKeepsSubmitted(g: Config, s: State, a: Action)
    requires Enabled(s, a) && Protocol(a) && !a.CallerNext? && !a.SenderNext?
    ensures Step(g, s, a).ch.h.submitted == s.ch.h.submitted
  {
    match a {
      case RetryNext => case Puback(_, _) => case PostPuback => case Arrive(_) =>
      case StartPublish(_) => case StartJob => case StartRetry =>
    }
  }

  lemma CallIsBlocked(s: State, ok: bool)
    requires s.ch.caller.Call? && PB.Buffered(s.ch) && SomeActive(s.ch) && !s.svc.inFlight
    ensures CallerOp(s, ok).ch.h.submitted == s.ch.h.submitted && !CallerOp(s, ok).svc.inFlight
  {
    match s.ch.caller.at {
      case Lte => case Helper => case Cas => case Active => case Release =>
    }
  }

  lemma {:induction false} AbandonedIsNotWaitedFor(g: Config, run: seq<Action>)
    requires ValidConfig(g) && After(g, run).Some? && Abandoned(g, run)
    ensures !After(g, run).value.svc.inFlight
    decreases |run|
  {
    var before, a := run[..|run| - 1], run[|run| - 1];
    var s := After(g, before).value;
    AlwaysSound(g, before);
    if GivesUp(s, a) {
      AlwaysOutbox(g, before);
      HolderIsCall(s);
    } else {
      AbandonedIsNotWaitedFor(g, before);
    }
    ActiveBlocksCalls(g, s, a);
  }

  /** After a publish has been given up, the service waits for nothing and nothing
      is handed over; the publish stays active and given up until its PUBACK is
      taken or a disconnect, an error or an LTE loss starts a new generation. */
  lemma AbandonedBlocksService(g: Config, run: seq<Action>, a: Action)
    requires ValidConfig(g) && After(g, run).Some? && Abandoned(g, run) && Enabled(After(g, run).value, a)
    ensures var s, s' := After(g, run).value, Step(g, After(g, run).value, a);
            && !s.svc.inFlight && !s'.svc.inFlight && s'.ch.h.submitted == s.ch.h.submitted
            && After(g, run + [a]) == Some(s') && (Abandoned(g, run + [a]) <==> !Ends(s, a, s'))
  {
    var s := After(g, run).value;
    AlwaysSound(g, run);
    AlwaysAbandonedIff(g, run);
    AbandonedIsNotWaitedFor(g, run);
    ActiveBlocksCalls(g, s, a);
    StaysActive(g, s, a);
    assert (run + [a])[..|run|] == run;
  }
}

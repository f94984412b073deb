/** In every connection the NBIRTH comes first: as long as the MQTT work queue
    starts the older of a queued publish and a queued connect item first, no NDATA
    is written to an open connection before an NBIRTH was acknowledged in it. */
module DeviceBirthFirst {
  import opened Common
  import opened Device
  import opened DeviceFrames
  import opened DeviceSound
  import opened DeviceOutbox
  import opened DeviceWake
  import opened DeviceConnection
  import opened DeviceBirthAcked
  import MC = MqttClient
  import MS = MeasurementService
  import PB = PublishBuffer
  import PS = PublishSound

  // ---------------------------------------------------- the NDATA in the buffer

  ghost predicate DataSettled(s: State) {
    InUse(s.ch) && s.ch.c.payload.Data? ==> Settled(s)
  }

  /** A connect item queued together with an NDATA is younger. */
  predicate DataOlder(s: State, p: Past) {
    s.ch.c.publishWork && s.ch.c.connectWork && s.ch.c.payload.Data? ==> !p.connectOlder
  }

  /** The service is still in the session it published in, or its end is being carried out. */
  predicate Owned(s: State) {
    !s.ch.c.connectWork && ((s.svc.connected && !s.svc.birthPending) || s.sys == Lock(AfterError))
  }

  predicate DataOwned(s: State) {
    Current(s.ch) && s.ch.c.connected && s.ch.c.payload.Data? ==> Owned(s)
  }

  /** No connect item is started while an NDATA waits or is active. */
  lemma DataHoldsOpen(s: State, p: Past)
    requires Enabled(s, StartOpen) && OldestFirst(s, StartOpen, p)
    requires DataOlder(s, p) && DataOwned(s) && Anchored(s)
    ensures !(InUse(s.ch) && s.ch.c.payload.Data?)
  {
  }

  lemma StepDataSettled(g: Config, s: State, a: Action, p: Past)
    requires Enabled(s, a) && !a.CallerNext? && OldestFirst(s, a, p)
    requires DataSettled(s) && DataOlder(s, p) && DataOwned(s)
    requires Anchored(s) && Tracked(s) && PB.Buffered(s.ch) && PB.RetryReads(s.ch) && Reported(s.q, s.ch)
    ensures DataSettled(Step(g, s, a))
  {
    StepSameJob(g, s, a);
    if a.StartOpen? {
      DataHoldsOpen(s, p);
    } else if InUse(s.ch) && s.ch.c.payload.Data? {
      StepStaysSettled(g, s, a);
    }
  }

  lemma StepDataOlder(g: Config, s: State, a: Action, p: Past)
    requires Enabled(s, a) && !a.CallerNext? && DataOlder(s, p) && PB.RetryReads(s.ch) && Anchored(s)
    ensures DataOlder(Step(g, s, a), Extended(s, a, Step(g, s, a), p))
  {
    StepSameJob(g, s, a);
  }

  lemma OthersDataOwned(g: Config, s: State, a: Action)
    requires Enabled(s, a) && !a.CallerNext? && !Controlling(a) && DataOwned(s) && DataSettled(s)
    requires Anchored(s) && PB.RetryReads(s.ch)
    ensures DataOwned(Step(g, s, a))
  {
    StepSameJob(g, s, a);
    OthersSameSession(g, s, a);
    if Current(s.ch) && s.ch.c.payload.Data? && Step(g, s, a).ch.c.connected {
      if !s.ch.c.connected { ConnectedBySet(g, s, a); }
      if Step(g, s, a).ch.c.connectWork && !s.ch.c.connectWork { ConnectItemStays(g, s, a); }
    }
  }

  lemma ConnectedBySet(g: Config, s: State, a: Action)
    requires Enabled(s, a) && !s.ch.c.connected && Step(g, s, a).ch.c.connected
    ensures a.CallNext? && s.call.UpSet?
  {
    if Protocol(a) {
      ProtocolFlags(g, s, a);
    } else if !Connecting(a) {
      OthersSameLink(g, s, a);
    } else {
      match a {
        case OpenNext(ok) => OpenFlags(s, ok);
        case CallNext => CallFlags(s);
        case StartOpen => case Connack(_) => case Disconnected =>
      }
    }
  }

  lemma HandleDataOwned(g: Config, s: State)
    requires SysFree(s) && s.q != [] && DataOwned(s) && Birthed(s)
    requires Ordered(s.h.open, s.q, s.link, s.call) && Gate(s.svc, s.rec) && (s.svc.connected ==> s.h.open)
    ensures DataOwned(Dispatch(g, s.(q := s.q[1..]), s.q[0]))
  {
    var s1 := s.(q := s.q[1..]);
    HandleFrame(g, s1, s.q[0]);
    if Current(s.ch) && s.ch.c.connected && s.ch.c.payload.Data? {
      PopOrdered(s.h.open, s.q, s.link, s.call);
      match s.q[0] {
        case LteLost => case LteConnected => case MqttError =>
        case Completed(token, ok) => if MS.Accepts(s.svc, token) { ResultAnswers(g, s.svc, token, ok); }
      }
    }
  }

  lemma LockDataOwned(s: State, why: Reason)
    requires Anchored(s)
    ensures DataOwned(WithClient(s.(sys := Submit(why)), MC.Invalidate(s.ch.c)))
  {
  }

  /** An operation of the controller that leaves the service alone. */
  lemma SysLeavesOwned(s: State, s': State)
    requires DataOwned(s) && SameJob(s.ch, s'.ch) && s'.ch.c.connected == s.ch.c.connected
    requires Current(s.ch) && s.ch.c.connected && s.ch.c.payload.Data? ==>
               s.sys != Lock(AfterError) && s'.svc == s.svc && (s'.ch.c.connectWork ==> s.ch.c.connectWork)
    ensures DataOwned(s')
  {
  }

  lemma SysKeepsService(g: Config, s: State, ok: bool)
    requires Anchored(s) && Tracked(s) && Told(s) && Gate(s.svc, s.rec)
    requires s.svc.connected && Current(s.ch) && !s.sys.Lock?
    ensures SysStep(g, s, ok).svc == s.svc
  {
    match s.sys {
      case SysIdle => case LteCas => case LteSet =>
      case ConnectLte => case ConnectHelper => case ConnectCas => case ConnectSubmit => case PostError =>
    }
  }

  lemma SysDataOwned(g: Config, s: State, ok: bool)
    requires DataOwned(s) && Anchored(s) && Tracked(s) && Told(s) && Steadfast(s) && Gate(s.svc, s.rec)
    requires !s.sys.SysIdle?
    ensures DataOwned(SysStep(g, s, ok))
  {
    if s.sys.Lock? {
      LockDataOwned(s, s.sys.why);
    } else {
      SysFlags(g, s, ok);
      SysIsOutside(g, s, ok);
      OutsideSameJob(s.ch, SysStep(g, s, ok).ch);
      if Current(s.ch) && s.ch.c.connected && s.ch.c.payload.Data? { SysKeepsService(g, s, ok); }
      SysLeavesOwned(s, SysStep(g, s, ok));
    }
  }

  lemma StepDataOwned(g: Config, s: State, a: Action)
    requires Enabled(s, a) && !a.CallerNext? && DataOwned(s) && DataSettled(s) && Birthed(s)
    requires Anchored(s) && Tracked(s) && Told(s) && Steadfast(s) && Gate(s.svc, s.rec) && PB.RetryReads(s.ch)
    requires Ordered(s.h.open, s.q, s.link, s.call) && (s.svc.connected ==> s.h.open)
    ensures DataOwned(Step(g, s, a))
  {
    match a {
      case HandleEvent => HandleDataOwned(g, s);
      case SysNext(ok) => SysDataOwned(g, s, ok);
      case ReconnectFires =>
      case _ => OthersDataOwned(g, s, a);
    }
  }

  /** What a publish call does to the payload buffer. */
  lemma CallerUses(s: State, ok: bool)
    requires s.ch.caller.Call? && PB.OneOwner(s.ch) && PB.Buffered(s.ch)
    ensures var ch' := CallerOp(s, ok).ch;
            if s.ch.caller.at.Submit? && ok then ch'.c.payload == s.ch.caller.m.payload
            else
              && (InUse(ch') ==> InUse(s.ch) && ch'.c.payload == s.ch.c.payload)
              && (ch'.c.publishWork ==> s.ch.c.publishWork) && (Current(ch') ==> Current(s.ch))
  {
    match s.ch.caller.at {
      case Lte => case Helper => case Cas => case Active => case Release =>
      case Payload => case Topic => case Generation => case Token => case Submit =>
    }
  }

  /** An NDATA is offered only by a settled service. */
  lemma CallerKeepsData(g: Config, s: State, ok: bool, p: Past)
    requires s.ch.caller.Call? && DataSettled(s) && DataOlder(s, p) && DataOwned(s) && Birthed(s)
    requires PB.OneOwner(s.ch) && PB.Buffered(s.ch) && Offering(s.svc, s.ch) && Reported(s.q, s.ch) && Tracked(s)
    ensures var s' := CallerOp(s, ok);
            DataSettled(s') && DataOwned(s') && DataOlder(s', Extended(s, CallerNext(ok), s', p))
  {
    CallerUses(s, ok);
    CallerSession(s, ok);
    CallerFlags(s, ok);
    if Settled(s) { StepStaysSettled(g, s, CallerNext(ok)); }
  }

  // -------------------------------------------------------- the invariant

  ghost predicate First(s: State, p: Past) {
    && Steadfast(s) && Birthed(s)
    && BirthStarted(s, p) && DiallingFresh(s, p) && StartedKept(s, p) && BirthAhead(s)
    && DataSettled(s) && DataOlder(s, p) && DataOwned(s)
  }

  ghost predicate Known(g: Config, s: State) {
    Outbox(g, s) && Woke(s) && PS.Sound(g.timing, s.ch) && OneHandler(s) && Anchored(s)
  }

  lemma StepKeepsBirth(g: Config, s: State, a: Action, p: Past)
    requires Known(g, s) && First(s, p) && Enabled(s, a) && OldestFirst(s, a, p)
    ensures var s', p' := Step(g, s, a), Extended(s, a, Step(g, s, a), p);
            BirthStarted(s', p') && DiallingFresh(s', p') && StartedKept(s', p') && BirthAhead(s')
  {
    StepDiallingFresh(g, s, a, p);
    StepStartedKept(g, s, a, p);
    if a.CallerNext? {
      CallerBirthStarted(g, s, a.ok, p);
      CallerBirthAhead(s, a.ok);
    } else {
      StepBirthStarted(g, s, a, p);
      StepBirthAhead(g, s, a, p);
    }
  }

  lemma StepKeepsData(g: Config, s: State, a: Action, p: Past)
    requires Known(g, s) && First(s, p) && Enabled(s, a) && OldestFirst(s, a, p)
    ensures var s', p' := Step(g, s, a), Extended(s, a, Step(g, s, a), p);
            DataSettled(s') && DataOlder(s', p') && DataOwned(s')
  {
    if a.CallerNext? {
      CallerKeepsData(g, s, a.ok, p);
    } else {
      StepDataSettled(g, s, a, p);
      StepDataOlder(g, s, a, p);
      StepDataOwned(g, s, a);
    }
  }

  lemma StepKeepsBirthed(g: Config, s: State, a: Action, p: Past)
    requires Known(g, s) && First(s, p) && Enabled(s, a)
    ensures Birthed(Step(g, s, a))
  {
    if s.svc.birthInFlight { assert Carries(s.svc, s.ch.h.submitted[s.svc.pendingToken].payload); }
    StepBirthed(g, s, a);
    if s.svc.connected && !s.svc.birthPending { StaysBirthed(g, s, a); }
    else if AcksBirth(s, a) { BirthAcked(g, s, p); }
  }

  lemma StepKeepsFirst(g: Config, s: State, a: Action, p: Past)
    requires Known(g, s) && First(s, p) && Enabled(s, a) && OldestFirst(s, a, p)
    ensures First(Step(g, s, a), Extended(s, a, Step(g, s, a), p))
  {
    StepSteadfast(g, s, a);
    StepKeepsBirthed(g, s, a, p);
    StepKeepsBirth(g, s, a, p);
    StepKeepsData(g, s, a, p);
  }

  // ---------------------------------------------------------- over every run

  ghost function PastOf(g: Config, run: seq<Action>): Past
    requires After(g, run).Some?
    decreases |run|
  {
    if run == [] then Past(false, {})
    else
      var before := run[..|run| - 1];
      Extended(After(g, before).value, run[|run| - 1], After(g, run).value, PastOf(g, before))
  }

  /** The MQTT work queue starts the older of a queued publish and connect item first. */
  ghost predicate InOrder(g: Config, run: seq<Action>)
    requires After(g, run).Some?
    decreases |run|
  {
    run == [] ||
      var before := run[..|run| - 1];
      InOrder(g, before) && OldestFirst(After(g, before).value, run[|run| - 1], PastOf(g, before))
  }

  lemma {:induction false} AlwaysAnchored(g: Config, run: seq<Action>)
    requires ValidConfig(g) && After(g, run).Some?
    ensures Anchored(After(g, run).value)
    decreases |run|
  {
    if run != [] {
      AlwaysAnchored(g, run[..|run| - 1]);
      AlwaysOutbox(g, run[..|run| - 1]);
      AlwaysOneHandler(g, run[..|run| - 1]);
      StepAnchored(g, After(g, run[..|run| - 1]).value, run[|run| - 1]);
    }
  }

  lemma AlwaysKnown(g: Config, run: seq<Action>)
    requires ValidConfig(g) && After(g, run).Some?
    ensures Known(g, After(g, run).value)
  {
    AlwaysOutbox(g, run);
    AlwaysWoke(g, run);
    AlwaysSound(g, run);
    AlwaysOneHandler(g, run);
    AlwaysAnchored(g, run);
  }

  lemma {:induction false} AlwaysFirst(g: Config, run: seq<Action>)
    requires ValidConfig(g) && After(g, run).Some? && InOrder(g, run)
    ensures First(After(g, run).value, PastOf(g, run))
    decreases |run|
  {
    if run != [] {
      var before := run[..|run| - 1];
      AlwaysFirst(g, before);
      AlwaysKnown(g, before);
      StepKeepsFirst(g, After(g, before).value, run[|run| - 1], PastOf(g, before));
    }
  }

  /** Whenever an NDATA packet is written, for the first time or again, while the
      helper has a connection, an NBIRTH has been acknowledged in that connection. */
  lemma NbirthComesFirst(g: Config, run: seq<Action>, id: nat, ok: bool)
    requires ValidConfig(g) && After(g, run).Some? && InOrder(g, run)
    requires After(g, run).value.ch.sender.Start?
    ensures var ch, wire := After(g, run).value.ch, Step(g, After(g, run).value, SenderNext(id, ok)).ch.h.wire;
            && |wire| == |ch.h.wire| + 1
            && (wire[|ch.h.wire|].m.payload.Data? && After(g, run).value.link.Up? ==>
                  exists k :: 0 <= k < |ch.h.done| && BirthAckedIn(ch, k, wire[|ch.h.wire|].session))
  {
    AlwaysFirst(g, run);
    var s := After(g, run).value;
    if s.ch.c.payload.Data? && s.link.Up? {
      var k: nat :| SettledBy(s, k);
      assert BirthAckedIn(s.ch, k, s.ch.session);
    }
  }
}

/** When the measurement service asks for a publish, and that batching batches:
    over every run, a publish is asked for exactly when something has happened
    that calls for one and that no publish has been started for since. */
module DeviceRequests {
  import opened Common
  import opened Device
  import opened DeviceFrames
  import opened DeviceOutbox
  import DT = DataTransmission
  import MS = MeasurementService

  /** What calls for a publish. */
  datatype Cause =
    | NewSession | BirthDone | Failed | Refused | StillPending
    | Due(readings: seq<Measurement>)

  /** These readings should be sent: single mode keeps none back, a full buffer
      takes no more, and a sample one interval after the last would be taken at
      or after the end of the batch interval that the first one started. */
  ghost predicate ShouldSend(g: DT.Settings, readings: seq<Measurement>) {
    && readings != []
    && (!g.batch || |readings| >= g.maxSamples || Ends(g, readings))
  }

  ghost predicate Ends(g: DT.Settings, readings: seq<Measurement>)
    requires readings != []
  {
    var first, last := readings[0].timestamp, readings[|readings| - 1].timestamp;
    first <= last && first + g.batchInterval <= last + g.interval
  }

  /** What an acknowledgement of the pending readings leaves behind. */
  function Rest(svc: MS.Service): seq<Measurement> {
    if svc.pendingCount <= |svc.buffer| then svc.buffer[svc.pendingCount..] else svc.buffer
  }

  ghost function DueCause(g: DT.Settings, readings: seq<Measurement>): Option<Cause> {
    if ShouldSend(g, readings) then Some(Due(readings)) else None
  }

  /** The completion of the publish in flight. */
  ghost function ResultCause(g: DT.Settings, svc: MS.Service, token: nat, ok: bool): Option<Cause> {
    if !svc.inFlight || token != svc.pendingToken then None
    else if !ok then Some(Failed)
    else if svc.birthInFlight then Some(BirthDone)
    else DueCause(g, Rest(svc))
  }

  /** A reading that there is room for, while connected and with nothing in flight. */
  ghost function SampleCause(g: DT.Settings, svc: MS.Service, m: Measurement): Option<Cause> {
    if |svc.buffer| >= (if g.batch then g.maxSamples else 1) || !svc.connected || svc.inFlight then None
    else if svc.pendingCount != 0 then Some(StillPending)
    else DueCause(g, svc.buffer + [m])
  }

  /** The client gives the call back without having taken the payload. */
  predicate Refuses(ch: Channel, submits: bool)
    requires ch.caller.Call?
  {
    match ch.caller.at
    case Lte => !ch.c.lte
    case Helper => !ch.c.connected
    case Cas => ch.c.publishPending
    case Release => true
    case Submit => !submits
    case Active => false case Payload => false case Topic => false case Generation => false case Token => false
  }

  ghost function CauseOf(g: Config, s: State, a: Action): Option<Cause>
    requires Enabled(s, a)
  {
    match a
    case HandleEvent =>
      (match s.q[0]
       case MqttConnected => if s.rec.lte && !s.svc.inFlight then Some(NewSession) else None
       case Completed(token, ok) => ResultCause(g.settings, s.svc, token, ok)
       case _ => None)
    case Sample(m) => SampleCause(g.settings, s.svc, m)
    case CallerNext(ok) => if Refuses(s.ch, ok) then Some(Refused) else None
    case _ => None
  }

  /** The service starts a publish, or learns that its connection has ended. */
  predicate Settles(s: State, a: Action)
    requires a.HandleEvent? ==> s.q != []
  {
    match a
    case StartPublish(_) => true
    case HandleEvent => s.q[0].MqttDisconnected? || s.q[0].MqttError?
    case SysNext(_) => (s.sys.LteCas? && !s.ch.c.lte) || (s.sys.Submit? && s.sys.why.LostLte?)
    case _ => false
  }

  /** The latest cause since a publish was last started or a connection ended. */
  ghost function Why(g: Config, run: seq<Action>): Option<Cause>
    requires After(g, run).Some?
    decreases |run|
  {
    if run == [] then None
    else Next(g, After(g, run[..|run| - 1]).value, run[|run| - 1], Why(g, run[..|run| - 1]))
  }

  ghost function Next(g: Config, s: State, a: Action, why: Option<Cause>): Option<Cause>
    requires Enabled(s, a)
  {
    if Settles(s, a) then None else if CauseOf(g, s, a).Some? then CauseOf(g, s, a) else why
  }

  /** The first cause since then. */
  ghost function First(g: Config, run: seq<Action>): Option<Cause>
    requires After(g, run).Some?
    decreases |run|
  {
    if run == [] then None
    else NextFirst(g, After(g, run[..|run| - 1]).value, run[|run| - 1], First(g, run[..|run| - 1]))
  }

  ghost function NextFirst(g: Config, s: State, a: Action, first: Option<Cause>): Option<Cause>
    requires Enabled(s, a)
  {
    if Settles(s, a) then None else if first.Some? then first else CauseOf(g, s, a)
  }

  /** After a publish that failed or was refused the next one waits. */
  function DelayFor(why: Cause): MS.Delay {
    if why.Failed? || why.Refused? then MS.OneInterval else MS.Now
  }

  // ---------------------------------------------------------- the invariant

  /** What holds of the service as long as a cause stands. */
  ghost predicate Stands(g: DT.Settings, svc: MS.Service, why: Cause) {
    && svc.connected && !svc.inFlight
    && match why
       case NewSession => svc.birthPending
       case BirthDone => !svc.birthPending && svc.nextSeq == 1
       case StillPending => svc.pendingCount != 0
       case Due(readings) => readings <= svc.buffer && ShouldSend(g, readings)
       case Failed => true
       case Refused => true
  }

  ghost predicate Asked(g: Config, s: State, why: Option<Cause>) {
    && (s.svc.publishWork <==> why.Some?)
    && (why.Some? ==> s.ch.caller.NoCall? && Stands(g.settings, s.svc, why.value))
    && (s.svc.buffer != [] ==> s.svc.lastSample == s.svc.buffer[|s.svc.buffer| - 1].timestamp)
  }

  lemma FlushMeansDue(g: DT.Settings, readings: seq<Measurement>)
    requires readings != []
    ensures DT.FlushDue(g, readings, readings[|readings| - 1].timestamp) <==> ShouldSend(g, readings)
  {
  }

  lemma SampleAsks(g: Config, s: State, m: Measurement, why: Option<Cause>)
    requires Asked(g, s, why) && Enabled(s, Sample(m))
    ensures Asked(g, Step(g, s, Sample(m)), Next(g, s, Sample(m), why))
  {
    SampledService(g, s.svc, m);
    FlushMeansDue(g.settings, s.svc.buffer + [m]);
  }

  lemma ResultAsks(g: Config, s: State, s': State, token: nat, ok: bool, why: Option<Cause>)
    requires Asked(g, s, why) && InFlight(s.svc, s.ch.h.submitted) && s.ch.caller.NoCall? && s'.ch == s.ch
    requires s'.svc == MS.OnResult(g.settings, s.svc, token, ok)
    ensures var cause := ResultCause(g.settings, s.svc, token, ok);
            Asked(g, s', if cause.Some? then cause else why)
  {
    var rest := Rest(s.svc);
    if rest != [] { FlushMeansDue(g.settings, rest); }
    if s.svc.pendingCount == 0 { assert s.svc.buffer[0..] == s.svc.buffer; }
  }

  lemma CallerAsks(g: Config, s: State, ok: bool, why: Option<Cause>)
    requires Asked(g, s, why) && Enabled(s, CallerNext(ok)) && Offering(s.svc, s.ch)
    ensures Asked(g, Step(g, s, CallerNext(ok)), Next(g, s, CallerNext(ok), why))
  {
    match s.ch.caller.at {
      case Lte => case Helper => case Cas => case Active => case Release => case Payload => case Topic =>
      case Generation => case Token => case Submit =>
    }
  }

  lemma SysService(g: Config, s: State, ok: bool)
    requires !s.sys.SysIdle?
    ensures SysStep(g, s, ok).ch.caller == s.ch.caller
    ensures SysStep(g, s, ok).svc == if Settles(s, SysNext(ok)) then MS.OnDisconnected(s.svc) else s.svc
  {
    match s.sys {
      case LteCas => case LteSet => case Lock(_) => case Submit(_) =>
      case ConnectLte => case ConnectHelper => case ConnectCas => case ConnectSubmit => case PostError =>
    }
  }

  lemma SysAsks(g: Config, s: State, ok: bool, why: Option<Cause>)
    requires Asked(g, s, why) && Enabled(s, SysNext(ok))
    ensures Asked(g, Step(g, s, SysNext(ok)), Next(g, s, SysNext(ok), why))
  {
    SysService(g, s, ok);
  }

  /** The service after an event. */
  function Told(g: Config, s: State, e: Event): MS.Service {
    match e
    case MqttConnected => if s.rec.lte then MS.OnConnected(s.svc) else s.svc
    case MqttDisconnected => MS.OnDisconnected(s.svc)
    case MqttError => MS.OnDisconnected(s.svc)
    case Completed(token, ok) => MS.OnResult(g.settings, s.svc, token, ok)
    case LteLost => s.svc
    case LteConnected => s.svc
  }

  lemma HandleService(g: Config, s: State)
    requires Enabled(s, HandleEvent)
    ensures var s' := Step(g, s, HandleEvent);
            s'.svc == Told(g, s, s.q[0]) && s'.ch == s.ch
  {
    match s.q[0] {
      case Completed(token, ok) =>
      case LteLost => case LteConnected => case MqttConnected => case MqttDisconnected => case MqttError =>
    }
  }

  lemma HandleAsks(g: Config, s: State, why: Option<Cause>)
    requires Asked(g, s, why) && Enabled(s, HandleEvent) && InFlight(s.svc, s.ch.h.submitted)
    requires s.svc.connected ==> !s.q[0].MqttConnected?
    ensures Asked(g, Step(g, s, HandleEvent), Next(g, s, HandleEvent, why))
  {
    HandleService(g, s);
    var e := s.q[0];
    if e.Completed? { ResultAsks(g, s, Step(g, s, HandleEvent), e.token, e.ok, why); }
  }

  lemma StepAsks(g: Config, s: State, a: Action, why: Option<Cause>)
    requires Asked(g, s, why) && Enabled(s, a) && InFlight(s.svc, s.ch.h.submitted) && Offering(s.svc, s.ch)
    requires s.svc.connected && a.HandleEvent? ==> !s.q[0].MqttConnected?
    ensures Asked(g, Step(g, s, a), Next(g, s, a, why))
  {
    match a {
      case HandleEvent => HandleAsks(g, s, why);
      case SysNext(ok) => SysAsks(g, s, ok, why);
      case CallerNext(ok) => CallerAsks(g, s, ok, why);
      case StartPublish(t) =>
      case Sample(m) => SampleAsks(g, s, m, why);
      case _ => ServiceStays(g, s, a);
    }
  }

  lemma ConnectedOnce(g: Config, s: State)
    requires Outbox(g, s) && s.svc.connected && s.q != []
    ensures !s.q[0].MqttConnected?
  {
    PopOrdered(s.h.open, s.q, s.link, s.call);
  }

  lemma {:induction false} AlwaysAsked(g: Config, run: seq<Action>)
    requires ValidConfig(g) && After(g, run).Some?
    ensures Asked(g, After(g, run).value, Why(g, run))
    decreases |run|
  {
    if run != [] {
      var s := After(g, run[..|run| - 1]).value;
      AlwaysAsked(g, run[..|run| - 1]);
      AlwaysOutbox(g, run[..|run| - 1]);
      if s.svc.connected && run[|run| - 1].HandleEvent? { ConnectedOnce(g, s); }
      StepAsks(g, s, run[|run| - 1], Why(g, run[..|run| - 1]));
    }
  }

  // ------------------------------------------------------ what is held back

  /** A connected service that is not sending and has not asked to has no NBIRTH
      to send, no reading that was sent in vain, and nothing that is due. */
  ghost predicate HoldsBack(g: DT.Settings, svc: MS.Service) {
    !svc.birthPending && svc.pendingCount == 0 && !ShouldSend(g, svc.buffer)
  }

  ghost predicate Idle(s: State) {
    s.svc.connected && !s.svc.inFlight && !s.svc.publishWork && s.ch.caller.NoCall?
  }

  ghost predicate Rested(g: Config, s: State) {
    && s.svc.pendingCount <= |s.svc.buffer|
    && (Idle(s) ==> HoldsBack(g.settings, s.svc))
  }

  lemma SampleRests(g: Config, s: State, m: Measurement, why: Option<Cause>)
    requires Rested(g, s) && Asked(g, s, why) && Enabled(s, Sample(m))
    ensures Rested(g, Step(g, s, Sample(m)))
  {
    SampledService(g, s.svc, m);
    FlushMeansDue(g.settings, s.svc.buffer + [m]);
  }

  lemma ResultRests(g: Config, s: State, s': State, token: nat, ok: bool, why: Option<Cause>)
    requires Rested(g, s) && Asked(g, s, why) && InFlight(s.svc, s.ch.h.submitted) && s.ch.caller.NoCall?
    requires s'.ch == s.ch && s'.svc == MS.OnResult(g.settings, s.svc, token, ok)
    ensures Rested(g, s')
  {
    if Rest(s.svc) != [] { FlushMeansDue(g.settings, Rest(s.svc)); }
  }

  lemma CallerRests(g: Config, s: State, ok: bool)
    requires Rested(g, s) && Enabled(s, CallerNext(ok)) && Offering(s.svc, s.ch)
    ensures Rested(g, Step(g, s, CallerNext(ok)))
  {
    match s.ch.caller.at {
      case Lte => case Helper => case Cas => case Active => case Release => case Payload => case Topic =>
      case Generation => case Token => case Submit =>
    }
  }

  lemma HandleRests(g: Config, s: State, why: Option<Cause>)
    requires Rested(g, s) && Asked(g, s, why) && Enabled(s, HandleEvent) && InFlight(s.svc, s.ch.h.submitted)
    ensures Rested(g, Step(g, s, HandleEvent))
  {
    HandleService(g, s);
    var e := s.q[0];
    if e.Completed? { ResultRests(g, s, Step(g, s, HandleEvent), e.token, e.ok, why); }
  }

  lemma StepRests(g: Config, s: State, a: Action, why: Option<Cause>)
    requires Rested(g, s) && Asked(g, s, why) && Enabled(s, a)
    requires InFlight(s.svc, s.ch.h.submitted) && Offering(s.svc, s.ch)
    ensures Rested(g, Step(g, s, a))
  {
    match a {
      case HandleEvent => HandleRests(g, s, why);
      case SysNext(ok) => SysService(g, s, ok);
      case CallerNext(ok) => CallerRests(g, s, ok);
      case StartPublish(t) =>
      case Sample(m) => SampleRests(g, s, m, why);
      case _ => ServiceStays(g, s, a);
    }
  }

  lemma {:induction false} AlwaysRested(g: Config, run: seq<Action>)
    requires ValidConfig(g) && After(g, run).Some?
    ensures Rested(g, After(g, run).value)
    decreases |run|
  {
    if run != [] {
      AlwaysRested(g, run[..|run| - 1]);
      AlwaysAsked(g, run[..|run| - 1]);
      AlwaysOutbox(g, run[..|run| - 1]);
      StepRests(g, After(g, run[..|run| - 1]).value, run[|run| - 1], Why(g, run[..|run| - 1]));
    }
  }

  // ------------------------------------------------------------ the retry delay

  ghost predicate Delayed(svc: MS.Service, first: Option<Cause>) {
    first.Some? == svc.publishWork && (first.Some? ==> svc.publishDelay == DelayFor(first.value))
  }

  lemma SampleDelays(g: Config, s: State, m: Measurement, why: Option<Cause>, first: Option<Cause>)
    requires Delayed(s.svc, first) && Asked(g, s, why) && Enabled(s, Sample(m))
    ensures Delayed(Step(g, s, Sample(m)).svc, NextFirst(g, s, Sample(m), first))
  {
    FlushMeansDue(g.settings, s.svc.buffer + [m]);
  }

  lemma ResultDelays(g: Config, s: State, svc': MS.Service, token: nat, ok: bool, why: Option<Cause>,
                     first: Option<Cause>)
    requires Delayed(s.svc, first) && Asked(g, s, why) && InFlight(s.svc, s.ch.h.submitted)
    requires svc' == MS.OnResult(g.settings, s.svc, token, ok)
    ensures Delayed(svc', if first.Some? then first else ResultCause(g.settings, s.svc, token, ok))
  {
    if Rest(s.svc) != [] { FlushMeansDue(g.settings, Rest(s.svc)); }
  }

  lemma HandleDelays(g: Config, s: State, why: Option<Cause>, first: Option<Cause>)
    requires Delayed(s.svc, first) && Asked(g, s, why) && Enabled(s, HandleEvent)
    requires InFlight(s.svc, s.ch.h.submitted)
    ensures Delayed(Step(g, s, HandleEvent).svc, NextFirst(g, s, HandleEvent, first))
  {
    HandleService(g, s);
    var e := s.q[0];
    if e.Completed? { ResultDelays(g, s, Step(g, s, HandleEvent).svc, e.token, e.ok, why, first); }
  }

  lemma CallerDelays(g: Config, s: State, ok: bool, first: Option<Cause>)
    requires Delayed(s.svc, first) && Enabled(s, CallerNext(ok)) && Offering(s.svc, s.ch)
    ensures Delayed(Step(g, s, CallerNext(ok)).svc, NextFirst(g, s, CallerNext(ok), first))
  {
    match s.ch.caller.at {
      case Lte => case Helper => case Cas => case Active => case Release => case Payload => case Topic =>
      case Generation => case Token => case Submit =>
    }
  }

  lemma StepDelays(g: Config, s: State, a: Action, why: Option<Cause>, first: Option<Cause>)
    requires Delayed(s.svc, first) && Asked(g, s, why) && Enabled(s, a)
    requires InFlight(s.svc, s.ch.h.submitted) && Offering(s.svc, s.ch)
    ensures Delayed(Step(g, s, a).svc, NextFirst(g, s, a, first))
  {
    match a {
      case HandleEvent => HandleDelays(g, s, why, first);
      case SysNext(ok) => SysService(g, s, ok);
      case CallerNext(ok) => CallerDelays(g, s, ok, first);
      case StartPublish(t) =>
      case Sample(m) => SampleDelays(g, s, m, why, first);
      case _ => ServiceStays(g, s, a);
    }
  }

  lemma {:induction false} AlwaysDelayed(g: Config, run: seq<Action>)
    requires ValidConfig(g) && After(g, run).Some?
    ensures Delayed(After(g, run).value.svc, First(g, run))
    decreases |run|
  {
    if run != [] {
      AlwaysDelayed(g, run[..|run| - 1]);
      AlwaysAsked(g, run[..|run| - 1]);
      AlwaysOutbox(g, run[..|run| - 1]);
      StepDelays(g, After(g, run[..|run| - 1]).value, run[|run| - 1], Why(g, run[..|run| - 1]),
        First(g, run[..|run| - 1]));
    }
  }

  // ------------------------------------------------------- what this means

  /** A failed or refused publish is retried a sampling interval later, whatever is
      measured in the meantime; without one, what is asked for starts at once. */
  lemma RetryWaits(g: Config, run: seq<Action>)
    requires ValidConfig(g) && After(g, run).Some? && After(g, run).value.svc.publishWork
    ensures First(g, run).Some?
    ensures After(g, run).value.svc.publishDelay.OneInterval? <==>
              First(g, run).value.Failed? || First(g, run).value.Refused?
  {
    AlwaysDelayed(g, run);
  }

  /** A publish is asked for exactly when something calls for one. */
  lemma AskedIffCalledFor(g: Config, run: seq<Action>)
    requires ValidConfig(g) && After(g, run).Some?
    ensures After(g, run).value.svc.publishWork <==> Why(g, run).Some?
  {
    AlwaysAsked(g, run);
  }

  /** Batching batches: an NDATA is offered only as the first after its NBIRTH,
      after a publish that failed or was refused, while readings sent in vain are
      pending, or because its oldest readings fill the buffer or reach the end of
      the batch interval. It carries all buffered readings. An NBIRTH carries
      the time at which it is made. */
  lemma NdataIsCalledFor(g: Config, run: seq<Action>, t: uint64)
    requires ValidConfig(g) && After(g, run + [StartPublish(t)]).Some?
    ensures After(g, run).Some? && Why(g, run).Some?
    ensures var s, caller := After(g, run).value, After(g, run + [StartPublish(t)]).value.ch.caller;
            caller.Call? ==>
              match caller.m.payload
              case Birth(time, bdSeq) => time == t && bdSeq == s.svc.bdSeq
              case Data(current, readings) =>
                && readings == s.svc.buffer && current == s.svc.nextSeq
                && match Why(g, run).value
                   case NewSession => false
                   case BirthDone => current == 1
                   case Failed => true
                   case Refused => true
                   case StillPending => s.svc.pendingCount != 0
                   case Due(some) => some <= readings && ShouldSend(g.settings, some)
  {
    assert (run + [StartPublish(t)])[..|run|] == run;
    AlwaysAsked(g, run);
  }

  /** What a connected service keeps back is never old: in single mode nothing,
      and in batch mode less than a full buffer whose readings, as long as the
      clock does not go back, span less than the batch interval minus a sample. */
  lemma NothingOldIsHeldBack(g: Config, run: seq<Action>)
    requires ValidConfig(g) && After(g, run).Some? && Idle(After(g, run).value)
    ensures var svc := After(g, run).value.svc;
            && !svc.birthPending && svc.pendingCount == 0
            && (svc.buffer != [] ==>
                  && g.settings.batch && |svc.buffer| < g.settings.maxSamples
                  && var first, last := svc.buffer[0].timestamp, svc.buffer[|svc.buffer| - 1].timestamp;
                     last < first || last - first < g.settings.batchInterval - g.settings.interval)
  {
    AlwaysRested(g, run);
  }

  lemma RegularMeansCount(g: DT.Settings, readings: seq<Measurement>)
    requires DT.ValidSettings(g) && g.batch && DT.Regular(g, readings)
    ensures ShouldSend(g, readings) <==> readings != [] && |readings| >= DT.FlushCount(g)
  {
    if readings != [] {
      DT.FlushesAtCount(g, readings);
      FlushMeansDue(g, readings);
    }
  }

  /** With a sample every interval, what is held back is less than a batch, and
      what is due is at least one. */
  lemma RegularBatches(g: Config, run: seq<Action>, readings: seq<Measurement>)
    requires ValidConfig(g) && After(g, run).Some? && g.settings.batch && DT.Regular(g.settings, readings)
    requires readings != []
    ensures Idle(After(g, run).value) && readings == After(g, run).value.svc.buffer ==>
              |readings| < DT.FlushCount(g.settings)
    ensures Why(g, run) == Some(Due(readings)) ==> |readings| >= DT.FlushCount(g.settings)
  {
    AlwaysAsked(g, run);
    AlwaysRested(g, run);
    RegularMeansCount(g.settings, readings);
  }

  // ------------------------------------------------- the service's counters

  /** The size of the last NDATA that the client took, until it is acknowledged. */
  ghost function Unacknowledged(g: Config, run: seq<Action>): nat
    requires After(g, run).Some?
    decreases |run|
  {
    if run == [] then 0
    else NextUnacknowledged(After(g, run[..|run| - 1]).value, run[|run| - 1], Unacknowledged(g, run[..|run| - 1]))
  }

  ghost function NextUnacknowledged(s: State, a: Action, n: nat): nat
    requires Enabled(s, a)
  {
    match a
    case CallerNext(ok) =>
      var b := s.ch.caller.m.payload;
      if s.ch.caller.at.Submit? && ok && b.Data? then |b.readings| else n
    case HandleEvent =>
      (match s.q[0]
       case Completed(token, ok) =>
         if ok && s.svc.inFlight && token == s.svc.pendingToken && !s.svc.birthInFlight then 0 else n
       case _ => n)
    case _ => n
  }

  /** The samples for which there was no room. */
  ghost function Skipped(g: Config, run: seq<Action>): nat
    requires After(g, run).Some?
    decreases |run|
  {
    if run == [] then 0
    else NextSkipped(g, After(g, run[..|run| - 1]).value, run[|run| - 1], Skipped(g, run[..|run| - 1]))
  }

  ghost function NextSkipped(g: Config, s: State, a: Action, n: nat): nat {
    if a.Sample? && |s.svc.buffer| >= (if g.settings.batch then g.settings.maxSamples else 1) then n + 1 else n
  }

  ghost predicate Counted(svc: MS.Service, pending: nat, skipped: nat) {
    svc.pendingCount == pending && svc.dropped == if skipped <= 0xffff_ffff then skipped else 0xffff_ffff
  }

  lemma CallerCounts(g: Config, s: State, ok: bool)
    requires Enabled(s, CallerNext(ok))
    ensures var m, svc := s.ch.caller.m, Step(g, s, CallerNext(ok)).svc;
            && svc.dropped == s.svc.dropped
            && svc.pendingCount == if s.ch.caller.at.Submit? && ok && m.payload.Data? then |m.payload.readings|
                                   else s.svc.pendingCount
  {
    match s.ch.caller.at {
      case Lte => case Helper => case Cas => case Active => case Release => case Payload => case Topic =>
      case Generation => case Token => case Submit =>
    }
  }

  lemma ResultCounts(g: DT.Settings, svc: MS.Service, token: nat, ok: bool)
    ensures var svc', acked := MS.OnResult(g, svc, token, ok),
              ok && svc.inFlight && token == svc.pendingToken && !svc.birthInFlight;
            svc'.dropped == svc.dropped && svc'.pendingCount == if acked then 0 else svc.pendingCount
  {
  }

  lemma HandleCounts(g: Config, s: State, pending: nat, skipped: nat)
    requires Counted(s.svc, pending, skipped) && Enabled(s, HandleEvent)
    ensures Counted(Step(g, s, HandleEvent).svc, NextUnacknowledged(s, HandleEvent, pending), skipped)
  {
    HandleService(g, s);
    var e := s.q[0];
    if e.Completed? { ResultCounts(g.settings, s.svc, e.token, e.ok); }
  }

  lemma StepCounts(g: Config, s: State, a: Action, pending: nat, skipped: nat)
    requires Counted(s.svc, pending, skipped) && Enabled(s, a)
    ensures Counted(Step(g, s, a).svc, NextUnacknowledged(s, a, pending), NextSkipped(g, s, a, skipped))
  {
    match a {
      case HandleEvent => HandleCounts(g, s, pending, skipped);
      case CallerNext(ok) => CallerCounts(g, s, ok);
      case SysNext(ok) => SysService(g, s, ok);
      case StartPublish(_) =>
      case Sample(m) => SampledService(g, s.svc, m);
      case _ => ServiceStays(g, s, a);
    }
  }

  /** The service counts the samples it had no room for, up to 2^32 - 1, and
      remembers how many readings it has sent without an acknowledgement. */
  lemma {:induction false} CountersAreExact(g: Config, run: seq<Action>)
    requires ValidConfig(g) && After(g, run).Some?
    ensures Counted(After(g, run).value.svc, Unacknowledged(g, run), Skipped(g, run))
    decreases |run|
  {
    if run != [] {
      CountersAreExact(g, run[..|run| - 1]);
      StepCounts(g, After(g, run[..|run| - 1]).value, run[|run| - 1],
        Unacknowledged(g, run[..|run| - 1]), Skipped(g, run[..|run| - 1]));
    }
  }
}

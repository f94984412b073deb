/** The outbox of the full firmware: over any interleaving of samples, publishes,
    failures, disconnects and stale completions, what was accepted is what was
    committed followed by what is buffered; a commit removes exactly the readings
    of the acknowledged payload; and every session starts with its NBIRTH and
    numbers its acknowledged messages without gap. */
module DeviceOutbox {
  import opened Common
  import opened Device
  import opened DeviceFrames
  import opened DeviceSound
  import MC = MqttClient
  import MS = MeasurementService
  import RP = ReconnectPolicy
  import PP = PublishProtocol
  import PB = PublishBuffer
  import DT = DataTransmission
  import S = Sparkplug
  import O = Outbox

  type Log = PP.Log<S.MessageType, MS.Body>
  type Submitted = map<nat, Message>

  // ---------------------------------------------------------- the invariant

  ghost predicate Kept(g: Config, svc: MS.Service, h: History) {
    h.accepted == h.committed + svc.buffer && |svc.buffer| <= DT.Capacity(g.settings)
  }

  /** What the publish in flight carries. */
  ghost predicate Carries(svc: MS.Service, b: MS.Body) {
    if svc.birthInFlight then svc.birthPending && b.Birth? && b.bdSeq == svc.bdSeq
    else
      && !svc.birthPending && 0 < svc.pendingCount <= |svc.buffer|
      && b == MS.Data(svc.nextSeq, svc.buffer[..svc.pendingCount])
  }

  ghost predicate InFlight(svc: MS.Service, submitted: Submitted) {
    && (svc.birthInFlight ==> svc.inFlight)
    && (svc.inFlight ==>
          && svc.connected && svc.pendingToken in submitted
          && submitted[svc.pendingToken].topic == MS.TopicOf(submitted[svc.pendingToken].payload)
          && Carries(svc, submitted[svc.pendingToken].payload))
  }

  /** What publish_buffer offers the client. */
  ghost predicate Offered(svc: MS.Service, b: MS.Body) {
    if svc.birthPending then b.Birth? && b.bdSeq == svc.bdSeq
      else svc.buffer != [] && b == MS.Data(svc.nextSeq, svc.buffer)
  }

  ghost predicate Offering(svc: MS.Service, ch: Channel) {
    ch.caller.Call? ==>
      && svc.connected && !svc.inFlight
      && ch.caller.m.topic == MS.TopicOf(ch.caller.m.payload)
      && Offered(svc, ch.caller.m.payload)
      && (ch.caller.at.Submit? ==>
         ch.c.publishToken in ch.h.submitted && ch.h.submitted[ch.c.publishToken] == ch.caller.m)
  }

  ghost predicate Session(svc: MS.Service, h: History) {
    && O.Numbered(h.acks)
    && (svc.connected ==>
       h.open && (svc.birthPending <==> h.acks == []) && (h.acks != [] ==> svc.nextSeq == |h.acks| % 256))
  }

  /** Whether the connection is open after the queued events are handled. */
  function Final(open: bool, q: seq<Event>): bool {
    if q == [] then open
    else match q[|q| - 1] case MqttConnected => true case MqttDisconnected => false case _ => Final(open, q[..|q| - 1])
  }

  ghost predicate Alternates(open: bool, q: seq<Event>) {
    forall i :: 0 <= i < |q| && q[i].MqttConnected? ==> !Final(open, q[..i])
  }

  /** Between two MQTT_CONNECTED events there is always an MQTT_DISCONNECTED. */
  ghost predicate Ordered(open: bool, q: seq<Event>, link: Link, call: Callback) {
    && Alternates(open, q)
    && (Final(open, q) ==> link.Up? || call.DownLock? || call.DownPost?)
    && (ComingUp(call) ==> link.Up? && !Final(open, q))
  }

  ghost predicate Decided(done: seq<PP.Done>, token: nat, ok: bool) {
    exists k :: 0 <= k < |done| && done[k].token == token && done[k].ok == ok
  }

  /** Every completion on its way to the service was decided by the client. */
  ghost predicate Reported(q: seq<Event>, ch: Channel) {
    && (forall i :: 0 <= i < |q| && q[i].Completed? ==> Decided(ch.h.done, q[i].token, q[i].ok))
    && (ch.posting.Some? ==> Decided(ch.h.done, ch.posting.value.0, ch.posting.value.1))
    && (ch.sender.Failing? ==> Decided(ch.h.done, ch.sender.token, false))
  }

  function ReadingsOf(submitted: Submitted, token: nat): seq<Measurement> {
    if token in submitted && submitted[token].payload.Data? then submitted[token].payload.readings else []
  }

  /** The readings of the payloads handed over under these tokens, in order. */
  function Readings(submitted: Submitted, tokens: seq<nat>): seq<Measurement> {
    if tokens == [] then []
    else Readings(submitted, tokens[..|tokens| - 1]) + ReadingsOf(submitted, tokens[|tokens| - 1])
  }

  /** What was committed is the contents of successfully completed NDATA. */
  ghost predicate Justified(h: History, log: Log) {
    && h.committed == Readings(log.submitted, h.commits)
    && forall i :: 0 <= i < |h.commits| ==> h.commits[i] in log.submitted && Decided(log.done, h.commits[i], true)
  }

  ghost predicate Gate(svc: MS.Service, rec: RP.State) {
    svc.connected ==> rec.lte
  }

  ghost predicate Core(g: Config, s: State) {
    && Kept(g, s.svc, s.h) && InFlight(s.svc, s.ch.h.submitted) && Offering(s.svc, s.ch) && Session(s.svc, s.h)
    && Justified(s.h, s.ch.h) && Gate(s.svc, s.rec)
  }

  ghost predicate Events(s: State) {
    Ordered(s.h.open, s.q, s.link, s.call) && Reported(s.q, s.ch)
  }

  ghost predicate Outbox(g: Config, s: State) {
    Core(g, s) && Events(s)
  }

  // ------------------------------------------------------- the event queue

  lemma {:induction false} FinalPop(open: bool, q: seq<Event>)
    requires q != []
    ensures Final(open, q) == Final(Final(open, q[..1]), q[1..])
  {
    if |q| > 1 {
      FinalPop(open, q[..|q| - 1]);
      assert q[..|q| - 1][..1] == q[..1] && q[1..][..|q| - 2] == q[..|q| - 1][1..];
    } else {
      assert q[..1] == q && q[..0] == [];
    }
  }

  lemma PopOrdered(open: bool, q: seq<Event>, link: Link, call: Callback)
    requires q != [] && Ordered(open, q, link, call)
    ensures Ordered(Final(open, q[..1]), q[1..], link, call)
    ensures q[0].MqttConnected? ==> !open
    ensures Final(open, q[..1]) == match q[0] case MqttConnected => true case MqttDisconnected => false case _ => open
  {
    FinalPop(open, q);
    assert q[..1][..0] == [] && q[..1][0] == q[0];
    forall i | 0 <= i < |q[1..]| && q[1..][i].MqttConnected?
      ensures !Final(Final(open, q[..1]), q[1..][..i])
    {
      FinalPop(open, q[..i + 1]);
      assert q[..i + 1][..1] == q[..1] && q[..i + 1][1..] == q[1..][..i];
    }
    assert q[..0] == [];
  }

  lemma PushOrdered(open: bool, q: seq<Event>, e: Event, link: Link, call: Callback)
    requires Alternates(open, q) && (e.MqttConnected? ==> !Final(open, q))
    ensures Alternates(open, q + [e])
    ensures Final(open, q + [e]) == match e case MqttConnected => true case MqttDisconnected => false
            case _ => Final(open, q)
  {
    var q' := q + [e];
    assert q'[..|q|] == q;
    forall i | 0 <= i < |q'| && q'[i].MqttConnected?
      ensures !Final(open, q'[..i])
    {
      assert q'[..i] == q[..i];
    }
  }

  lemma DecidedKept(done: seq<PP.Done>, done': seq<PP.Done>, token: nat, ok: bool)
    requires Decided(done, token, ok) && done <= done'
    ensures Decided(done', token, ok)
  {
    var k :| 0 <= k < |done| && done[k].token == token && done[k].ok == ok;
    assert done'[k] == done[k];
  }

  lemma QueueDecided(q: seq<Event>, ch: Channel, done': seq<PP.Done>)
    requires Reported(q, ch) && ch.h.done <= done'
    ensures forall i :: 0 <= i < |q| && q[i].Completed? ==> Decided(done', q[i].token, q[i].ok)
  {
    forall i | 0 <= i < |q| && q[i].Completed?
      ensures Decided(done', q[i].token, q[i].ok)
    {
      DecidedKept(ch.h.done, done', q[i].token, q[i].ok);
    }
  }

  /** Steps that post one event and decide nothing. */
  lemma PostReported(q: seq<Event>, ch: Channel, e: Event, ch': Channel)
    requires Reported(q, ch) && (e.Completed? ==> Decided(ch.h.done, e.token, e.ok))
    requires ch'.h.done == ch.h.done && (ch'.posting == ch.posting || ch'.posting == None)
    requires (ch'.sender.Failing? ==> ch'.sender == ch.sender)
    ensures Reported(q + [e], ch') && Reported(q, ch')
  {
  }

  lemma SendReported(g: Config, s: State, id: nat, ok: bool)
    requires !s.ch.sender.Rest? && !s.ch.sender.Retry? && Reported(s.q, s.ch)
    ensures Reported(SenderOp(g, s, id, ok).q, SenderOp(g, s, id, ok).ch)
    ensures s.ch.h.done <= SenderOp(g, s, id, ok).ch.h.done
  {
    var ch' := PP.SendStep(g.timing, s.ch, id, ok);
    if s.ch.sender.Written? && MC.SendFailed(s.ch.c, s.ch.sender.id, s.ch.sender.job, s.ch.sender.ok) {
      QueueDecided(s.q, s.ch, ch'.h.done);
      if s.ch.posting.Some? { DecidedKept(s.ch.h.done, ch'.h.done, s.ch.posting.value.0, s.ch.posting.value.1); }
      assert ch'.h.done[|s.ch.h.done|].token == s.ch.sender.token;
    } else {
      PostReported(s.q, s.ch, if s.ch.sender.Failing? then Completed(s.ch.sender.token, false) else MqttError, ch');
    }
  }

  lemma PubackReported(s: State, id: nat, ok: bool)
    requires Reported(s.q, s.ch) && CallFree(s)
    ensures Reported(s.q, PP.PubackStep(s.ch, id, ok)) && s.ch.h.done <= PP.PubackStep(s.ch, id, ok).h.done
  {
    var ch' := PP.PubackStep(s.ch, id, ok);
    QueueDecided(s.q, s.ch, ch'.h.done);
    if MC.Acknowledges(s.ch.c, id) {
      assert ch'.h.done[|s.ch.h.done|].token == s.ch.c.activeToken;
      if s.ch.sender.Failing? { DecidedKept(s.ch.h.done, ch'.h.done, s.ch.sender.token, false); }
    }
  }

  // ------------------------------------------------------------ the service

  lemma {:induction false} ReadingsKept(submitted: Submitted, submitted': Submitted, tokens: seq<nat>)
    requires forall t :: t in submitted ==> t in submitted' && submitted'[t] == submitted[t]
    requires forall i :: 0 <= i < |tokens| ==> tokens[i] in submitted
    ensures Readings(submitted', tokens) == Readings(submitted, tokens)
  {
    if tokens != [] { ReadingsKept(submitted, submitted', tokens[..|tokens| - 1]); }
  }

  /** Steps that leave the service and its history alone. */
  lemma FrameCore(g: Config, s: State, s': State)
    requires Core(g, s) && s'.svc == s.svc && s'.h == s.h && s'.rec.lte == s.rec.lte
    requires s'.ch.caller == s.ch.caller && s'.ch.c.publishToken == s.ch.c.publishToken
    requires s'.ch.h.submitted == s.ch.h.submitted && s.ch.h.done <= s'.ch.h.done
    ensures Core(g, s')
  {
    forall i | 0 <= i < |s.h.commits|
      ensures Decided(s'.ch.h.done, s.h.commits[i], true)
    {
      DecidedKept(s.ch.h.done, s'.ch.h.done, s.h.commits[i], true);
    }
  }

  lemma SampleKeepsCore(g: Config, s: State, m: Measurement)
    requires Core(g, s) && SysFree(s)
    ensures Core(g, Step(g, s, Sample(m)))
  {
    var svc, svc' := s.svc, MS.Sampled(g.settings, s.svc, m);
    SampledService(g, svc, m);
    assert svc.pendingCount <= |svc.buffer| ==> svc'.buffer[..svc.pendingCount] == svc.buffer[..svc.pendingCount];
  }

  lemma SampledService(g: Config, svc: MS.Service, m: Measurement)
    ensures var svc' := MS.Sampled(g.settings, svc, m);
            && svc'.buffer == (if |svc.buffer| < DT.Capacity(g.settings) then svc.buffer + [m] else svc.buffer)
            && svc' == svc.(buffer := svc'.buffer, lastSample := svc'.lastSample, publishWork := svc'.publishWork,
               publishDelay := svc'.publishDelay, dropped := svc'.dropped)
  {
  }

  lemma DisconnectKeepsCore(g: Config, s: State, s': State)
    requires Core(g, s) && s'.ch.caller.NoCall? && s'.svc == MS.OnDisconnected(s.svc) && s'.ch.h == s.ch.h
    requires s'.h == s.h.(open := s'.h.open)
    ensures Core(g, s')
  {
  }

  lemma ConnectKeepsCore(g: Config, s: State, s': State)
    requires Core(g, s) && s'.ch == s.ch && s.ch.caller.NoCall? && !s.h.open && s.rec.lte && s'.rec.lte
    requires s'.svc == MS.OnConnected(s.svc) && s'.h == s.h.(open := true, acks := [])
    ensures Core(g, s')
  {
  }

  /** The service after a completion it accepts, apart from its publish request. */
  ghost predicate Answered(svc: MS.Service, svc': MS.Service, ok: bool) {
    && svc'.connected == svc.connected && svc'.bdSeq == svc.bdSeq && !svc'.inFlight && !svc'.birthInFlight
    && if svc.birthInFlight then
         && svc'.buffer == svc.buffer
         && svc'.birthPending == (svc.birthPending && !ok)
         && svc'.nextSeq == (if ok then 1 else svc.nextSeq)
       else
         && svc'.birthPending == svc.birthPending
         && if ok && 0 < svc.pendingCount <= |svc.buffer|
            then svc'.buffer == svc.buffer[svc.pendingCount..] && svc'.nextSeq == NextSeq(svc.nextSeq)
            else svc'.buffer == svc.buffer && svc'.nextSeq == svc.nextSeq
  }

  lemma ResultAnswers(g: Config, svc: MS.Service, token: nat, ok: bool)
    requires MS.Accepts(svc, token)
    ensures Answered(svc, MS.OnResult(g.settings, svc, token, ok), ok)
  {
  }

  /** A session's bookkeeping when its next message is acknowledged. */
  lemma AckNumbered(svc: MS.Service, svc': MS.Service, h: History, h': History, b: MS.Body)
    requires Session(svc, h) && svc.inFlight && svc.connected && Carries(svc, b) && Answered(svc, svc', true)
    requires h'.acks == h.acks + [b] && h'.open == h.open
    ensures Session(svc', h')
  {
  }

  lemma CommitJustified(h: History, h': History, log: Log, token: nat, b: MS.Body)
    requires Justified(h, log) && token in log.submitted && log.submitted[token].payload == b && b.Data?
    requires Decided(log.done, token, true)
    requires h'.commits == h.commits + [token] && h'.committed == h.committed + b.readings
    ensures Justified(h', log)
  {
    assert h'.commits[..|h.commits|] == h.commits;
  }

  lemma FailureKeepsCore(g: Config, s: State, s': State, token: nat)
    requires Core(g, s) && s.ch.caller.NoCall? && MS.Accepts(s.svc, token)
    requires Answered(s.svc, s'.svc, false) && s'.h == s.h && s'.ch == s.ch && s'.rec == s.rec
    ensures Core(g, s')
  {
  }

  lemma BirthKeepsCore(g: Config, s: State, s': State, token: nat)
    requires Core(g, s) && s.ch.caller.NoCall? && MS.Accepts(s.svc, token) && s.svc.birthInFlight
    requires Answered(s.svc, s'.svc, true) && s'.h == s.h.(acks := s.h.acks + [s.ch.h.submitted[token].payload])
    requires s'.ch == s.ch && s'.rec == s.rec
    ensures Core(g, s')
  {
    AckNumbered(s.svc, s'.svc, s.h, s'.h, s.ch.h.submitted[token].payload);
  }

  lemma DataKeepsCore(g: Config, s: State, s': State, token: nat)
    requires Core(g, s) && s.ch.caller.NoCall? && MS.Accepts(s.svc, token) && !s.svc.birthInFlight
    requires Decided(s.ch.h.done, token, true)
    requires Answered(s.svc, s'.svc, true) && s'.ch == s.ch && s'.rec == s.rec
    requires s'.h == s.h.(committed := s.h.committed + s.svc.buffer[..s.svc.pendingCount],
                          commits := s.h.commits + [token],
                          acks := s.h.acks + [s.ch.h.submitted[token].payload])
    ensures Core(g, s')
  {
    var b := s.ch.h.submitted[token].payload;
    assert s.svc.buffer == s.svc.buffer[..s.svc.pendingCount] + s'.svc.buffer;
    AckNumbered(s.svc, s'.svc, s.h, s'.h, b);
    CommitJustified(s.h, s'.h, s.ch.h, token, b);
  }

  lemma CompleteKeepsCore(g: Config, s: State, token: nat, ok: bool)
    requires Core(g, s) && s.ch.caller.NoCall? && Decided(s.ch.h.done, token, ok)
    ensures Core(g, Complete(g, s, token, ok))
  {
    var s' := Complete(g, s, token, ok);
    assert s.h.committed + [] == s.h.committed;
    if !MS.Accepts(s.svc, token) {
      FrameCore(g, s, s');
    } else {
      ResultAnswers(g, s.svc, token, ok);
      if !ok { FailureKeepsCore(g, s, s', token); }
      else if s.svc.birthInFlight { BirthKeepsCore(g, s, s', token); }
      else { DataKeepsCore(g, s, s', token); }
    }
  }

  // ---------------------------------------------------------- the handlers

  lemma BeginKeepsCore(g: Config, s: State, timestampMs: uint64)
    requires Core(g, s) && SysFree(s)
    ensures Core(g, BeginPublish(s, timestampMs))
  {
  }

  /** The caller's operations before it has a token change nothing the service knows. */
  lemma CallKeepsCore(g: Config, s: State, ok: bool)
    requires Core(g, s) && s.ch.caller.Call? && !s.ch.caller.at.Token? && !s.ch.caller.at.Submit?
    ensures Core(g, CallerOp(s, ok))
  {
    var s' := CallerOp(s, ok);
    var ch, ch' := s.ch, s'.ch;
    assert ch'.h == ch.h && ch'.c.publishToken == ch.c.publishToken
           && (ch'.caller.Call? ==> ch'.caller.m == ch.caller.m && !ch'.caller.at.Submit?);
    assert s'.svc == s.svc || s'.svc == s.svc.(publishWork := true, publishDelay := s'.svc.publishDelay);
  }

  lemma TokenKeepsCore(g: Config, s: State, ok: bool)
    requires Core(g, s) && s.ch.caller.Call? && s.ch.caller.at.Token? && PB.Buffered(s.ch)
    ensures Core(g, CallerOp(s, ok))
  {
    var s' := CallerOp(s, ok);
    assert s.ch.c.nextToken + 1 !in s.ch.h.submitted;
    ReadingsKept(s.ch.h.submitted, s'.ch.h.submitted, s.h.commits);
  }

  lemma SubmitKeepsCore(g: Config, s: State, ok: bool)
    requires Core(g, s) && s.ch.caller.Call? && s.ch.caller.at.Submit?
    ensures Core(g, CallerOp(s, ok))
  {
    var b := s.ch.caller.m.payload;
    if b.Data? { assert s.svc.buffer[..|s.svc.buffer|] == s.svc.buffer; }
  }

  lemma CallerKeeps(g: Config, s: State, ok: bool)
    requires Outbox(g, s) && s.ch.caller.Call? && PB.Buffered(s.ch)
    ensures Outbox(g, CallerOp(s, ok))
  {
    if s.ch.caller.at.Token? { TokenKeepsCore(g, s, ok); }
    else if s.ch.caller.at.Submit? { SubmitKeepsCore(g, s, ok); }
    else { CallKeepsCore(g, s, ok); }
    PB.CallerFrame(s.ch, ok);
  }

  /** The reconnect policy touches nothing of the outbox but the LTE flag. */
  lemma ApplyKeeps(g: Config, s: State, e: RP.Event)
    requires Outbox(g, s) && (e == RP.LteDown ==> !s.svc.connected)
    ensures Outbox(g, Apply(g, s, e))
  {
    var s' := Apply(g, s, e);
    assert s.rec.lte && e != RP.LteDown ==> s'.rec.lte;
    assert s'.svc == s.svc && s'.h == s.h && s'.ch == s.ch;
  }

  lemma LoseKeeps(g: Config, s: State)
    requires Outbox(g, s) && s.ch.caller.NoCall?
    ensures Outbox(g, LoseLte(g, s))
  {
    var s' := s.(svc := MS.OnDisconnected(s.svc));
    DisconnectKeepsCore(g, s, s');
    ApplyKeeps(g, s', RP.LteDown);
  }

  lemma CompletedKeeps(g: Config, s: State, token: nat, ok: bool)
    requires Outbox(g, s) && s.ch.caller.NoCall? && Decided(s.ch.h.done, token, ok)
    ensures Outbox(g, Complete(g, s, token, ok))
  {
    CompleteKeepsCore(g, s, token, ok);
    assert Complete(g, s, token, ok).h.open == s.h.open;
  }

  lemma ConnectedKeeps(g: Config, s: State, s1: State)
    requires Outbox(g, s) && SysFree(s) && s.q != [] && s.q[0].MqttConnected?
    requires s1 == s.(q := s.q[1..])
    ensures Outbox(g, Dispatch(g, s1, MqttConnected))
  {
    PopOrdered(s.h.open, s.q, s.link, s.call);
    var s' := s1.(h := s1.h.(open := true));
    if s.rec.lte {
      var s2 := s'.(svc := MS.OnConnected(s'.svc), h := s'.h.(acks := []));
      ConnectKeepsCore(g, s1, s2);
      ApplyKeeps(g, s2, RP.MqttUp);
    }
  }

  lemma DisconnectedKeeps(g: Config, s: State, s1: State)
    requires Outbox(g, s) && SysFree(s) && s.q != [] && s.q[0].MqttDisconnected?
    requires s1 == s.(q := s.q[1..])
    ensures Outbox(g, Dispatch(g, s1, MqttDisconnected))
  {
    PopOrdered(s.h.open, s.q, s.link, s.call);
    var s2 := s1.(svc := MS.OnDisconnected(s1.svc), h := s1.h.(open := false));
    DisconnectKeepsCore(g, s1, s2);
    ApplyKeeps(g, s2, RP.Failure);
  }

  lemma HandleKeeps(g: Config, s: State)
    requires Outbox(g, s) && SysFree(s) && s.q != []
    ensures Outbox(g, Dispatch(g, s.(q := s.q[1..]), s.q[0]))
  {
    var s1 := s.(q := s.q[1..]);
    match s.q[0] {
      case MqttConnected => ConnectedKeeps(g, s, s1);
      case MqttDisconnected => DisconnectedKeeps(g, s, s1);
      case LteLost => PopKeeps(g, s);
      case LteConnected => PopKeeps(g, s);
      case MqttError =>
        PopKeeps(g, s);
        var s2 := s1.(svc := MS.OnDisconnected(s.svc));
        DisconnectKeepsCore(g, s1, s2);
        if !s.rec.lte { ApplyKeeps(g, s2, RP.Failure); }
      case Completed(token, ok) =>
        PopKeeps(g, s);
        CompletedKeeps(g, s1, token, ok);
    }
  }

  lemma PopKeeps(g: Config, s: State)
    requires Outbox(g, s) && s.q != [] && !s.q[0].MqttConnected? && !s.q[0].MqttDisconnected?
    ensures Outbox(g, s.(q := s.q[1..]))
  {
    PopOrdered(s.h.open, s.q, s.link, s.call);
    FrameCore(g, s, s.(q := s.q[1..]));
  }

  /** Posting an event that is no connection event and no completion. */
  lemma PostKeeps(g: Config, s: State, s': State, e: Event)
    requires Outbox(g, s) && !e.MqttConnected? && !e.MqttDisconnected? && !e.Completed?
    requires s'.q == s.q + [e] && s'.ch == s.ch && s'.svc == s.svc && s'.h == s.h && s'.rec == s.rec
    requires s'.link == s.link
    requires s'.call == s.call || (!ComingUp(s'.call) && !s.call.DownLock? && !s.call.DownPost?)
    ensures Outbox(g, s')
  {
    PushOrdered(s.h.open, s.q, e, s.link, s.call);
    FrameCore(g, s, s');
  }

  /** Only the connection's bookkeeping changes, and at most an error is posted. */
  ghost predicate Bookkeeping(s: State, s': State) {
    && s'.svc == s.svc && s'.h == s.h && s'.rec == s.rec && s'.call == s.call && s'.link == s.link
    && s'.ch.caller == s.ch.caller && s'.ch.sender == s.ch.sender && s'.ch.posting == s.ch.posting && s'.ch.h == s.ch.h
    && s'.ch.c.publishToken == s.ch.c.publishToken && (s'.q == s.q || s'.q == s.q + [MqttError])
  }

  lemma BookkeepingKeeps(g: Config, s: State, s': State)
    requires Outbox(g, s) && Bookkeeping(s, s')
    ensures Outbox(g, s')
  {
    FrameCore(g, s, s');
    PushOrdered(s.h.open, s.q, MqttError, s.link, s.call);
    PostReported(s.q, s.ch, MqttError, s'.ch);
  }

  lemma ConnectIsBookkeeping(g: Config, s: State, ok: bool)
    requires !s.sys.LteCas? && !s.sys.LteSet? && !s.sys.Submit?
    ensures Bookkeeping(s, SysStep(g, s, ok))
  {
    match s.sys {
      case SysIdle => case Lock(_) => case ConnectLte => case ConnectHelper => case ConnectCas => case ConnectSubmit =>
      case PostError =>
    }
  }

  lemma SysKeeps(g: Config, s: State, ok: bool)
    requires Outbox(g, s) && s.ch.caller.NoCall?
    ensures Outbox(g, SysStep(g, s, ok))
  {
    match s.sys {
      case LteCas => if !s.ch.c.lte { LoseKeeps(g, s); } else { CasKeeps(g, s); }
      case LteSet => SetKeeps(g, s);
      case Submit(why) => SubmitKeeps(g, s, why);
      case _ =>
        ConnectIsBookkeeping(g, s, ok);
        BookkeepingKeeps(g, s, SysStep(g, s, ok));
    }
  }

  lemma CasKeeps(g: Config, s: State)
    requires Outbox(g, s)
    ensures Outbox(g, WithClient(s.(sys := Lock(LostLte)), s.ch.c.(lte := false)))
  {
    BookkeepingKeeps(g, s, WithClient(s.(sys := Lock(LostLte)), s.ch.c.(lte := false)));
  }

  lemma SetKeeps(g: Config, s: State)
    requires Outbox(g, s)
    ensures Outbox(g, Apply(g, WithClient(s, s.ch.c.(lte := true)), RP.LteUp))
  {
    var s1 := WithClient(s, s.ch.c.(lte := true));
    BookkeepingKeeps(g, s, s1);
    ApplyKeeps(g, s1, RP.LteUp);
  }

  lemma SubmitKeeps(g: Config, s: State, why: Reason)
    requires Outbox(g, s) && s.ch.caller.NoCall?
    ensures Outbox(g, AfterSubmit(g, WithClient(s, s.ch.c.(disconnectWork := true)), why))
  {
    var s1 := WithClient(s, s.ch.c.(disconnectWork := true));
    BookkeepingKeeps(g, s, s1);
    match why {
      case LostLte => LoseKeeps(g, s1);
      case AfterError => ApplyKeeps(g, s1, RP.Failure);
      case Stray => BookkeepingKeeps(g, s1, s1.(sys := SysIdle));
    }
  }

  /** Steps that post nothing and concern only the connection's bookkeeping. */
  lemma QuietKeeps(g: Config, s: State, s': State)
    requires Outbox(g, s) && s'.q == s.q && s'.svc == s.svc && s'.h == s.h && s'.rec == s.rec && s'.call == s.call
    requires s'.link == s.link
    requires s'.ch.caller == s.ch.caller && s'.ch.c.publishToken == s.ch.c.publishToken
    requires s'.ch.h.submitted == s.ch.h.submitted
    requires s'.ch.h.done == s.ch.h.done && (s'.ch.posting == s.ch.posting || s'.ch.posting == None)
    requires s'.ch.sender.Failing? ==> s'.ch.sender == s.ch.sender
    ensures Outbox(g, s')
  {
    FrameCore(g, s, s');
    PostReported(s.q, s.ch, MqttError, s'.ch);
  }

  lemma OpenIsBookkeeping(s: State, ok: bool)
    requires !s.opener.OpenCall?
    ensures Bookkeeping(s, OpenStep(s, ok))
  {
    match s.opener {
      case OpenIdle => case OpenLte => case OpenAbort => case OpenRead => case OpenMark(_) =>
      case OpenFailed(_) => case FailLte(_) => case FailCheck(_) => case FailPost => case CloseRead => case CloseCall =>
    }
  }

  lemma OpenKeeps(g: Config, s: State, ok: bool)
    requires Outbox(g, s) && (s.opener.OpenCall? && ok ==> s.link.Down?)
    ensures Outbox(g, OpenStep(s, ok))
  {
    if s.opener.OpenCall? {
      FrameCore(g, s, OpenStep(s, ok));
    } else {
      OpenIsBookkeeping(s, ok);
      BookkeepingKeeps(g, s, OpenStep(s, ok));
    }
  }

  lemma CallPosts(g: Config, s: State)
    requires Outbox(g, s) && (s.call.UpPost? || s.call.RefusedPost? || s.call.DownPost?)
    ensures Outbox(g, CallStep(s))
  {
    var s' := CallStep(s);
    FrameCore(g, s, s');
    if s.call.UpPost? {
      PushOrdered(s.h.open, s.q, MqttConnected, s.link, s.call);
      PostReported(s.q, s.ch, MqttConnected, s'.ch);
    } else if s.call.RefusedPost? {
      PostKeeps(g, s, s', MqttError);
    } else {
      PushOrdered(s.h.open, s.q, MqttDisconnected, s.link, s.call);
      PostReported(s.q, s.ch, MqttDisconnected, s'.ch);
    }
  }

  lemma CallKeeps(g: Config, s: State)
    requires Outbox(g, s)
    ensures Outbox(g, CallStep(s))
  {
    if s.call.UpPost? || s.call.RefusedPost? || s.call.DownPost? {
      CallPosts(g, s);
    } else {
      CallFrame(s);
      FrameCore(g, s, CallStep(s));
      PostReported(s.q, s.ch, MqttError, CallStep(s).ch);
    }
  }

  lemma ConnackKeeps(g: Config, s: State, accepted: bool)
    requires Outbox(g, s) && CallFree(s) && s.link.Opening?
    ensures Outbox(g, ConnackStep(s, accepted))
  {
    FrameCore(g, s, ConnackStep(s, accepted));
    PostReported(s.q, s.ch, MqttError, ConnackStep(s, accepted).ch);
  }

  lemma DisconnectedStepKeeps(g: Config, s: State)
    requires Outbox(g, s) && CallFree(s)
    ensures Outbox(g, DisconnectedStep(s))
  {
    FrameCore(g, s, DisconnectedStep(s));
    PostReported(s.q, s.ch, MqttError, DisconnectedStep(s).ch);
  }

  lemma SenderKeeps(g: Config, s: State, id: nat, ok: bool)
    requires Outbox(g, s) && !s.ch.sender.Rest? && !s.ch.sender.Retry?
    ensures Outbox(g, SenderOp(g, s, id, ok))
  {
    var s' := SenderOp(g, s, id, ok);
    SendReported(g, s, id, ok);
    SendFrame(g, s, id, ok);
    FrameCore(g, s, s');
    if s.ch.sender.Failing? { PushOrdered(s.h.open, s.q, Completed(s.ch.sender.token, false), s.link, s.call); }
  }

  lemma PubackKeeps(g: Config, s: State, id: nat, ok: bool)
    requires Outbox(g, s) && CallFree(s)
    ensures Outbox(g, s.(ch := PP.PubackStep(s.ch, id, ok)))
  {
    PubackReported(s, id, ok);
    FrameCore(g, s, s.(ch := PP.PubackStep(s.ch, id, ok)));
  }

  lemma PostPubackKeeps(g: Config, s: State)
    requires Outbox(g, s) && s.ch.posting.Some?
    ensures Outbox(g, Step(g, s, PostPuback))
  {
    var e := Completed(s.ch.posting.value.0, s.ch.posting.value.1);
    var s' := Step(g, s, PostPuback);
    PushOrdered(s.h.open, s.q, e, s.link, s.call);
    PostReported(s.q, s.ch, e, s'.ch);
    FrameCore(g, s, s');
  }

  lemma RetryKeeps(g: Config, s: State)
    requires Outbox(g, s) && s.ch.sender.Retry?
    ensures Outbox(g, s.(ch := PP.RetryStep(g.timing, s.ch)))
  {
    QuietKeeps(g, s, s.(ch := PP.RetryStep(g.timing, s.ch)));
  }

  lemma SampleKeeps(g: Config, s: State, m: Measurement)
    requires Outbox(g, s) && SysFree(s)
    ensures Outbox(g, Step(g, s, Sample(m)))
  {
    SampleKeepsCore(g, s, m);
  }

  lemma PublishKeeps(g: Config, s: State, t: uint64)
    requires Outbox(g, s) && SysFree(s)
    ensures Outbox(g, BeginPublish(s, t))
  {
    BeginKeepsCore(g, s, t);
  }

  lemma ProtocolKeepsOutbox(g: Config, s: State, a: Action)
    requires Outbox(g, s) && PB.Buffered(s.ch) && Enabled(s, a) && Protocol(a)
    ensures Outbox(g, Step(g, s, a))
  {
    match a {
      case StartPublish(t) => PublishKeeps(g, s, t);
      case CallerNext(ok) => CallerKeeps(g, s, ok);
      case SenderNext(id, ok) => SenderKeeps(g, s, id, ok);
      case RetryNext => RetryKeeps(g, s);
      case Puback(id, ok) => PubackKeeps(g, s, id, ok);
      case PostPuback => PostPubackKeeps(g, s);
      case StartJob => QuietKeeps(g, s, Step(g, s, a));
      case StartRetry => QuietKeeps(g, s, Step(g, s, a));
      case Arrive(_) => QuietKeeps(g, s, Step(g, s, a));
    }
  }

  lemma OutsideKeepsOutbox(g: Config, s: State, a: Action)
    requires Outbox(g, s) && OneHandler(s) && Enabled(s, a) && !Protocol(a)
    ensures Outbox(g, Step(g, s, a))
  {
    match a {
      case LteChanges(up) => PostKeeps(g, s, Step(g, s, a), if up then LteConnected else LteLost);
      case HelperError => PostKeeps(g, s, Step(g, s, a), MqttError);
      case HandleEvent => HandleKeeps(g, s);
      case Sample(m) => SampleKeeps(g, s, m);
      case ReconnectFires => ApplyKeeps(g, s.(recTimer := None), RP.Timer);
      case SysNext(ok) => SysKeeps(g, s, ok);
      case OpenNext(ok) => OpenKeeps(g, s, ok);
      case Connack(accepted) => ConnackKeeps(g, s, accepted);
      case Disconnected => DisconnectedStepKeeps(g, s);
      case CallNext => CallKeeps(g, s);
      case StartOpen => QuietKeeps(g, s, Step(g, s, a));
      case StartClose => QuietKeeps(g, s, Step(g, s, a));
    }
  }

  lemma StepKeepsOutbox(g: Config, s: State, a: Action)
    requires Outbox(g, s) && PB.Buffered(s.ch) && OneHandler(s) && Enabled(s, a)
    ensures Outbox(g, Step(g, s, a))
  {
    if Protocol(a) { ProtocolKeepsOutbox(g, s, a); } else { OutsideKeepsOutbox(g, s, a); }
  }

  lemma {:induction false} AlwaysOutbox(g: Config, run: seq<Action>)
    requires ValidConfig(g) && After(g, run).Some?
    ensures Outbox(g, After(g, run).value)
    decreases |run|
  {
    if run != [] {
      AlwaysOutbox(g, run[..|run| - 1]);
      AlwaysSound(g, run[..|run| - 1]);
      AlwaysOneHandler(g, run[..|run| - 1]);
      StepKeepsOutbox(g, After(g, run[..|run| - 1]).value, run[|run| - 1]);
    }
  }

  // ------------------------------------------------------- what this means

  /** Over any interleaving: accepted readings = committed readings followed by
      the buffer, in order, and the committed ones are the contents of NDATA
      whose PUBACK was taken, each under its own token. */
  lemma Conservation(g: Config, run: seq<Action>)
    requires ValidConfig(g) && After(g, run).Some?
    ensures var s := After(g, run).value;
            && s.h.accepted == Readings(s.ch.h.submitted, s.h.commits) + s.svc.buffer
            && |s.svc.buffer| <= DT.Capacity(g.settings)
            && forall i :: 0 <= i < |s.h.commits| ==>
                 && s.h.commits[i] in s.ch.h.submitted
                 && exists n :: 0 <= n < |s.ch.h.arrived| && Delivered(s.ch.h, s.ch.h.arrived[n], s.h.commits[i])
  {
    AlwaysOutbox(g, run);
    var s := After(g, run).value;
    forall i | 0 <= i < |s.h.commits|
      ensures exists n :: 0 <= n < |s.ch.h.arrived| && Delivered(s.ch.h, s.ch.h.arrived[n], s.h.commits[i])
    {
      assert Decided(s.ch.h.done, s.h.commits[i], true);
      var j :| 0 <= j < |s.ch.h.done| && s.ch.h.done[j].token == s.h.commits[i] && s.ch.h.done[j].ok;
      CompletionCorrectness(g, run, j);
      var n :| 0 <= n < |s.ch.h.arrived| && Carried(s.ch.h, s.ch.h.arrived[n], s.ch.h.done[j]);
      assert Delivered(s.ch.h, s.ch.h.arrived[n], s.h.commits[i]);
    }
  }

  /** Packet n carries the message handed over under the token. */
  ghost predicate Delivered(h: Log, n: nat, token: nat) {
    n < |h.wire| && token in h.submitted && h.wire[n].token == token && h.wire[n].m == h.submitted[token]
  }

  /** Only handling the success of the publish in flight removes readings, and it
      removes exactly those of its payload; every other step keeps the buffer or adds at its end. */
  lemma OnlyItsAckRemoves(g: Config, run: seq<Action>, a: Action)
    requires ValidConfig(g) && After(g, run).Some? && Enabled(After(g, run).value, a)
    ensures var s, s' := After(g, run).value, Step(g, After(g, run).value, a);
            || s.svc.buffer <= s'.svc.buffer
            || (&& a == HandleEvent && s.svc.inFlight && s.q[0] == Completed(s.svc.pendingToken, true)
                && s.svc.buffer == ReadingsOf(s.ch.h.submitted, s.svc.pendingToken) + s'.svc.buffer)
  {
    AlwaysOutbox(g, run);
    var s := After(g, run).value;
    if a.HandleEvent? { HandleRemoves(g, s); } else { OthersKeepBuffer(g, s, a); }
  }

  lemma OthersKeepBuffer(g: Config, s: State, a: Action)
    requires Enabled(s, a) && !a.HandleEvent?
    ensures s.svc.buffer <= Step(g, s, a).svc.buffer
  {
    match a {
      case SysNext(ok) => SysFrame(g, s, ok);
      case CallerNext(ok) => CallerKeepsBuffer(s, ok);
      case StartPublish(_) => case Sample(_) =>
      case _ => ServiceStays(g, s, a);
    }
  }

  lemma CallerKeepsBuffer(s: State, ok: bool)
    requires s.ch.caller.Call?
    ensures CallerOp(s, ok).svc.buffer == s.svc.buffer
  {
  }

  lemma HandleRemoves(g: Config, s: State)
    requires InFlight(s.svc, s.ch.h.submitted) && s.q != []
    ensures var s' := Dispatch(g, s.(q := s.q[1..]), s.q[0]);
            || s.svc.buffer == s'.svc.buffer
            || (&& s.svc.inFlight && s.q[0] == Completed(s.svc.pendingToken, true)
                && s.svc.buffer == ReadingsOf(s.ch.h.submitted, s.svc.pendingToken) + s'.svc.buffer)
  {
    match s.q[0] {
      case LteLost => case LteConnected => case MqttConnected => case MqttDisconnected => case MqttError =>
      case Completed(token, ok) => ResultRemoves(g, s.svc, s.ch.h.submitted, token, ok);
    }
  }

  lemma ResultRemoves(g: Config, svc: MS.Service, submitted: Submitted, token: nat, ok: bool)
    requires InFlight(svc, submitted)
    ensures var svc' := MS.OnResult(g.settings, svc, token, ok);
            || svc.buffer == svc'.buffer
            || (ok && svc.inFlight && token == svc.pendingToken
               && svc.buffer == ReadingsOf(submitted, token) + svc'.buffer)
  {
    if MS.Accepts(svc, token) {
      ResultAnswers(g, svc, token, ok);
      assert Carries(svc, submitted[token].payload);
    }
  }

  /** The acknowledged messages of a session are its NBIRTH and then NDATA
      numbered 1, 2, ..., 255, 0, 1, ...; whatever the client is offered continues
      them, so no NDATA is handed over before the NBIRTH is acknowledged and a
      failed NDATA's number is used again. */
  lemma SessionOrder(g: Config, run: seq<Action>)
    requires ValidConfig(g) && After(g, run).Some?
    ensures var s := After(g, run).value;
            && O.Numbered(s.h.acks)
            && (s.ch.caller.Call? ==> O.Numbered(s.h.acks + [s.ch.caller.m.payload]))
            && (s.svc.inFlight ==>
               s.svc.pendingToken in s.ch.h.submitted
               && O.Numbered(s.h.acks + [s.ch.h.submitted[s.svc.pendingToken].payload]))
  {
    AlwaysOutbox(g, run);
    var s := After(g, run).value;
    if s.ch.caller.Call? { NextIsNumbered(s.svc, s.h, s.ch.caller.m.payload); }
    if s.svc.inFlight { NextIsNumbered(s.svc, s.h, s.ch.h.submitted[s.svc.pendingToken].payload); }
  }

  lemma NextIsNumbered(svc: MS.Service, h: History, b: MS.Body)
    requires Session(svc, h) && svc.connected
    requires if svc.birthPending then b.Birth? else b.Data? && b.current == svc.nextSeq
    ensures O.Numbered(h.acks) && O.Numbered(h.acks + [b])
  {
  }

  /** Whatever is offered fits the payload buffer: formatting never fails with EMSGSIZE. */
  lemma OffersFit(g: Config, run: seq<Action>)
    requires ValidConfig(g) && After(g, run).Some? && After(g, run).value.ch.caller.Call?
    ensures var b := After(g, run).value.ch.caller.m.payload;
            (b.Data? ==> b.readings != []) && |MS.BodyBytes(g.settings, b)| <= g.settings.payloadSize
  {
    AlwaysOutbox(g, run);
    match After(g, run).value.ch.caller.m.payload {
      case Birth(t, bd) => S.NbirthSizeBound(t, bd);
      case Data(current, readings) => S.NdataSizeBound(readings, current, g.settings.batch);
    }
  }
}

/** What messages hold: every message ever handed over is an NBIRTH or carries a
    stretch of the readings the device accepted, and has the topic of its payload. */
module DevicePayloads {
  import opened Common
  import opened Device
  import opened DeviceFrames
  import opened DeviceOutbox
  import MS = MeasurementService
  import O = Outbox

  ghost predicate AllGood(accepted: seq<Measurement>, submitted: Submitted) {
    forall t :: t in submitted ==> GoodMessage(accepted, submitted[t])
  }

  ghost predicate GoodMessage(accepted: seq<Measurement>, m: Message) {
    m.topic == MS.TopicOf(m.payload) && O.GoodBody(accepted, m.payload)
  }

  lemma SampleKeepsBodies(g: Config, s: State, m: Measurement)
    requires AllGood(s.h.accepted, s.ch.h.submitted) && Enabled(s, Sample(m))
    ensures var s' := Step(g, s, Sample(m)); AllGood(s'.h.accepted, s'.ch.h.submitted)
  {
    forall t | t in s.ch.h.submitted
      ensures GoodMessage(s.h.accepted + [m], s.ch.h.submitted[t])
    {
      var b := s.ch.h.submitted[t].payload;
      if b.Data? { O.StretchKept(s.h.accepted, s.h.accepted + [m], b.readings); }
    }
  }

  lemma OfferedIsGood(g: Config, svc: MS.Service, h: History, b: MS.Body)
    requires Kept(g, svc, h) && Offered(svc, b)
    ensures O.GoodBody(h.accepted, b)
  {
    if b.Data? { assert O.StartsAt(h.accepted, b.readings, |h.committed|); }
  }

  lemma CallerKeepsBodies(g: Config, s: State, ok: bool)
    requires Core(g, s) && AllGood(s.h.accepted, s.ch.h.submitted) && s.ch.caller.Call?
    ensures AllGood(CallerOp(s, ok).h.accepted, CallerOp(s, ok).ch.h.submitted)
  {
    var submitted := CallerOp(s, ok).ch.h.submitted;
    if s.ch.caller.at.Token? {
      OfferedIsGood(g, s.svc, s.h, s.ch.caller.m.payload);
      assert submitted == s.ch.h.submitted[s.ch.c.nextToken + 1 := s.ch.caller.m];
    } else {
      assert submitted == s.ch.h.submitted;
    }
  }

  lemma OthersKeepBodies(g: Config, s: State, a: Action)
    requires Enabled(s, a) && !a.Sample? && !a.CallerNext?
    ensures Step(g, s, a).h.accepted == s.h.accepted && Step(g, s, a).ch.h.submitted == s.ch.h.submitted
  {
    SubmittedStays(g, s, a);
    if a.HandleEvent? { HandleFrame(g, s.(q := s.q[1..]), s.q[0]); } else { HistoryStays(g, s, a); }
  }

  /** Every message ever handed over has the topic of its payload, and an NDATA
      holds a stretch of the accepted readings. */
  lemma {:induction false} AlwaysGoodBodies(g: Config, run: seq<Action>)
    requires ValidConfig(g) && After(g, run).Some?
    ensures AllGood(After(g, run).value.h.accepted, After(g, run).value.ch.h.submitted)
    decreases |run|
  {
    if run != [] {
      var s, a := After(g, run[..|run| - 1]).value, run[|run| - 1];
      AlwaysGoodBodies(g, run[..|run| - 1]);
      AlwaysOutbox(g, run[..|run| - 1]);
      match a {
        case Sample(m) => SampleKeepsBodies(g, s, m);
        case CallerNext(ok) => CallerKeepsBodies(g, s, ok);
        case _ => OthersKeepBodies(g, s, a);
      }
    }
  }

  // ------------------------------------------------------ times of NBIRTHs

  /** An NBIRTH carries the time of some start of the publish handler. */
  ghost predicate Timed(run: seq<Action>, m: Message) {
    m.payload.Birth? ==> StartPublish(m.payload.timestampMs) in run
  }

  ghost predicate AllTimed(run: seq<Action>, s: State) {
    && (s.ch.caller.Call? ==> Timed(run, s.ch.caller.m))
    && forall t :: t in s.ch.h.submitted ==> Timed(run, s.ch.h.submitted[t])
  }

  lemma CallerTimed(run: seq<Action>, s: State, ok: bool)
    requires AllTimed(run, s) && s.ch.caller.Call?
    ensures AllTimed(run + [CallerNext(ok)], CallerOp(s, ok))
  {
    match s.ch.caller.at {
      case Lte => case Helper => case Cas => case Active => case Release => case Payload => case Topic =>
      case Generation => case Submit =>
      case Token => assert CallerOp(s, ok).ch.h.submitted == s.ch.h.submitted[s.ch.c.nextToken + 1 := s.ch.caller.m];
    }
  }

  lemma CallerStays(g: Config, s: State, a: Action)
    requires Enabled(s, a) && !a.CallerNext? && !a.StartPublish?
    ensures Step(g, s, a).ch.caller == s.ch.caller
  {
    match a {
      case HandleEvent => HandleFrame(g, s.(q := s.q[1..]), s.q[0]);
      case SysNext(ok) => SysFrame(g, s, ok);
      case Sample(_) =>
      case _ => ServiceStays(g, s, a);
    }
  }

  /** Every NBIRTH ever handed over carries the time at which the publish handler
      that made it was started. */
  lemma {:induction false} AlwaysTimed(g: Config, run: seq<Action>)
    requires After(g, run).Some?
    ensures AllTimed(run, After(g, run).value)
    decreases |run|
  {
    if run != [] {
      var before, a := run[..|run| - 1], run[|run| - 1];
      var s := After(g, before).value;
      AlwaysTimed(g, before);
      assert run == before + [a];
      match a {
        case CallerNext(ok) => CallerTimed(before, s, ok);
        case StartPublish(t) => assert StartPublish(t) in run;
        case _ =>
          CallerStays(g, s, a);
          SubmittedStays(g, s, a);
      }
    }
  }
}

/** The full firmware refines the outbox: every step of the interleaved machine is
    a step of the outbox or leaves it alone. */
module DeviceRefines {
  import opened Common
  import opened Device
  import opened DeviceFrames
  import opened DeviceOutbox
  import MS = MeasurementService
  import O = Outbox

  function OutboxOf(s: State): O.Outbox {
    O.Outbox(s.h.accepted, |s.h.committed|, s.h.acks)
  }

  lemma CompleteRefines(g: Config, s: State, token: nat, ok: bool)
    requires Core(g, s)
    ensures O.Next(OutboxOf(s), OutboxOf(Complete(g, s, token, ok)))
  {
    var o, o' := OutboxOf(s), OutboxOf(Complete(g, s, token, ok));
    if MS.Accepts(s.svc, token) && ok {
      var b := s.ch.h.submitted[token].payload;
      assert Carries(s.svc, b);
      if !s.svc.birthInFlight {
        assert s.svc.buffer[..s.svc.pendingCount] == s.h.accepted[o.delivered..o.delivered + s.svc.pendingCount];
      }
      assert O.Acknowledges(o, o', b);
    }
  }

  lemma HandleRefines(g: Config, s: State)
    requires Core(g, s) && s.q != []
    ensures O.Next(OutboxOf(s), OutboxOf(Dispatch(g, s.(q := s.q[1..]), s.q[0])))
  {
    match s.q[0] {
      case Completed(token, ok) =>
        FrameCore(g, s, s.(q := s.q[1..]));
        CompleteRefines(g, s.(q := s.q[1..]), token, ok);
      case LteLost => case LteConnected => case MqttConnected => case MqttDisconnected => case MqttError =>
    }
  }

  /** One step, in any reachable state. */
  lemma StepRefines(g: Config, run: seq<Action>, a: Action)
    requires ValidConfig(g) && After(g, run).Some? && Enabled(After(g, run).value, a)
    ensures O.Next(OutboxOf(After(g, run).value), OutboxOf(Step(g, After(g, run).value, a)))
  {
    AlwaysOutbox(g, run);
    match a {
      case HandleEvent => HandleRefines(g, After(g, run).value);
      case Sample(_) => SampleRefines(g, After(g, run).value, a);
      case _ => HistoryStays(g, After(g, run).value, a);
    }
  }

  lemma SampleRefines(g: Config, s: State, a: Action)
    requires a.Sample? && Enabled(s, a)
    ensures O.Next(OutboxOf(s), OutboxOf(Step(g, s, a)))
  {
  }

  /** The outbox states along a run. */
  ghost function OutboxRun(g: Config, run: seq<Action>): (states: seq<O.Outbox>)
    requires After(g, run).Some?
    ensures |states| == |run| + 1 && states[|run|] == OutboxOf(After(g, run).value)
    decreases |run|
  {
    if run == [] then [OutboxOf(Initial(g))] else OutboxRun(g, run[..|run| - 1]) + [OutboxOf(After(g, run).value)]
  }

  /** Every run of the full firmware is a run of the outbox. */
  lemma {:induction false} RunRefines(g: Config, run: seq<Action>)
    requires ValidConfig(g) && After(g, run).Some?
    ensures O.Run(OutboxRun(g, run))
    decreases |run|
  {
    if run != [] {
      RunRefines(g, run[..|run| - 1]);
      StepRefines(g, run[..|run| - 1], run[|run| - 1]);
    }
  }
}

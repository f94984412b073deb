/** The reconnect policy inside the full firmware: its state and its timer are
    those of some event trace, so the timer is armed exactly while a retry is
    waited for, and the delays double up to the maximum. */
module DeviceReconnect {
  import opened Common
  import opened Device
  import opened DeviceFrames
  import RP = ReconnectPolicy

  // ------------------------------------------------- following the policy

  /** What the controller tells the policy in a step, if anything. */
  function Instructed(s: State, a: Action): seq<RP.Event> {
    match a
    case HandleEvent => if s.q == [] then [] else InstructedByEvent(s, s.q[0])
    case SysNext(_) =>
      if (s.sys.LteCas? && !s.ch.c.lte) || s.sys == Submit(LostLte) then [RP.LteDown]
      else if s.sys.LteSet? then [RP.LteUp]
      else if s.sys == Submit(AfterError) then [RP.Failure]
      else []
    case ReconnectFires => [RP.Timer]
    case _ => []
  }

  function InstructedByEvent(s: State, e: Event): seq<RP.Event> {
    match e
    case MqttConnected => if s.rec.lte then [RP.MqttUp] else []
    case MqttDisconnected => [RP.Failure]
    case MqttError => if s.rec.lte then [] else [RP.Failure]
    case LteLost => []
    case LteConnected => []
    case Completed(_, _) => []
  }

  /** What the policy has been told over a run. */
  ghost function Events(g: Config, run: seq<Action>): seq<RP.Event>
    requires After(g, run).Some?
    decreases |run|
  {
    if run == [] then []
    else Events(g, run[..|run| - 1]) + Instructed(After(g, run[..|run| - 1]).value, run[|run| - 1])
  }

  /** The policy state and the timer are those after these events, and the timer fires only when armed. */
  ghost predicate Follows(g: Config, s: State, events: seq<RP.Event>) {
    && RP.TimerFires(g.delays, events)
    && RP.Run(g.delays, events).state == s.rec && RP.Run(g.delays, events).timer == s.recTimer
  }

  predicate SamePolicy(s: State, s': State) {
    s'.rec == s.rec && s'.recTimer == s.recTimer
  }

  /** The policy after it was told e; a firing timer is no longer armed. */
  function Answered(g: Config, s: State, e: RP.Event): State {
    Apply(g, if e == RP.Timer then s.(recTimer := None) else s, e)
  }

  /** A step is, for the policy, what the controller tells it. */
  predicate Obeys(g: Config, s: State, events: seq<RP.Event>, s': State) {
    if events == [] then SamePolicy(s, s') else |events| == 1 && SamePolicy(Answered(g, s, events[0]), s')
  }

  lemma HandleObeys(g: Config, s: State)
    requires s.q != []
    ensures Obeys(g, s, InstructedByEvent(s, s.q[0]), Dispatch(g, s.(q := s.q[1..]), s.q[0]))
  {
    match s.q[0] {
      case LteLost => case LteConnected => case MqttConnected => case MqttDisconnected => case MqttError =>
      case Completed(_, _) =>
    }
  }

  lemma SysObeys(g: Config, s: State, ok: bool)
    ensures Obeys(g, s, Instructed(s, SysNext(ok)), SysStep(g, s, ok))
  {
    match s.sys {
      case SysIdle => case LteCas => case LteSet => case Lock(_) => case Submit(_) =>
      case ConnectLte => case ConnectHelper => case ConnectCas => case ConnectSubmit => case PostError =>
    }
  }

  lemma StepObeys(g: Config, s: State, a: Action)
    requires Enabled(s, a)
    ensures Obeys(g, s, Instructed(s, a), Step(g, s, a))
  {
    match a {
      case HandleEvent => HandleObeys(g, s);
      case SysNext(ok) => SysObeys(g, s, ok);
      case ReconnectFires =>
      case _ => PolicyStays(g, s, a);
    }
  }

  lemma ToldFollows(g: Config, s: State, events: seq<RP.Event>, e: RP.Event, s': State)
    requires Follows(g, s, events) && (e == RP.Timer ==> s.recTimer.Some?) && SamePolicy(Answered(g, s, e), s')
    ensures Follows(g, s', events + [e])
  {
    assert (events + [e])[..|events|] == events;
    forall i | 0 <= i < |events + [e]| && (events + [e])[i] == RP.Timer
      ensures RP.Run(g.delays, (events + [e])[..i]).timer.Some?
    {
      assert (events + [e])[..i] == events[..i];
    }
  }

  lemma StepFollows(g: Config, s: State, a: Action, events: seq<RP.Event>)
    requires Follows(g, s, events) && Enabled(s, a)
    ensures Follows(g, Step(g, s, a), events + Instructed(s, a))
  {
    StepObeys(g, s, a);
    var told := Instructed(s, a);
    if told == [] {
      assert events + told == events;
    } else {
      assert told == [told[0]];
      ToldFollows(g, s, events, told[0], Step(g, s, a));
    }
  }

  /** In every reachable state the policy and its timer are those after what the
      controller has told the policy so far. */
  lemma {:induction false} AlwaysFollows(g: Config, run: seq<Action>)
    requires After(g, run).Some?
    ensures Follows(g, After(g, run).value, Events(g, run))
    decreases |run|
  {
    if run != [] {
      var before := run[..|run| - 1];
      AlwaysFollows(g, before);
      StepFollows(g, After(g, before).value, run[|run| - 1], Events(g, before));
    }
  }

  /** In every reachable state the reconnect timer is armed exactly while the policy waits. */
  lemma TimerIffWaiting(g: Config, run: seq<Action>)
    requires After(g, run).Some?
    ensures var s := After(g, run).value;
            (s.recTimer.Some? <==> s.rec.phase == RP.Waiting) && (s.rec.lte <==> s.rec.phase != RP.Offline)
  {
    AlwaysFollows(g, run);
    RP.TimerArmedIffWaiting(g.delays, Events(g, run));
  }

  /** The next retry waits min(initial * 2^k, max), for k the retries scheduled in
      this run since the connection was up or LTE was lost, and an armed timer
      runs for what the last of them, the k-th, had to wait. */
  lemma NextDelayDoubles(g: Config, run: seq<Action>)
    requires ValidConfig(g) && After(g, run).Some?
    ensures var s, k := After(g, run).value, RP.Retries(g.delays, Events(g, run));
            && s.rec.nextDelay == Min(g.delays.initial * Pow2(k), g.delays.max)
            && (s.recTimer.Some? ==>
                  k > 0 && s.recTimer.value == Min(g.delays.initial * Pow2(k - 1), g.delays.max))
  {
    AlwaysFollows(g, run);
    RP.NextDelay(g.delays, Events(g, run));
    RP.ArmedDelay(g.delays, Events(g, run));
  }

  /** A retry that is waited for keeps its deadline and the delay after it through
      any further failure, until it fires, the connection comes up or LTE is lost. */
  lemma DeadlineKept(g: Config, run: seq<Action>, a: Action)
    requires After(g, run).Some? && Enabled(After(g, run).value, a) && After(g, run).value.recTimer.Some?
    ensures var s, s', told := After(g, run).value, Step(g, After(g, run).value, a), Instructed(After(g, run).value, a);
            || told == [RP.Timer] || told == [RP.MqttUp] || told == [RP.LteDown]
            || (s'.recTimer == s.recTimer && s'.rec == s.rec)
  {
    var s := After(g, run).value;
    AlwaysFollows(g, run);
    StepObeys(g, s, a);
    var told := Instructed(s, a);
    if told != [] && told[0] != RP.Timer && told[0] != RP.MqttUp && told[0] != RP.LteDown {
      RP.DeadlineStays(g.delays, Events(g, run), told[0]);
      assert (Events(g, run) + [told[0]])[..|Events(g, run)|] == Events(g, run);
    }
  }

  /** Over every run no more retries are scheduled than attempts were ordered and connections came up. */
  lemma RetriesAreFew(g: Config, run: seq<Action>)
    requires After(g, run).Some?
    ensures var events := Events(g, run);
            RP.Scheduled(g.delays, events) <= RP.Attempts(g.delays, events) + RP.Connections(events)
  {
    RP.RetriesAreFew(g.delays, Events(g, run));
  }
}

/** The reconnect policy of the full firmware: mqtt_reconnect.c, with the timer
    that app_controller.c arms and cancels on its orders. */
module ReconnectPolicy {
  import opened Common

  datatype Phase = Offline | Connecting | Waiting | Connected
  datatype Event = LteUp | LteDown | MqttUp | Failure | Timer
  datatype Order = Nothing | Connect | Schedule(delay: nat) | Cancel

  datatype State = State(lte: bool, phase: Phase, nextDelay: nat)

  /** The Kconfig delays; the build refuses initial > max. */
  datatype Delays = Delays(initial: nat, max: nat)

  predicate ValidDelays(d: Delays) {
    0 < d.initial <= d.max <= 3600
  }

  function Initial(d: Delays): State {
    State(false, Offline, d.initial)
  }

  function Respond(d: Delays, s: State, e: Event): (State, Order) {
    match e
    case LteUp => if !s.lte then (s.(lte := true, phase := Connecting), Connect) else (s, Nothing)
    case LteDown => (Initial(d), if s.lte then Cancel else Nothing)
    case MqttUp => if s.lte then (s.(phase := Connected, nextDelay := d.initial), Cancel) else (s, Nothing)
    case Failure =>
      if s.lte && s.phase != Waiting
      then (s.(phase := Waiting, nextDelay := Min(s.nextDelay * 2, d.max)), Schedule(s.nextDelay)) else (s, Nothing)
    case Timer => if s.lte && s.phase == Waiting then (s.(phase := Connecting), Connect) else (s, Nothing)
  }

  /** reconnect_work: k_work_reschedule and k_work_cancel_delayable. */
  function Rearm(timer: Option<nat>, order: Order): Option<nat> {
    match order case Schedule(delay) => Some(delay) case Cancel => None case _ => timer
  }

  class ReconnectState {
    const delays: Delays
    var lteAvailable: bool
    var phase: Phase
    var nextDelaySeconds: nat

    function View(): State
      reads this
    {
      State(lteAvailable, phase, nextDelaySeconds)
    }

    constructor (delays: Delays)
      ensures this.delays == delays && View() == Initial(delays)
    {
      this.delays := delays;
      lteAvailable, phase, nextDelaySeconds := false, Offline, delays.initial;
    }

    method Handle(event: Event) returns (order: Order)
      modifies this
      ensures (View(), order) == Respond(delays, old(View()), event)
      ensures order == Connect <==>
                || (event == LteUp && !old(lteAvailable))
                || (event == Timer && old(lteAvailable) && old(phase) == Waiting)
      ensures order.Schedule? <==> event == Failure && old(lteAvailable) && old(phase) != Waiting
      ensures order == Cancel <==> (event == LteDown || event == MqttUp) && old(lteAvailable)
    {
      order := Nothing;
      match event {
        case LteUp =>
          if !lteAvailable {
            lteAvailable, phase, order := true, Connecting, Connect;
          }
        case LteDown =>
          if lteAvailable {
            order := Cancel;
          }
          lteAvailable, phase, nextDelaySeconds := false, Offline, delays.initial;
        case MqttUp =>
          if lteAvailable {
            phase, nextDelaySeconds, order := Connected, delays.initial, Cancel;
          }
        case Failure =>
          if lteAvailable && phase != Waiting {
            phase, order := Waiting, Schedule(nextDelaySeconds);
            nextDelaySeconds := Min(nextDelaySeconds * 2, delays.max);
          }
        case Timer =>
          if lteAvailable && phase == Waiting {
            phase, order := Connecting, Connect;
          }
      }
    }
  }

  // --------------------------------------------------------- whole traces

  /** The state, the armed timer and the orders after a trace of events. A Timer
      event is the timer firing: it disarms the timer. */
  datatype Trace = Trace(state: State, timer: Option<nat>, orders: seq<Order>)

  function Run(d: Delays, events: seq<Event>): Trace {
    if events == [] then Trace(Initial(d), None, [])
    else
      var before, e := Run(d, events[..|events| - 1]), events[|events| - 1];
      var (state, order) := Respond(d, before.state, e);
      Trace(state, Rearm(if e == Timer then None else before.timer, order), before.orders + [order])
  }

  /** Timer events happen only while the timer is armed. */
  ghost predicate TimerFires(d: Delays, events: seq<Event>) {
    forall i :: 0 <= i < |events| && events[i] == Timer ==> Run(d, events[..i]).timer.Some?
  }

  /** The retries scheduled since the connection was last up or LTE was last lost. */
  function Retries(d: Delays, events: seq<Event>): nat {
    if events == [] then 0
    else
      var before, e := events[..|events| - 1], events[|events| - 1];
      var (_, order) := Respond(d, Run(d, before).state, e);
      if e == LteDown || (e == MqttUp && Run(d, before).state.lte) then 0
      else Retries(d, before) + if order.Schedule? then 1 else 0
  }

  /** min(initial * 2^k, max) */
  function Backoff(d: Delays, k: nat): nat {
    Min(d.initial * Pow2(k), d.max)
  }

  lemma BackoffDoubles(d: Delays, k: nat)
    requires ValidDelays(d)
    ensures Backoff(d, 0) == d.initial
    ensures Backoff(d, k + 1) == Min(Backoff(d, k) * 2, d.max)
  {
    assert Pow2(0) == 1;
    assert d.initial * Pow2(k + 1) == 2 * (d.initial * Pow2(k));
  }

  lemma {:induction false} NextDelay(d: Delays, events: seq<Event>)
    requires ValidDelays(d)
    ensures Run(d, events).state.nextDelay == Backoff(d, Retries(d, events))
  {
    BackoffDoubles(d, 0);
    if events != [] {
      NextDelay(d, events[..|events| - 1]);
      BackoffDoubles(d, Retries(d, events[..|events| - 1]));
    }
  }

  /** Over every trace, the k-th retry since the connection was up or LTE was
      lost waits min(initial * 2^k, max), counting k from zero. */
  lemma ScheduledDelay(d: Delays, events: seq<Event>, e: Event)
    requires ValidDelays(d)
    ensures var order := Respond(d, Run(d, events).state, e).1;
            order.Schedule? ==> order.delay == Backoff(d, Retries(d, events))
  {
    NextDelay(d, events);
  }

  /** The timer is armed exactly while a retry is waited for. */
  lemma {:induction false} TimerArmedIffWaiting(d: Delays, events: seq<Event>)
    requires TimerFires(d, events)
    ensures var t := Run(d, events); t.timer.Some? <==> t.state.phase == Waiting
    ensures Run(d, events).state.phase != Offline <==> Run(d, events).state.lte
  {
    if events != [] {
      var before := events[..|events| - 1];
      assert forall i :: 0 <= i < |before| ==> before[..i] == events[..i];
      TimerArmedIffWaiting(d, before);
    }
  }

  /** An armed timer runs for the wait of the last retry scheduled. */
  lemma {:induction false} ArmedDelay(d: Delays, events: seq<Event>)
    requires ValidDelays(d) && TimerFires(d, events)
    ensures Run(d, events).timer.Some? ==>
              Retries(d, events) > 0 && Run(d, events).timer.value == Backoff(d, Retries(d, events) - 1)
  {
    if events != [] {
      var before := events[..|events| - 1];
      assert forall i :: 0 <= i < |before| ==> before[..i] == events[..i];
      ArmedDelay(d, before);
      NextDelay(d, before);
      TimerArmedIffWaiting(d, before);
    }
  }

  // ------------------------------------------------------- one retry at a time

  /** The retries scheduled over a trace. */
  function Scheduled(d: Delays, events: seq<Event>): nat {
    if events == [] then 0
    else
      var before, e := events[..|events| - 1], events[|events| - 1];
      Scheduled(d, before) + if Respond(d, Run(d, before).state, e).1.Schedule? then 1 else 0
  }

  /** The attempts ordered over a trace. */
  function Attempts(d: Delays, events: seq<Event>): nat {
    if events == [] then 0
    else
      var before, e := events[..|events| - 1], events[|events| - 1];
      Attempts(d, before) + if Respond(d, Run(d, before).state, e).1.Connect? then 1 else 0
  }

  /** How often the connection came up over a trace. */
  function Connections(events: seq<Event>): nat {
    if events == [] then 0
    else Connections(events[..|events| - 1]) + if events[|events| - 1] == MqttUp then 1 else 0
  }

  /** In any stretch of a trace, from its i-th event on, no second retry is
      scheduled before an attempt is ordered or the connection comes up. */
  lemma {:induction false} RetriesAlternate(d: Delays, events: seq<Event>, i: nat)
    requires i <= |events|
    ensures var more := if Run(d, events).state.phase == Waiting || Run(d, events).state.phase == Offline then 1 else 0;
            Scheduled(d, events) - Scheduled(d, events[..i])
            <= Attempts(d, events) - Attempts(d, events[..i]) + Connections(events) - Connections(events[..i]) + more
    ensures Run(d, events).state.lte <==> Run(d, events).state.phase != Offline
    decreases |events|
  {
    if events == [] {
    } else {
      var before := events[..|events| - 1];
      if i == |events| {
        assert events[..i] == events;
        RetriesAlternate(d, before, |before|);
      } else {
        assert before[..i] == events[..i];
        RetriesAlternate(d, before, i);
      }
    }
  }

  /** So over every trace there are no more retries than attempts and connections. */
  lemma {:induction false} RetriesAreFew(d: Delays, events: seq<Event>)
    ensures Scheduled(d, events) <= Attempts(d, events) + Connections(events)
    ensures var phase := Run(d, events).state.phase;
            phase == Connecting || phase == Connected ==>
              Scheduled(d, events) < Attempts(d, events) + Connections(events)
    ensures Run(d, events).state.lte <==> Run(d, events).state.phase != Offline
    decreases |events|
  {
    if events != [] { RetriesAreFew(d, events[..|events| - 1]); }
  }

  /** Attempts alone do not bound them: a connection that comes up while a retry
      is waited for can fail, too. */
  lemma RetryWithoutAttempt(d: Delays)
    ensures Scheduled(d, [LteUp, Failure, MqttUp, Failure]) == 2 && Attempts(d, [LteUp, Failure, MqttUp, Failure]) == 1
  {
    var e1, e2, e3 := [LteUp], [LteUp, Failure], [LteUp, Failure, MqttUp];
    var e4 := [LteUp, Failure, MqttUp, Failure];
    assert e1[..0] == [] && e2[..1] == e1 && e3[..2] == e2 && e4[..3] == e3;
    assert Run(d, e1).state == State(true, Connecting, d.initial);
    assert Run(d, e2).state.phase == Waiting && Run(d, e2).state.lte;
    assert Run(d, e3).state.phase == Connected && Run(d, e3).state.lte;
    assert Scheduled(d, []) == 0 && Attempts(d, []) == 0;
    assert Scheduled(d, e1) == 0 && Attempts(d, e1) == 1;
    assert Scheduled(d, e2) == 1 && Attempts(d, e2) == 1;
    assert Scheduled(d, e3) == 1 && Attempts(d, e3) == 1;
  }

  /** The attempts ordered since the last retry was scheduled. */
  function AttemptsSince(d: Delays, events: seq<Event>): nat {
    if events == [] then 0
    else
      var before, e := events[..|events| - 1], events[|events| - 1];
      match Respond(d, Run(d, before).state, e).1
      case Schedule(_) => 0
      case Connect => AttemptsSince(d, before) + 1
      case _ => AttemptsSince(d, before)
  }

  /** The connection last came up while a retry was waited for. */
  predicate CameUpWaiting(d: Delays, events: seq<Event>) {
    if events == [] then false
    else
      var before, e := events[..|events| - 1], events[|events| - 1];
      var state := Run(d, before).state;
      if e == MqttUp && state.lte
      then state.phase == Waiting || (state.phase == Connected && CameUpWaiting(d, before))
      else CameUpWaiting(d, before)
  }

  lemma {:induction false} AttemptsByPhase(d: Delays, events: seq<Event>)
    ensures var phase := Run(d, events).state.phase;
            && (phase == Connecting ==> AttemptsSince(d, events) > 0)
            && (phase == Waiting ==> AttemptsSince(d, events) == 0)
            && (phase == Connected ==> (AttemptsSince(d, events) == 0 <==> CameUpWaiting(d, events)))
    ensures Run(d, events).state.lte <==> Run(d, events).state.phase != Offline
    decreases |events|
  {
    if events != [] { AttemptsByPhase(d, events[..|events| - 1]); }
  }

  /** Exactly then is a retry scheduled without an attempt since the one before:
      the connection that fails is one that came up while that retry was waited for. */
  lemma NoAttemptIff(d: Delays, events: seq<Event>, e: Event)
    requires Respond(d, Run(d, events).state, e).1.Schedule?
    ensures AttemptsSince(d, events) == 0 <==> Run(d, events).state.phase == Connected && CameUpWaiting(d, events)
  {
    AttemptsByPhase(d, events);
  }

  /** A retry that is waited for keeps its deadline, and the next delay stays,
      until the timer fires, the connection comes up or LTE is lost; further
      failures change nothing. */
  lemma DeadlineStays(d: Delays, events: seq<Event>, e: Event)
    requires TimerFires(d, events) && Run(d, events).timer.Some? && e != Timer && e != MqttUp && e != LteDown
    ensures Run(d, events + [e]).timer == Run(d, events).timer && Run(d, events + [e]).state == Run(d, events).state
  {
    assert (events + [e])[..|events|] == events;
    TimerArmedIffWaiting(d, events);
  }
}

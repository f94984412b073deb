/** The simple firmware's clocks and counters over every run, harmless or not: the
    PUBACK deadline, the waits between connection attempts, the time the loop
    sleeps, the readings it skips, and when it publishes. */
module SimpleTimes {
  import opened Common
  import opened SimpleDevice
  import MS = MeasurementService
  import SA = SimpleApp
  import SB = SimpleBatch

  /** What a run tells: when the last publish call returned successfully, the
      reconnects scheduled since a connection last came up and when the last of
      them was, the connections that ended, and the readings skipped. */
  datatype Times = Times(sentAt: int, retries: nat, scheduledAt: int, ends: nat, skips: nat)

  ghost function TimesOf(g: SB.Settings, run: seq<Action>): Times
    requires After(g, run).Some?
    decreases |run|
  {
    if run == [] then Times(0, 0, 0, 0, 0)
    else NextTimes(g, After(g, run[..|run| - 1]).value, run[|run| - 1], TimesOf(g, run[..|run| - 1]))
  }

  ghost function NextTimes(g: SB.Settings, s: State, a: Action, t: Times): Times
    requires Enabled(s, a)
  {
    match a
    case Return(now) => if s.at.ok then t.(sentAt := now) else t
    case Open(ok, now) => if ok then t else t.(retries := t.retries + 1, scheduledAt := now)
    case Update(updatedAt, _, _) =>
      var t' := if SA.WentUp in s.at.events && s.app.mqtt.Connecting? then t.(retries := 0) else t;
      if SA.WentDown in s.at.events && !s.app.mqtt.Idle?
      then t'.(retries := t'.retries + 1, scheduledAt := updatedAt, ends := t'.ends + 1) else t'
    case Collect => if |s.app.buffer| >= g.capacity then t.(skips := t.skips + 1) else t
    case _ => t
  }

  /** The k-th wait is 5, 10, 20, 40 and then 60 seconds. */
  function Wait(k: nat): nat {
    Min(5 * Pow2(k), 60)
  }

  /** When the next connection attempt is due; the first is due from power-up. */
  function DueAt(t: Times): int {
    if t.retries == 0 then 0 else t.scheduledAt + 1000 * Wait(t.retries - 1)
  }

  // ---------------------------------------------------------- the invariant

  ghost predicate Clocked(app: SA.App, t: Times) {
    && (app.awaiting ==> app.deadline == t.sentAt + 120_000)
    && app.delay == Wait(t.retries)
    && (app.mqtt.Idle? ==> app.reconnectAt == DueAt(t))
    && app.bdSeq == t.ends % 256
    && app.skipped == t.skips % 0x1_0000_0000
  }

  /** A PUBACK is awaited only on a connection, and only one. */
  predicate Placed(s: State) {
    && (s.app.awaiting ==> s.app.mqtt.Connected? && !Offering(s.at))
    && (Offering(s.at) ==> s.app.mqtt.Connected?)
    && (s.at.Opening? ==> s.app.mqtt.Idle?)
  }

  lemma WaitDoubles(k: nat)
    ensures Min(Wait(k) * 2, 60) == Wait(k + 1) && Wait(0) == 5
  {
    assert Pow2(0) == 1;
  }

  lemma ScheduledClocks(app: SA.App, t: Times, now: int)
    requires Clocked(app, t)
    ensures Clocked(SA.Scheduled(app, now), t.(retries := t.retries + 1, scheduledAt := now))
  {
    WaitDoubles(t.retries);
  }

  lemma EndedClocks(app: SA.App, t: Times, now: int)
    requires Clocked(app, t)
    ensures Clocked(SA.Scheduled(app.(awaiting := false, birthAcked := false, bdSeq := NextSeq(app.bdSeq)), now),
                    t.(retries := t.retries + 1, scheduledAt := now, ends := t.ends + 1))
  {
    ScheduledClocks(app.(awaiting := false, birthAcked := false, bdSeq := NextSeq(app.bdSeq)),
      t.(ends := t.ends + 1), now);
  }

  lemma UpdateClocks(g: SB.Settings, s: State, a: Action, t: Times)
    requires Clocked(s.app, t) && Enabled(s, a) && a.Update?
    ensures Clocked(Step(g, s, a).app, NextTimes(g, s, a, t))
  {
    WaitDoubles(0);
    if SA.WentUp in s.at.events && s.app.mqtt.Connecting? {
      EndedClocks(s.app.(mqtt := SA.Connected, delay := 5), t.(retries := 0), a.updatedAt);
    } else {
      EndedClocks(s.app, t, a.updatedAt);
    }
  }

  lemma OpenClocks(g: SB.Settings, s: State, a: Action, t: Times)
    requires Clocked(s.app, t) && Enabled(s, a) && a.Open? && Placed(s)
    ensures Clocked(Step(g, s, a).app, NextTimes(g, s, a, t))
  {
    ScheduledClocks(s.app, t, a.now);
  }

  lemma StepClocks(g: SB.Settings, s: State, a: Action, t: Times)
    requires Clocked(s.app, t) && Enabled(s, a) && Placed(s)
    ensures Clocked(Step(g, s, a).app, NextTimes(g, s, a, t))
  {
    match a {
      case Update(_, _, _) => UpdateClocks(g, s, a, t);
      case Open(_, _) => OpenClocks(g, s, a, t);
      case Return(_) => case Collect => case Check(_) => case Proceed => case Publish(_) =>
      case Measure(_) => case PostMeasured => case NetworkEvent => case Arrive(_) => case Wake => case Close(_) =>
      case Repost => case Claim(_, _) => case Write(_, _) => case Connack => case Disconnected => case Puback(_, _) =>
      case CallNext =>
    }
  }

  lemma StepPlaces(g: SB.Settings, s: State, a: Action)
    requires Placed(s) && Enabled(s, a)
    ensures Placed(Step(g, s, a))
  {
    match a {
      case Update(_, _, _) => case Open(_, _) => case Return(_) => case Collect => case Check(_) => case Proceed =>
      case Publish(_) => case Measure(_) => case PostMeasured => case NetworkEvent => case Arrive(_) => case Wake =>
      case Close(_) => case Repost => case Claim(_, _) => case Write(_, _) => case Connack => case Disconnected =>
      case Puback(_, _) => case CallNext =>
    }
  }

  lemma {:induction false} AlwaysClocked(g: SB.Settings, run: seq<Action>)
    requires After(g, run).Some?
    ensures Clocked(After(g, run).value.app, TimesOf(g, run)) && Placed(After(g, run).value)
    decreases |run|
  {
    if run == [] {
      WaitDoubles(0);
    } else {
      var before := run[..|run| - 1];
      AlwaysClocked(g, before);
      StepClocks(g, After(g, before).value, run[|run| - 1], TimesOf(g, before));
      StepPlaces(g, After(g, before).value, run[|run| - 1]);
    }
  }

  // --------------------------------------------------------- what this means

  /** While a PUBACK is awaited, the deadline is two minutes after the publish
      call returned. */
  lemma DeadlineIsTwoMinutes(g: SB.Settings, run: seq<Action>)
    requires After(g, run).Some? && After(g, run).value.app.awaiting
    ensures After(g, run).value.app.deadline == TimesOf(g, run).sentAt + 120_000
  {
    AlwaysClocked(g, run);
  }

  /** A connection is given up for a missing PUBACK exactly when at least two
      minutes have passed since the publish call returned. */
  lemma GivenUpIffOverdue(g: SB.Settings, run: seq<Action>, now: int)
    requires After(g, run + [Check(now)]).Some?
    ensures After(g, run).Some?
    ensures var s, s' := After(g, run).value, After(g, run + [Check(now)]).value;
            s'.at.Closing? <==> s.app.awaiting && now - TimesOf(g, run).sentAt >= 120_000
  {
    assert (run + [Check(now)])[..|run|] == run;
    AlwaysClocked(g, run);
  }

  /** The loop asks for a connection exactly when it has none, the network is
      there, and the wait since the last attempt or connection is over. */
  lemma ConnectsIffDue(g: SB.Settings, run: seq<Action>, updatedAt: int, network: bool, connectAt: int)
    requires After(g, run + [Update(updatedAt, network, connectAt)]).Some?
    ensures var all := run + [Update(updatedAt, network, connectAt)];
            var s' := After(g, all).value;
            s'.at.Opening? <==> s'.app.mqtt.Idle? && network && connectAt >= DueAt(TimesOf(g, all))
  {
    var all := run + [Update(updatedAt, network, connectAt)];
    assert all[..|run|] == run;
    AlwaysClocked(g, all);
  }

  /** Before the wakeup time, a round without events and readings does nothing
      about the connection; from then on it does. */
  lemma WakeupIsExact(g: SB.Settings, app: SA.App, o: SA.Outside)
    requires (app.awaiting ==> app.mqtt.Connected?) && o.checkedAt == o.connectAt
    ensures var wakeup := SA.Wakeup(app, o.network);
            if wakeup.Some? && o.connectAt >= wakeup.value
            then SA.Overdue(app, o.checkedAt) || SA.Asks(g, app, [], {}, o)
            else SA.Connection(g, app, [], {}, o) == (app, false)
  {
  }

  /** The loop sleeps until the awaited PUBACK is overdue, or until the next
      connection attempt is due when the network is there. */
  lemma SleepsUntilSomethingIsDue(g: SB.Settings, run: seq<Action>, o: SA.Outside)
    requires After(g, run).Some? && o.checkedAt == o.connectAt
    ensures var app, t := After(g, run).value.app, TimesOf(g, run);
            var wakeup := SA.Wakeup(app, o.network);
            && wakeup == (if app.awaiting then Some(t.sentAt + 120_000)
                          else if app.mqtt.Idle? && o.network then Some(DueAt(t)) else None)
            && if wakeup.Some? && o.connectAt >= wakeup.value
               then SA.Overdue(app, o.checkedAt) || SA.Asks(g, app, [], {}, o)
               else SA.Connection(g, app, [], {}, o) == (app, false)
  {
    AlwaysClocked(g, run);
    WakeupIsExact(g, After(g, run).value.app, o);
  }

  /** bdSeq counts the connections that ended, and the loop the readings it
      could not buffer, in the width of their types. */
  lemma CountersAreExact(g: SB.Settings, run: seq<Action>)
    requires After(g, run).Some?
    ensures var app, t := After(g, run).value.app, TimesOf(g, run);
            app.bdSeq == t.ends % 256 && app.skipped == t.skips % 0x1_0000_0000
  {
    AlwaysClocked(g, run);
  }

  // ------------------------------------------------------------ publish_next

  /** A round publishes exactly when it is connected, nothing is awaited, and the
      NBIRTH is not acknowledged or a batch is ready. */
  lemma PublishesIffReady(g: SB.Settings, run: seq<Action>, utcMs: uint64)
    requires SB.ValidSettings(g) && After(g, run + [Publish(utcMs)]).Some?
    ensures After(g, run).Some?
    ensures var app, at := After(g, run).value.app, After(g, run + [Publish(utcMs)]).value.at;
            && (at.Claiming? <==>
                  app.mqtt.Connected? && !app.awaiting && (app.birthAcked ==> |app.buffer| >= g.size))
            && (at.Claiming? ==>
                  at.b == if app.birthAcked then MS.Data(app.current, app.buffer) else MS.Birth(utcMs, app.bdSeq))
  {
    assert (run + [Publish(utcMs)])[..|run|] == run;
  }

  /** An NDATA holds at least a batch, and an NBIRTH the time of its round. */
  ghost predicate Ready(g: SB.Settings, run: seq<Action>, b: MS.Body) {
    match b
    case Birth(t, _) => Publish(t) in run
    case Data(_, readings) => |readings| >= g.size
  }

  ghost predicate AllReady(g: SB.Settings, run: seq<Action>, s: State) {
    && (forall k :: 0 <= k < |s.h.wire| ==> Ready(g, run, s.h.wire[k].b))
    && (s.at.Claiming? || s.at.Writing? ==> Ready(g, run, s.at.b))
  }

  lemma ReadyStays(g: SB.Settings, run: seq<Action>, a: Action, s: State, s': State)
    requires AllReady(g, run, s) && s'.h.wire == s.h.wire
    requires s'.at.Claiming? || s'.at.Writing? ==> (s.at.Claiming? || s.at.Writing?) && s'.at.b == s.at.b
    ensures AllReady(g, run + [a], s')
  {
  }

  lemma {:induction false} AlwaysReady(g: SB.Settings, run: seq<Action>)
    requires SB.ValidSettings(g) && After(g, run).Some?
    ensures AllReady(g, run, After(g, run).value)
    decreases |run|
  {
    if run != [] {
      var before, a := run[..|run| - 1], run[|run| - 1];
      var s := After(g, before).value;
      AlwaysReady(g, before);
      assert run == before + [a];
      match a {
        case Publish(t) => assert Publish(t) in run;
        case Write(_, _) =>
        case _ => ReadyStays(g, before, a, s, Step(g, s, a));
      }
    }
  }
}

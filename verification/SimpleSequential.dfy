/** One round of the simple firmware's loop, run with nothing in between, has in
    the interleaved machine the effect that the contract of the class states. */
module SimpleSequential {
  import opened Common
  import opened SimpleDevice
  import SA = SimpleApp
  import SB = SimpleBatch

  /** The application thread's next step, with the answers of one round. `fits` is
      whether the topic fits, `sent` whether a packet leaves the device. */
  function NextAction(s: State, o: SA.Outside, fits: bool, sent: bool): Action {
    match s.at
    case Waiting => Wake
    case Collecting(_) => if s.queue != [] then Collect else Proceed
    case Acking(_) => Proceed
    case Checking(_) => Check(o.checkedAt)
    case Closing(_) => Close(o.closes)
    case Reposting(_) => Repost
    case Updating(_) => Update(o.updatedAt, o.network, o.connectAt)
    case Opening => Open(o.connects, o.connectedAt)
    case Publishing => Publish(o.utcMs)
    case Claiming(_) => Claim(o.id, fits)
    case Writing(_, _) => Write(o.writes, sent)
    case Written(_, _, _) => Return(o.sentAt)
  }

  /** Up to n steps of the thread, until it waits again. */
  ghost function Alone(g: SB.Settings, s: State, o: SA.Outside, fits: bool, sent: bool, n: nat): State
    decreases n
  {
    var a := NextAction(s, o, fits, sent);
    if n == 0 || s.at.Waiting? || !Enabled(s, a) then s else Alone(g, Step(g, s, a), o, fits, sent, n - 1)
  }

  lemma StepAlone(g: SB.Settings, s: State, o: SA.Outside, fits: bool, sent: bool, n: nat) returns (s': State)
    requires n > 0 && !s.at.Waiting? && Enabled(s, NextAction(s, o, fits, sent))
    ensures s' == Step(g, s, NextAction(s, o, fits, sent))
    ensures Alone(g, s, o, fits, sent, n) == Alone(g, s', o, fits, sent, n - 1)
  {
    s' := Step(g, s, NextAction(s, o, fits, sent));
  }

  // ----------------------------------------------------------- publish_next

  /** The client takes the message. */
  predicate Takes(g: SB.Settings, s: State, o: SA.Outside, fits: bool) {
    SA.Next(g, s.app, o.utcMs).Some? && fits && s.pending == 0
  }

  function Published(g: SB.Settings, s: State, o: SA.Outside, fits: bool, sent: bool): State {
    s.(at := Waiting, app := SA.Publishing(g, s.app, s.pending, fits, o),
       pending := if Takes(g, s, o, fits) && o.writes then o.id else s.pending,
       h := if Takes(g, s, o, fits) && sent
            then s.h.(wire := s.h.wire + [Packet(s.session, o.id, SA.Next(g, s.app, o.utcMs).value)]) else s.h)
  }

  /** The answers of the helper are possible: a fresh identifier, a packet only on an open connection. */
  ghost predicate Answers(s: State, o: SA.Outside, sent: bool) {
    o.id != 0 && !Used(s, o.id) && (o.writes ==> sent) && (sent ==> s.link.Up?)
  }

  lemma UsedAsBefore(s: State, s': State, id: nat)
    requires s'.h.wire == s.h.wire && s'.session == s.session
    ensures Used(s', id) <==> Used(s, id)
  {
    forall k
      ensures SameId(s', k, id) <==> SameId(s, k, id)
    {
    }
  }

  /** The end of publish, with the message in hand. */
  function Finished(s: State, o: SA.Outside, fits: bool, sent: bool): State
    requires s.at.Claiming?
  {
    var takes := fits && s.pending == 0;
    s.(at := Waiting, app := if takes && o.writes then SA.Sent(s.app, o.sentAt) else s.app,
       pending := if takes && o.writes then o.id else s.pending,
       h := if takes && sent then s.h.(wire := s.h.wire + [Packet(s.session, o.id, s.at.b)]) else s.h)
  }

  lemma ClaimAlone(g: SB.Settings, s: State, o: SA.Outside, fits: bool, sent: bool, n: nat)
    requires s.at.Claiming? && n >= 3 && o.id != 0 && !Used(s, o.id)
    requires fits && s.pending == 0 ==> Answers(s, o, sent)
    ensures Alone(g, s, o, fits, sent, n) == Finished(s, o, fits, sent)
  {
    var s1 := StepAlone(g, s, o, fits, sent, n);
    if s1.at.Writing? {
      var s2 := StepAlone(g, s1, o, fits, sent, n - 1);
      var s3 := StepAlone(g, s2, o, fits, sent, n - 2);
    }
  }

  lemma PublishAlone(g: SB.Settings, s: State, o: SA.Outside, fits: bool, sent: bool, n: nat)
    requires s.at.Publishing? && n >= 4 && (Takes(g, s, o, fits) ==> Answers(s, o, sent))
    requires o.id != 0 && !Used(s, o.id)
    ensures Alone(g, s, o, fits, sent, n) == Published(g, s, o, fits, sent)
  {
    var s1 := StepAlone(g, s, o, fits, sent, n);
    if s1.at.Claiming? {
      UsedAsBefore(s, s1, o.id);
      ClaimAlone(g, s1, o, fits, sent, n - 1);
    }
  }

  // ------------------------------------------------------- update_connection

  function Linked(s: State, events: set<SA.Bit>, o: SA.Outside): State {
    var s1 := Updated(s, events, o.updatedAt, o.network, o.connectAt);
    if s1.at.Opening?
    then s1.(app := SA.Attempted(s1.app, o.connects, o.connectedAt), at := Publishing,
             link := if o.connects then Coming else s.link)
    else s1
  }

  lemma UpdateAlone(g: SB.Settings, s: State, o: SA.Outside, fits: bool, sent: bool, n: nat)
    requires s.at.Updating? && n >= 6
    requires Updated(s, s.at.events, o.updatedAt, o.network, o.connectAt).at.Opening? && o.connects ==> s.link.Down?
    requires var s1 := Linked(s, s.at.events, o);
             o.id != 0 && !Used(s1, o.id) && (Takes(g, s1, o, fits) ==> Answers(s1, o, sent))
    ensures Alone(g, s, o, fits, sent, n) == Published(g, Linked(s, s.at.events, o), o, fits, sent)
  {
    var s1 := StepAlone(g, s, o, fits, sent, n);
    if s1.at.Opening? {
      var s2 := StepAlone(g, s1, o, fits, sent, n - 1);
      PublishAlone(g, s2, o, fits, sent, n - 2);
    } else {
      PublishAlone(g, s1, o, fits, sent, n - 1);
    }
  }

  // ---------------------------------------------------- check_puback_timeout

  function Reviewed(s: State, events: set<SA.Bit>, o: SA.Outside): State {
    var late := SA.Overdue(s.app, o.checkedAt);
    s.(at := Updating(events), app := if late then SA.TimedOut(s.app) else s.app,
       bits := if late && !o.closes then s.bits + {SA.WentDown} else s.bits)
  }

  /** Everything from the timeout check to update_connection. */
  function Settled(s: State, events: set<SA.Bit>, o: SA.Outside): State {
    Linked(Reviewed(s, events, o), events, o)
  }

  /** The helper accepts a connection request only while it has no connection, and
      what it answers to a publish is possible. */
  ghost predicate Possible(g: SB.Settings, s: State, events: set<SA.Bit>, o: SA.Outside, fits: bool, sent: bool) {
    var s1 := Reviewed(s, events, o);
    && (Updated(s1, events, o.updatedAt, o.network, o.connectAt).at.Opening? && o.connects ==> s.link.Down?)
    && o.id != 0 && !Used(s, o.id)
    && (Takes(g, Settled(s, events, o), o, fits) ==> (o.writes ==> sent) && (sent ==> s.link.Up?))
  }

  lemma CheckAlone(g: SB.Settings, s: State, o: SA.Outside, fits: bool, sent: bool, n: nat)
    requires s.at.Checking? && n >= 9 && Possible(g, s, s.at.events, o, fits, sent)
    ensures Alone(g, s, o, fits, sent, n) == Published(g, Settled(s, s.at.events, o), o, fits, sent)
  {
    TakenIsLinked(g, s, s.at.events, o, fits);
    var s1 := StepAlone(g, s, o, fits, sent, n);
    if s1.at.Closing? {
      var s2 := StepAlone(g, s1, o, fits, sent, n - 1);
      if s2.at.Reposting? {
        var s3 := StepAlone(g, s2, o, fits, sent, n - 2);
        UpdateAlone(g, s3, o, fits, sent, n - 3);
      } else {
        UpdateAlone(g, s2, o, fits, sent, n - 2);
      }
    } else {
      UpdateAlone(g, s1, o, fits, sent, n - 1);
    }
  }

  /** Only a loop that did not ask for a connection publishes. */
  lemma TakenIsLinked(g: SB.Settings, s: State, events: set<SA.Bit>, o: SA.Outside, fits: bool)
    ensures Used(Settled(s, events, o), o.id) <==> Used(s, o.id)
    ensures Takes(g, Settled(s, events, o), o, fits) ==> Settled(s, events, o).link == s.link
  {
    UsedAsBefore(s, Settled(s, events, o), o.id);
  }

  // ----------------------------------------------------------- handle_puback

  function PubackRead(s: State, events: set<SA.Bit>): State {
    (if SA.GotPuback in events then Acked(s) else s).(at := Checking(events))
  }

  lemma AckAlone(g: SB.Settings, s: State, o: SA.Outside, fits: bool, sent: bool, n: nat)
    requires s.at.Acking? && n >= 10 && Possible(g, PubackRead(s, s.at.events), s.at.events, o, fits, sent)
    ensures var s1 := PubackRead(s, s.at.events);
            Alone(g, s, o, fits, sent, n) == Published(g, Settled(s1, s.at.events, o), o, fits, sent)
  {
    var s1 := StepAlone(g, s, o, fits, sent, n);
    CheckAlone(g, s1, o, fits, sent, n - 1);
  }

  // ---------------------------------------------------- collect_measurements

  function AllCollected(g: SB.Settings, s: State): State
    decreases |s.queue|
  {
    if s.queue == [] then s else AllCollected(g, Collected(g, s))
  }

  /** The loop's state is that of the class; the rest is left alone. */
  lemma {:induction false} CollectsAll(g: SB.Settings, s: State)
    ensures var s' := AllCollected(g, s);
            s' == s.(queue := [], app := SA.CollectedAll(g, s.app, s.queue), h := s.h.(accepted := s'.h.accepted))
    decreases |s.queue|
  {
    if s.queue != [] { CollectsAll(g, Collected(g, s)); }
  }

  lemma {:induction false} CollectAlone(g: SB.Settings, s: State, o: SA.Outside, fits: bool, sent: bool, n: nat)
    requires s.at.Collecting? && n > |s.queue|
    ensures Alone(g, s, o, fits, sent, n)
         == Alone(g, AllCollected(g, s).(at := Acking(s.at.events)), o, fits, sent, n - |s.queue| - 1)
    decreases |s.queue|
  {
    var s1 := StepAlone(g, s, o, fits, sent, n);
    if s.queue != [] { CollectAlone(g, s1, o, fits, sent, n - 1); }
  }

  // --------------------------------------------------------------- the round

  /** The thread after it read its event bits and collected the readings. */
  function Gathered(g: SB.Settings, s: State): State {
    AllCollected(g, s.(at := Collecting(s.bits), bits := {})).(at := Acking(s.bits))
  }

  /** The same, after a PUBACK was handled. */
  function Begun(g: SB.Settings, s: State): State {
    PubackRead(Gathered(g, s), s.bits)
  }

  lemma GatherAlone(g: SB.Settings, s: State, o: SA.Outside, fits: bool, sent: bool, n: nat)
    requires s.at.Waiting? && n > |s.queue|
    ensures Alone(g, Step(g, s, Wake), o, fits, sent, n) == Alone(g, Gathered(g, s), o, fits, sent, n - |s.queue| - 1)
  {
    CollectAlone(g, Step(g, s, Wake), o, fits, sent, n);
  }

  /** One whole round from waiting to waiting. */
  lemma RoundSteps(g: SB.Settings, s: State, o: SA.Outside, fits: bool, sent: bool, n: nat)
    requires s.at.Waiting? && n >= |s.queue| + 11 && Possible(g, Begun(g, s), s.bits, o, fits, sent)
    ensures Alone(g, Step(g, s, Wake), o, fits, sent, n) == Published(g, Settled(Begun(g, s), s.bits, o), o, fits, sent)
  {
    GatherAlone(g, s, o, fits, sent, n);
    AckAlone(g, Gathered(g, s), o, fits, sent, n - |s.queue| - 1);
  }

  /** What a round leaves alone before it publishes. */
  predicate SameOutside(s: State, s': State) {
    && s'.measured == s.measured && s'.call == s.call && s'.session == s.session && s'.pending == s.pending
    && s'.h.wire == s.h.wire && s'.h.arrived == s.h.arrived
  }

  lemma BegunState(g: SB.Settings, s: State)
    ensures var s', a := Begun(g, s), SA.CollectedAll(g, s.app, s.queue);
            && SameOutside(s, s') && s'.link == s.link && s'.queue == [] && s'.bits == {}
            && s'.app == (if SA.GotPuback in s.bits then SA.PubackHandled(a) else a)
  {
    CollectsAll(g, s.(at := Collecting(s.bits), bits := {}));
  }

  lemma SettledState(s: State, events: set<SA.Bit>, o: SA.Outside)
    ensures var s', late := Settled(s, events, o), SA.Overdue(s.app, o.checkedAt);
            var a := SA.Updated(if late then SA.TimedOut(s.app) else s.app, events, o.updatedAt);
            && SameOutside(s, s') && s'.queue == s.queue
            && s'.bits == s.bits + (if late && !o.closes then {SA.WentDown} else {})
            && (SA.MayConnect(a, o.network, o.connectAt) <==>
                  Updated(Reviewed(s, events, o), events, o.updatedAt, o.network, o.connectAt).at.Opening?)
            && if SA.MayConnect(a, o.network, o.connectAt)
               then
                 && s'.app == SA.Attempted(a, o.connects, o.connectedAt)
                 && s'.link == (if o.connects then Coming else s.link)
               else s'.app == a && s'.link == s.link
  {
  }

  /** Before it publishes, the thread has the state of SimpleApp.Connection. */
  lemma ConnectionState(g: SB.Settings, s: State, o: SA.Outside)
    ensures var s', (a, posts) := Settled(Begun(g, s), s.bits, o), SA.Connection(g, s.app, s.queue, s.bits, o);
            && SameOutside(s, s') && s'.queue == [] && s'.app == a
            && s'.bits == (if posts then {SA.WentDown} else {})
            && s'.link == (if o.connects && SA.Asks(g, s.app, s.queue, s.bits, o) then Coming else s.link)
            && (SA.Asks(g, s.app, s.queue, s.bits, o) <==>
                  Updated(Reviewed(Begun(g, s), s.bits, o), s.bits, o.updatedAt, o.network, o.connectAt).at.Opening?)
  {
    BegunState(g, s);
    SettledState(Begun(g, s), s.bits, o);
  }

  /** What the helper answers in the round is possible: it accepts a connection
      request only while it has no connection, the identifier is fresh, a write that
      succeeds has sent its packet, and packets leave only on an open connection. */
  ghost predicate Consistent(g: SB.Settings, s: State, o: SA.Outside, fits: bool, sent: bool) {
    var (a, _) := SA.Connection(g, s.app, s.queue, s.bits, o);
    && (o.connects && SA.Asks(g, s.app, s.queue, s.bits, o) ==> s.link.Down?)
    && o.id != 0 && !Used(s, o.id)
    && (SA.Next(g, a, o.utcMs).Some? && fits && s.pending == 0 ==> (o.writes ==> sent) && (sent ==> s.link.Up?))
  }

  /** The round has the effect on the loop's state, on the pending identifier, on the
      event bits and on the wire that SimpleApp.Application.Round states. */
  lemma RoundAlone(g: SB.Settings, s: State, o: SA.Outside, fits: bool, sent: bool, n: nat)
    requires s.at.Waiting? && n >= |s.queue| + 11 && Consistent(g, s, o, fits, sent)
    ensures var s' := Alone(g, Step(g, s, Wake), o, fits, sent, n);
            var (a, posts) := SA.Connection(g, s.app, s.queue, s.bits, o);
            var next := SA.Next(g, a, o.utcMs);
            var takes := next.Some? && fits && s.pending == 0;
            && s'.at.Waiting? && s'.queue == [] && s'.app == SA.Publishing(g, a, s.pending, fits, o)
            && s'.bits == (if posts then {SA.WentDown} else {})
            && s'.pending == (if takes && o.writes then o.id else s.pending)
            && s'.h.wire == s.h.wire + (if takes && sent then [Packet(s.session, o.id, next.value)] else [])
            && s'.link == (if o.connects && SA.Asks(g, s.app, s.queue, s.bits, o) then Coming else s.link)
            && s'.measured == s.measured && s'.call == s.call && s'.session == s.session
            && s'.h.arrived == s.h.arrived
  {
    BegunState(g, s);
    ConnectionState(g, s, o);
    UsedAsBefore(s, Begun(g, s), o.id);
    RoundSteps(g, s, o, fits, sent, n);
  }
}

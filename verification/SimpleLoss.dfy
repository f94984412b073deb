/** When the simple firmware forgets a reading the broker never got: exactly when
    the PUBACK of a packet whose write reports failure is taken before the failed
    call returns, and no disconnect is about to be seen. Until such a step every
    reading is kept (SimpleDevice.Conservation); from every state after one there
    is a continuation, without another such step, that loses a reading. The
    event bit, set late, passes for the PUBACK of the next message. */
module SimpleLoss {
  import opened Common
  import opened SimpleDevice
  import MS = MeasurementService
  import SB = SimpleBatch
  import SA = SimpleApp

  /** A continuation of base without harmful steps, and where it leads. */
  ghost predicate Reaches(g: SB.Settings, base: seq<Action>, run: seq<Action>, s: State) {
    base <= run && After(g, run) == Some(s) && HarmlessFrom(g, |base|, run)
  }

  lemma Then(g: SB.Settings, base: seq<Action>, run: seq<Action>, s: State, a: Action)
    returns (run': seq<Action>, s': State)
    requires Reaches(g, base, run, s) && Enabled(s, a) && !Harmful(s, a)
    ensures run' == run + [a] && s' == Step(g, s, a) && Reaches(g, base, run', s')
  {
    run', s' := run + [a], Step(g, s, a);
    assert run'[..|run'| - 1] == run;
  }

  // --------------------------------------------------------- a round's readings

  lemma {:induction false} CollectedKeeps(g: SB.Settings, a: SA.App, queue: seq<Measurement>)
    ensures var r := SA.CollectedAll(g, a, queue);
            && r == a.(buffer := r.buffer, skipped := r.skipped)
            && forall m :: m in r.buffer ==> m in a.buffer || m in queue
    decreases |queue|
  {
    if queue != [] { CollectedKeeps(g, SA.Collected(g, a, queue[0]), queue[1..]); }
  }

  /** The thread empties the queue into the buffer. */
  lemma {:induction false} Drains(g: SB.Settings, base: seq<Action>, run: seq<Action>, s: State)
    returns (run': seq<Action>, s': State)
    requires Reaches(g, base, run, s) && s.at.Collecting?
    ensures Reaches(g, base, run', s') && s' == s.(queue := [], app := SA.CollectedAll(g, s.app, s.queue), h := s'.h)
    ensures s'.h.wire == s.h.wire && s'.h.arrived == s.h.arrived
    decreases |s.queue|
  {
    if s.queue == [] {
      run', s' := run, s;
    } else {
      run', s' := Then(g, base, run, s, Collect);
      run', s' := Drains(g, base, run', s');
    }
  }

  /** Connected, with nothing outstanding and no disconnect or PUBACK bit set. */
  predicate Idling(s: State) {
    s.app.mqtt.Connected? && !s.app.awaiting && SA.WentDown !in s.bits && SA.GotPuback !in s.bits
  }

  /** The end of a round that sees no disconnect. */
  lemma Passes(g: SB.Settings, base: seq<Action>, run: seq<Action>, s: State) returns (run': seq<Action>, s': State)
    requires Reaches(g, base, run, s) && s.at.Checking? && SA.WentDown !in s.at.events
    requires s.app.mqtt.Connected? && !s.app.awaiting
    ensures Reaches(g, base, run', s') && s' == s.(at := Publishing)
  {
    run', s' := Then(g, base, run, s, Check(0));
    run', s' := Then(g, base, run', s', Update(0, true, 0));
  }

  /** One round of the loop, up to publish_next. */
  lemma Turns(g: SB.Settings, base: seq<Action>, run: seq<Action>, s: State) returns (run': seq<Action>, s': State)
    requires Reaches(g, base, run, s) && s.at.Waiting? && Idling(s)
    ensures Reaches(g, base, run', s')
    ensures s' == s.(at := Publishing, bits := {}, queue := [], app := SA.CollectedAll(g, s.app, s.queue), h := s'.h)
    ensures s'.h.wire == s.h.wire && s'.h.arrived == s.h.arrived
  {
    CollectedKeeps(g, s.app, s.queue);
    run', s' := Then(g, base, run, s, Wake);
    run', s' := Drains(g, base, run', s');
    run', s' := Then(g, base, run', s', Proceed);
    run', s' := Then(g, base, run', s', Proceed);
    run', s' := Passes(g, base, run', s');
  }

  // ------------------------------------------------------------- primed states

  /** About to publish, with a PUBACK bit on its way that answers nothing. */
  predicate Primed(s: State) {
    s.at.Publishing? && Idling(s) && s.pending == 0 && s.call.AckPost? && s.link.Up? && s.queue == []
  }

  ghost predicate NotSent(x: Measurement, s: State) {
    forall k :: 0 <= k < |s.h.wire| ==> x !in ReadingsOf(s.h.wire, k)
  }

  /** The reading is in no packet and not in the device. */
  ghost predicate Unseen(x: Measurement, s: State) {
    NotSent(x, s) && x !in s.app.buffer && x !in s.queue
  }

  ghost predicate Bounded(s: State) {
    forall i :: 0 <= i < |s.h.arrived| ==> s.h.arrived[i] < |s.h.wire|
  }

  lemma {:induction false} AlwaysBounded(g: SB.Settings, run: seq<Action>)
    requires After(g, run).Some?
    ensures Bounded(After(g, run).value)
    decreases |run|
  {
    if run != [] { AlwaysBounded(g, run[..|run| - 1]); }
  }

  /** The harm is done: the failed call returns, and the loop comes round. */
  lemma Primes(g: SB.Settings, base: seq<Action>, s: State) returns (run': seq<Action>, s': State)
    requires After(g, base) == Some(s) && s.at.Written? && !s.at.ok && Idling(s) && s.call.AckPost? && s.link.Up?
    ensures Reaches(g, base, run', s') && Primed(s') && s'.h.wire == s.h.wire && s'.h.arrived == s.h.arrived
    ensures forall x :: Unseen(x, s) ==> Unseen(x, s')
  {
    CollectedKeeps(g, s.app, s.queue);
    run', s' := Then(g, base, base, s, Return(0));
    run', s' := Turns(g, base, run', s');
  }

  function FreshId(wire: seq<Packet>): (id: nat)
    ensures id != 0 && forall k :: 0 <= k < |wire| ==> wire[k].id < id
  {
    if wire == [] then 1
    else
      var id, last := FreshId(wire[..|wire| - 1]), wire[|wire| - 1].id;
      if last < id then id else last + 1
  }

  /** The state after a message was written and its call returned. */
  function SentFrom(s: State, id: nat, b: MS.Body): State {
    s.(at := Waiting, pending := id, app := SA.Sent(SA.Counted(s.app, b), 0),
       h := s.h.(wire := s.h.wire + [Packet(s.session, id, b)]))
  }

  lemma Sends(g: SB.Settings, base: seq<Action>, run: seq<Action>, s: State, b: MS.Body)
    returns (run': seq<Action>, s': State)
    requires Reaches(g, base, run, s) && Primed(s) && SA.Next(g, s.app, 0) == Some(b)
    ensures Reaches(g, base, run', s') && s' == SentFrom(s, FreshId(s.h.wire), b)
  {
    var id := FreshId(s.h.wire);
    run', s' := Then(g, base, run, s, Publish(0));
    assert !Used(s', id);
    run', s' := Then(g, base, run', s', Claim(id, true));
    run', s' := Then(g, base, run', s', Write(true, true));
    run', s' := Then(g, base, run', s', Return(0));
  }

  lemma AckedApart(s: State, at: At, bits: set<SA.Bit>)
    ensures Acked(s.(at := at, bits := bits)) == Acked(s).(at := at, bits := bits)
  {
  }

  /** The stray bit is set and acted on: what was just sent counts as acknowledged. */
  lemma Acts(g: SB.Settings, base: seq<Action>, run: seq<Action>, s: State) returns (run': seq<Action>, s': State)
    requires Reaches(g, base, run, s) && s.at.Waiting? && s.queue == [] && SA.GotPuback in s.bits
    ensures Reaches(g, base, run', s') && s' == Acked(s).(at := Checking(s.bits), bits := {})
  {
    run', s' := Then(g, base, run, s, Wake);
    run', s' := Then(g, base, run', s', Proceed);
    AckedApart(s, Acking(s.bits), {});
    var t := s.(at := Acking(s.bits), bits := {});
    run', s' := Then(g, base, run', t, Proceed);
    assert s' == Acked(t).(at := Checking(s.bits));
  }

  /** A message is sent and arrives; the stray bit is taken for its PUBACK, whose own bit is now the stray one. */
  lemma Answers(g: SB.Settings, base: seq<Action>, run: seq<Action>, s: State, id: nat)
    returns (run': seq<Action>, s': State)
    requires Reaches(g, base, run, s) && s.at.Waiting? && s.call.AckPost? && s.link.Up? && s.pending == id
    requires s.h.wire != []
    requires s.h.wire[|s.h.wire| - 1].session == s.session && s.h.wire[|s.h.wire| - 1].id == id
    ensures Reaches(g, base, run', s')
    ensures s' == s.(bits := s.bits + {SA.GotPuback}, pending := 0,
            h := s.h.(arrived := s.h.arrived + [|s.h.wire| - 1]))
  {
    run', s' := Then(g, base, run, s, CallNext);
    run', s' := Then(g, base, run', s', Arrive(|s.h.wire| - 1));
    assert SameId(s', s'.h.arrived[|s.h.arrived|], id);
    run', s' := Then(g, base, run', s', Puback(id, true));
  }

  /** What remains of a primed state's buffer when its next message counts as acknowledged. */
  function Kept(s: State): seq<Measurement> {
    if s.app.birthAcked then [] else s.app.buffer
  }

  lemma Exchanges(g: SB.Settings, base: seq<Action>, run: seq<Action>, s: State, b: MS.Body)
    returns (run': seq<Action>, t: State, s': State)
    requires Reaches(g, base, run, s) && Primed(s) && SA.Next(g, s.app, 0) == Some(b)
    ensures Reaches(g, base, run', s') && s' == Acked(t).(at := Checking(t.bits), bits := {})
    ensures t == SentFrom(s, FreshId(s.h.wire), b).(bits := s.bits + {SA.GotPuback}, pending := 0, h := t.h)
    ensures t.h.wire == s.h.wire + [Packet(s.session, FreshId(s.h.wire), b)]
    ensures t.h.arrived == s.h.arrived + [|s.h.wire|]
  {
    run', t := Sends(g, base, run, s, b);
    run', t := Answers(g, base, run', t, FreshId(s.h.wire));
    run', s' := Acts(g, base, run', t);
  }

  lemma Clears(g: SB.Settings, base: seq<Action>, run: seq<Action>, s: State) returns (run': seq<Action>, s': State)
    requires Reaches(g, base, run, s) && Primed(s) && SA.Next(g, s.app, 0).Some?
    ensures Reaches(g, base, run', s') && Primed(s') && s'.app.birthAcked && s'.app.buffer == Kept(s)
    ensures (Bounded(s) ==> Bounded(s')) && forall x :: Unseen(x, s) ==> Unseen(x, s')
  {
    var b := SA.Next(g, s.app, 0).value;
    var t: State;
    run', t, s' := Exchanges(g, base, run, s, b);
    run', s' := Passes(g, base, run', s');
    assert s'.h.wire == t.h.wire && s'.h.arrived == t.h.arrived;
    forall x | Unseen(x, s)
      ensures Unseen(x, s')
    {
      AppendNotSent(x, s, s', b);
    }
  }

  lemma AppendNotSent(x: Measurement, s: State, s': State, b: MS.Body)
    requires NotSent(x, s) && s'.h.wire == s.h.wire + [Packet(s.session, FreshId(s.h.wire), b)]
    requires b.Data? ==> x !in b.readings
    ensures NotSent(x, s')
  {
    forall k | 0 <= k < |s'.h.wire|
      ensures x !in ReadingsOf(s'.h.wire, k)
    {
      if k < |s.h.wire| { assert ReadingsOf(s'.h.wire, k) == ReadingsOf(s.h.wire, k); }
    }
  }

  /** One more reading is taken and buffered, and nothing is sent yet. */
  lemma Takes(g: SB.Settings, base: seq<Action>, run: seq<Action>, s: State, x: Measurement)
    returns (run': seq<Action>, s': State)
    requires SB.ValidSettings(g) && Reaches(g, base, run, s) && Primed(s) && s.app.birthAcked && |s.app.buffer| < g.size
    ensures Reaches(g, base, run', s') && Primed(s') && s'.app.birthAcked && s'.app.buffer == s.app.buffer + [x]
    ensures s'.h.wire == s.h.wire && s'.h.arrived == s.h.arrived
  {
    run', s' := Then(g, base, run, s, Publish(0));
    if s'.measured { run', s' := Then(g, base, run', s', PostMeasured); }
    run', s' := Then(g, base, run', s', Measure(x));
    run', s' := Turns(g, base, run', s');
    assert SA.CollectedAll(g, s.app, [x]) == SA.CollectedAll(g, SA.Collected(g, s.app, x), []);
  }

  lemma {:induction false} Fills(g: SB.Settings, base: seq<Action>, run: seq<Action>, s: State, x: Measurement)
    returns (run': seq<Action>, s': State)
    requires SB.ValidSettings(g) && Reaches(g, base, run, s) && Primed(s) && s.app.birthAcked && |s.app.buffer| < g.size
    ensures Reaches(g, base, run', s') && Primed(s') && s'.app.birthAcked && |s'.app.buffer| >= g.size
    ensures x in s'.app.buffer
    ensures s'.h.wire == s.h.wire && s'.h.arrived == s.h.arrived
    decreases g.size - |s.app.buffer|
  {
    run', s' := Takes(g, base, run, s, x);
    if |s'.app.buffer| < g.size { run', s' := Fills(g, base, run', s', x); }
  }

  // ----------------------------------------------------------------- the loss

  /** The last packet was removed as acknowledged and never reached the broker. */
  ghost predicate LostLast(s: State, x: Measurement) {
    && s.h.wire != [] && s.h.acked != [] && s.h.acked[|s.h.acked| - 1] == |s.h.wire| - 1
    && !Arrived(s.h.arrived, |s.h.wire| - 1)
    && x in ReadingsOf(s.h.wire, |s.h.wire| - 1) && x in s.h.removed && x !in s.app.buffer
  }

  /** The reading is in no packet that reached the broker. */
  ghost predicate Undelivered(s: State, x: Measurement) {
    forall i :: 0 <= i < |s.h.arrived| ==> x !in ReadingsOf(s.h.wire, s.h.arrived[i])
  }

  lemma Loses(g: SB.Settings, base: seq<Action>, run: seq<Action>, s: State, x: Measurement)
    returns (run': seq<Action>, s': State)
    requires SB.ValidSettings(g) && Reaches(g, base, run, s) && Primed(s) && Bounded(s)
    requires s.app.birthAcked && |s.app.buffer| >= g.size && x in s.app.buffer
    ensures Reaches(g, base, run', s') && LostLast(s', x) && (NotSent(x, s) ==> Undelivered(s', x))
  {
    var b := MS.Data(s.app.current, s.app.buffer);
    run', s' := Sends(g, base, run, s, b);
    run', s' := Then(g, base, run', s', CallNext);
    var t := s';
    run', s' := Acts(g, base, run', s');
    assert t.app.buffer[..|t.app.buffer|] == s.app.buffer;
    forall i | 0 <= i < |s'.h.arrived|
      ensures s'.h.arrived[i] != |s'.h.wire| - 1
      ensures ReadingsOf(s'.h.wire, s'.h.arrived[i]) == ReadingsOf(s.h.wire, s'.h.arrived[i])
    {
      assert s'.h.arrived[i] < |s.h.wire|;
    }
  }

  /** From every primed state there is a way to lose a reading. */
  lemma PrimedLoses(g: SB.Settings, base: seq<Action>, run: seq<Action>, s: State, x: Measurement)
    returns (run': seq<Action>, s': State)
    requires SB.ValidSettings(g) && Reaches(g, base, run, s) && Primed(s) && Bounded(s)
    ensures Reaches(g, base, run', s') && LostLast(s', x) && (Unseen(x, s) ==> Undelivered(s', x))
  {
    run', s' := run, s;
    if !s'.app.birthAcked { run', s' := Clears(g, base, run', s'); }
    if |s'.app.buffer| >= g.size { run', s' := Clears(g, base, run', s'); }
    run', s' := Fills(g, base, run', s', x);
    run', s' := Loses(g, base, run', s', x);
  }

  lemma HarmIsIdling(s: State, a: Action)
    requires Sound(s) && Enabled(s, a) && Harmful(s, a)
    ensures Idling(s) && s.link.Up?
  {
    var n :| 0 <= n < |s.h.arrived| && SameId(s, s.h.arrived[n], a.id);
    assert s.pending != 0;
  }

  /** After a harmful step there is a continuation, with no other harmful step,
      that removes a reading x as delivered although it is in no packet that
      reached the broker, for every x the device does not have yet. */
  lemma HarmLosesReading(g: SB.Settings, run: seq<Action>, a: Action, x: Measurement)
    returns (longer: seq<Action>, s': State)
    requires SB.ValidSettings(g) && After(g, run).Some? && Harmless(g, run)
    requires Enabled(After(g, run).value, a) && Harmful(After(g, run).value, a)
    ensures Reaches(g, run + [a], longer, s') && LostLast(s', x)
    ensures Unseen(x, After(g, run).value) ==> Undelivered(s', x)
  {
    var s, base := After(g, run).value, run + [a];
    AlwaysSound(g, run);
    AlwaysBounded(g, run);
    HarmIsIdling(s, a);
    assert base[..|base| - 1] == run;
    longer, s' := Primes(g, base, Step(g, s, a));
    longer, s' := PrimedLoses(g, base, longer, s', x);
  }

  // ------------------------------------------------------ the exact condition

  /** Every reading accepted is buffered or was removed with an NDATA that reached the broker. */
  ghost predicate Keeps(s: State) {
    s.h.accepted == Readings(s.h.wire, s.h.acked) + s.app.buffer && AllArrived(s.h)
  }

  ghost predicate Continues(g: SB.Settings, base: seq<Action>, longer: seq<Action>) {
    base <= longer && After(g, longer).Some? && HarmlessFrom(g, |base|, longer)
  }

  lemma {:induction false} HarmlessJoins(g: SB.Settings, base: seq<Action>, longer: seq<Action>)
    requires Continues(g, base, longer) && After(g, base).Some? && Harmless(g, base)
    ensures Harmless(g, longer)
    decreases |longer|
  {
    if |longer| > |base| {
      HarmlessJoins(g, base, longer[..|longer| - 1]);
    } else {
      assert longer == base;
    }
  }

  /** Whatever the firmware does afterwards keeps every reading, if and only if
      the step does no harm. */
  lemma HarmIsExact(g: SB.Settings, run: seq<Action>, a: Action)
    requires SB.ValidSettings(g) && After(g, run).Some? && Harmless(g, run) && Enabled(After(g, run).value, a)
    ensures !Harmful(After(g, run).value, a) <==>
            forall longer :: Continues(g, run + [a], longer) ==> Keeps(After(g, longer).value)
  {
    var base := run + [a];
    assert base[..|base| - 1] == run;
    if Harmful(After(g, run).value, a) {
      var longer, s' := HarmLosesReading(g, run, a, Measurement(0, 0, 0));
      assert Continues(g, base, longer) && !Keeps(s');
    } else {
      forall longer | Continues(g, base, longer)
        ensures Keeps(After(g, longer).value)
      {
        HarmlessJoins(g, base, longer);
        Conservation(g, longer);
      }
    }
  }
}

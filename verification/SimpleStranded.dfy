/** When the simple firmware's loop is idle although the helper has a connection:
    exactly when update_connection has acted on a disconnect bit while the helper
    was connecting or connected, and that connection has not ended since. The bit
    was set by the callback of an earlier connection, or by the loop itself after
    the helper had refused to disconnect. Nothing is sent in such a state and every
    connection attempt fails. There is a run to it for either kind of bit. */
module SimpleStranded {
  import opened Common
  import opened SimpleDevice
  import C = SimpleCounterexample
  import SB = SimpleBatch
  import SA = SimpleApp

  /** A helper with a connection has a loop that knows of one. */
  predicate Matched(s: State) {
    s.link.Down? || !s.app.mqtt.Idle?
  }

  /** A disconnect bit is acted on although the present connection has not ended. */
  predicate StaleDown(s: State, a: Action) {
    a.Update? && s.at.Updating? && SA.WentDown in s.at.events && !s.app.mqtt.Idle? && !s.link.Down?
  }

  /** The helper is asked to connect only by an idle loop, and only a connected
      loop publishes and waits for a PUBACK. */
  predicate Placed(s: State) {
    (s.at.Opening? ==> s.app.mqtt.Idle?) && (Offering(s.at) || s.app.awaiting ==> s.app.mqtt.Connected?)
  }

  lemma StepKeepsPlaced(g: SB.Settings, s: State, a: Action)
    requires Placed(s) && Enabled(s, a)
    ensures Placed(Step(g, s, a))
  {
  }

  lemma {:induction false} AlwaysPlaced(g: SB.Settings, run: seq<Action>)
    requires After(g, run).Some?
    ensures Placed(After(g, run).value)
    decreases |run|
  {
    if run != [] {
      AlwaysPlaced(g, run[..|run| - 1]);
      StepKeepsPlaced(g, After(g, run[..|run| - 1]).value, run[|run| - 1]);
    }
  }

  lemma StepMatches(g: SB.Settings, s: State, a: Action)
    requires Placed(s) && Enabled(s, a)
    ensures Matched(s) ==> (Matched(Step(g, s, a)) <==> !StaleDown(s, a))
    ensures !Matched(s) ==> (Matched(Step(g, s, a)) <==> Step(g, s, a).link.Down?)
    ensures StaleDown(s, a) ==> !Step(g, s, a).link.Down?
  {
    match a {
      case Measure(_) => case PostMeasured => case NetworkEvent => case Arrive(_) => case Connack =>
      case Disconnected =>
      case Puback(_, _) => case CallNext => case Wake => case Collect => case Proceed => case Check(_) =>
      case Close(_) =>
      case Repost => case Update(_, _, _) => case Open(_, _) => case Publish(_) => case Claim(_, _) =>
      case Write(_, _) =>
      case Return(_) =>
    }
  }

  /** A disconnect bit has been acted on since the helper last had no connection. */
  ghost predicate Stranded(g: SB.Settings, run: seq<Action>)
    requires After(g, run).Some?
    decreases |run|
  {
    && run != [] && !After(g, run).value.link.Down?
    && (StaleDown(After(g, run[..|run| - 1]).value, run[|run| - 1]) || Stranded(g, run[..|run| - 1]))
  }

  /** The exact condition, over every run. */
  lemma {:induction false} MatchedIffNotStranded(g: SB.Settings, run: seq<Action>)
    requires After(g, run).Some?
    ensures Matched(After(g, run).value) <==> !Stranded(g, run)
    decreases |run|
  {
    if run != [] {
      MatchedIffNotStranded(g, run[..|run| - 1]);
      AlwaysPlaced(g, run[..|run| - 1]);
      StepMatches(g, After(g, run[..|run| - 1]).value, run[|run| - 1]);
    }
  }

  /** While it lasts nothing is written and no attempt to connect succeeds; only
      the end of the helper's connection ends it. */
  lemma StrandedIsStuck(g: SB.Settings, run: seq<Action>, a: Action)
    requires After(g, run).Some? && Stranded(g, run) && Enabled(After(g, run).value, a)
    ensures var s, s' := After(g, run).value, Step(g, After(g, run).value, a);
            s'.h.wire == s.h.wire && !(a.Open? && a.ok) && (Matched(s') <==> a.Disconnected?)
  {
    MatchedIffNotStranded(g, run);
    AlwaysPlaced(g, run);
    StepMatches(g, After(g, run).value, a);
  }

  // ------------------------------------------------ where the bit comes from

  /** Who set a disconnect bit: the callback of a connection, or the loop after a refused disconnect. */
  datatype Poster = Callback(session: int) | Loop

  /** The posters of the bit that is set, and of the bit the round woke up with. */
  datatype Posters = Posters(waiting: set<Poster>, woken: set<Poster>)

  function PostedBy(s: State, a: Action): set<Poster> {
    if a.CallNext? && s.call.DownPost? then {Callback(s.session - 1)} else if a.Repost? then {Loop} else {}
  }

  function Extended(s: State, a: Action, p: Posters): Posters {
    if a.Wake? then Posters({}, p.waiting) else p.(waiting := p.waiting + PostedBy(s, a))
  }

  ghost function PostersOf(g: SB.Settings, run: seq<Action>): Posters
    requires After(g, run).Some?
    decreases |run|
  {
    if run == [] then Posters({}, {})
    else
      var before, a := PostersOf(g, run[..|run| - 1]), run[|run| - 1];
      Extended(After(g, run[..|run| - 1]).value, a, before)
  }

  /** A disconnect bit has a poster, and a callback's connection has ended before the present one. */
  ghost predicate Explained(s: State, p: Posters) {
    && (SA.WentDown in s.bits <==> p.waiting != {})
    && (BeforeUpdate(s.at) ==> (SA.WentDown in s.at.events <==> p.woken != {}))
    && (forall k :: Callback(k) in p.waiting || Callback(k) in p.woken ==> 0 <= k < s.session)
    && (s.call.DownClear? || s.call.DownPost? ==> s.session > 0)
  }

  lemma ElsewhereExplains(g: SB.Settings, s: State, a: Action, p: Posters)
    requires Enabled(s, a) && Elsewhere(a) && Explained(s, p)
    ensures Explained(Step(g, s, a), Extended(s, a, p))
  {
    match a {
      case Measure(_) => case PostMeasured => case NetworkEvent => case Arrive(_) => case Connack =>
      case Disconnected => case Puback(_, _) =>
      case CallNext => if s.call.DownPost? { assert Callback(s.session - 1) in p.waiting + PostedBy(s, a); }
    }
  }

  lemma HereExplains(g: SB.Settings, s: State, a: Action, p: Posters)
    requires Enabled(s, a) && !Elsewhere(a) && Explained(s, p)
    ensures Explained(Step(g, s, a), Extended(s, a, p))
  {
    match a {
      case Collect => case Proceed => case Check(_) => case Close(_) => case Update(_, _, _) => case Open(_, _) =>
      case Publish(_) => case Claim(_, _) => case Write(_, _) => case Return(_) => case Wake =>
      case Repost => assert Loop in p.waiting + PostedBy(s, a);
    }
  }

  lemma {:induction false} AlwaysExplained(g: SB.Settings, run: seq<Action>)
    requires After(g, run).Some?
    ensures Explained(After(g, run).value, PostersOf(g, run))
    decreases |run|
  {
    if run != [] {
      var before := run[..|run| - 1];
      AlwaysExplained(g, before);
      if Elsewhere(run[|run| - 1]) {
        ElsewhereExplains(g, After(g, before).value, run[|run| - 1], PostersOf(g, before));
      } else {
        HereExplains(g, After(g, before).value, run[|run| - 1], PostersOf(g, before));
      }
    }
  }

  /** The bit that strands the loop was set by the callback of an earlier
      connection, or by the loop itself. */
  lemma StaleBitIsOld(g: SB.Settings, run: seq<Action>, a: Action)
    requires After(g, run).Some? && StaleDown(After(g, run).value, a)
    ensures PostersOf(g, run).woken != {}
    ensures forall p :: p in PostersOf(g, run).woken && p != Loop ==> 0 <= p.session < After(g, run).value.session
  {
    AlwaysExplained(g, run);
  }

  // ------------------------------------------------- a run with an old bit

  /** The connection breaks while the NBIRTH waits; its bit is not yet set. */
  const Broken := C.BirthSent.(pending := 0, call := DownPost, link := Down, session := 1)

  /** The PUBACK is overdue; there is nothing to close, so the loop sets the bit itself. */
  const Overdue := Broken.(app := SA.Start.(mqtt := SA.Disconnecting, deadline := 120000), at := Updating({}),
    bits := {SA.WentDown})

  lemma Breaks() returns (run: seq<Action>)
    ensures C.Reaches(run, Broken.(at := Checking({})))
  {
    var s: State;
    run := C.SendsBirth();
    s := C.BirthSent;
    run, s := C.Then(run, s, Disconnected);
    run, s := C.Then(run, s, CallNext);
    run, s := C.Then(run, s, Wake);
    run, s := C.Then(run, s, Proceed);
    run, s := C.Then(run, s, Proceed);
  }

  lemma TimesOut() returns (run: seq<Action>)
    ensures C.Reaches(run, Overdue)
  {
    var s: State;
    run := Breaks();
    s := Broken.(at := Checking({}));
    run, s := C.Then(run, s, Check(120000));
    run, s := C.Then(run, s, Close(false));
    run, s := C.Then(run, s, Repost);
    assert s.bits == Overdue.bits;
  }

  const Noticed := Overdue.(at := Checking({SA.WentDown}), bits := {})

  lemma Notices() returns (run: seq<Action>)
    ensures C.Reaches(run, Noticed)
  {
    var s: State;
    run := TimesOut();
    s := Overdue;
    run, s := C.Then(run, s, Update(120000, true, 120000));
    run, s := C.Then(run, s, Publish(0));
    run, s := C.Then(run, s, Wake);
    run, s := C.Then(run, s, Proceed);
    run, s := C.Then(run, s, Proceed);
  }

  const Freed := Noticed.(
    app := SA.Start.(mqtt := SA.Idle, bdSeq := 1, delay := 10, reconnectAt := 125000, deadline := 120000),
      at := Opening)

  lemma Frees() returns (run: seq<Action>)
    ensures C.Reaches(run, Freed)
  {
    var s: State;
    run := Notices();
    s := Noticed;
    run, s := C.Then(run, s, Check(120000));
    run, s := C.Then(run, s, Update(120000, true, 125000));
    assert s.app == Freed.app && s.h.acks == Freed.h.acks;
  }

  /** It connects again, and only then the callback of the first connection sets its bit. */
  const Redialled := Overdue.(
    app := SA.Start.(mqtt := SA.Connecting, bdSeq := 1, delay := 10, reconnectAt := 125000, deadline := 120000),
    at := Waiting, bits := {SA.WentDown}, call := NoCallback, link := Coming)

  lemma Redials() returns (run: seq<Action>)
    ensures C.Reaches(run, Redialled)
  {
    var s: State;
    run := Frees();
    s := Freed;
    run, s := C.Then(run, s, Open(true, 125000));
    run, s := C.Then(run, s, Publish(0));
    run, s := C.Then(run, s, CallNext);
    assert s.bits == Redialled.bits;
  }

  /** The new connection comes up, and the loop believes it is gone. */
  const Left := Redialled.(
    app := SA.Start.(mqtt := SA.Idle, bdSeq := 2, delay := 20, reconnectAt := 135000, deadline := 120000),
    at := Publishing, bits := {})

  const Misled := Redialled.(at := Updating({SA.WentDown}), bits := {})

  lemma Misleads() returns (run: seq<Action>)
    ensures C.Reaches(run, Misled)
  {
    var s: State;
    run := Redials();
    s := Redialled;
    run, s := C.Then(run, s, Wake);
    run, s := C.Then(run, s, Proceed);
    run, s := C.Then(run, s, Proceed);
    run, s := C.Then(run, s, Check(125000));
  }

  lemma Leaves() returns (run: seq<Action>)
    ensures C.Reaches(run, Left) && Stranded(C.Settings, run)
  {
    var s: State;
    var before := Misleads();
    run, s := C.Then(before, Misled, Update(125000, true, 125000));
    assert run[..|run| - 1] == before;
    assert s.app == Left.app && s.h.acks == Left.h.acks;
  }

  lemma LoopIsStranded() returns (run: seq<Action>, s: State)
    ensures C.Reaches(run, s) && Stranded(C.Settings, run)
    ensures s.link.Up? && s.app.mqtt.Idle? && s.at.Waiting? && s.call.NoCallback? && SA.WentDown !in s.bits
  {
    run := Leaves();
    s := Left;
    AlwaysPlaced(C.Settings, run);
    run, s := C.Then(run, s, Publish(0));
    run, s := C.Then(run, s, Connack);
    run, s := C.Then(run, s, CallNext);
    MatchedIffNotStranded(C.Settings, run);
  }

  // ------------------------------------------ a run with the loop's own bit

  /** In the first connection the PUBACK is overdue, and the helper refuses to disconnect. */
  const Refused := C.BirthSent.(app := Overdue.app, at := Updating({}), bits := {SA.WentDown})

  lemma WaitsLong() returns (run: seq<Action>)
    ensures C.Reaches(run, C.BirthSent.(at := Checking({})))
  {
    var s: State;
    run := C.SendsBirth();
    run, s := C.Then(run, C.BirthSent, Wake);
    run, s := C.Then(run, s, Proceed);
    run, s := C.Then(run, s, Proceed);
    assert s.bits == C.BirthSent.bits;
  }

  lemma Refuses() returns (run: seq<Action>)
    ensures C.Reaches(run, Refused)
  {
    var s: State;
    run := WaitsLong();
    run, s := C.Then(run, C.BirthSent.(at := Checking({})), Check(120000));
    run, s := C.Then(run, s, Close(false));
    run, s := C.Then(run, s, Repost);
    assert s.bits == Refused.bits;
  }

  const Believed := Refused.(at := Updating({SA.WentDown}), bits := {})

  lemma Hears() returns (run: seq<Action>)
    ensures C.Reaches(run, Refused.(at := Waiting))
  {
    var s: State;
    run := Refuses();
    run, s := C.Then(run, Refused, Update(120000, true, 120000));
    run, s := C.Then(run, s, Publish(0));
  }

  lemma Believes() returns (run: seq<Action>)
    ensures C.Reaches(run, Believed)
  {
    var s: State;
    run := Hears();
    run, s := C.Then(run, Refused.(at := Waiting), Wake);
    run, s := C.Then(run, s, Proceed);
    run, s := C.Then(run, s, Proceed);
    run, s := C.Then(run, s, Check(120000));
  }

  /** No earlier connection exists, and the loop is stranded. */
  lemma OwnBitStrands() returns (run: seq<Action>, s: State)
    ensures C.Reaches(run, s) && Stranded(C.Settings, run) && s.session == 0 && s.link.Up? && s.app.mqtt.Idle?
  {
    var before := Believes();
    run, s := C.Then(before, Believed, Update(120000, false, 0));
    assert run[..|run| - 1] == before;
  }
}

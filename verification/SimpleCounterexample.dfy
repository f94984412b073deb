/** A run of the simple firmware with a harmful PUBACK: the helper reports failure
    although the packet left, its PUBACK clears the pending identifier before the
    failed call does, and the event bit, set late, passes for the PUBACK of the
    next message: a reading is removed that the broker never got. The full
    firmware's tokens exclude this. Module SimpleLoss says when it can happen. */
module SimpleCounterexample {
  import opened Common
  import opened SimpleDevice
  import MS = MeasurementService
  import SB = SimpleBatch
  import SA = SimpleApp

  const Settings := SB.Settings(1, 2)
  const First := Measurement(1, 0, 0)
  const Second := Measurement(2, 0, 0)
  const Packet0 := Packet(0, 1, MS.Birth(0, 0))
  const Packet1 := Packet(0, 2, MS.Data(1, [First]))
  const Packet2 := Packet(0, 3, MS.Data(1, [First, Second]))

  ghost predicate Reaches(run: seq<Action>, s: State) {
    After(Settings, run) == Some(s)
  }

  lemma Then(run: seq<Action>, s: State, a: Action) returns (run': seq<Action>, s': State)
    requires Reaches(run, s) && Enabled(s, a)
    ensures run' == run + [a] && s' == Step(Settings, s, a) && Reaches(run', s')
  {
    run', s' := run + [a], Step(Settings, s, a);
    assert run'[..|run'| - 1] == run;
  }

  /** The loop connects. */
  const Opened := Initial.(app := SA.Start.(mqtt := SA.Connecting), link := Up, bits := {SA.WentUp})

  lemma Wakes() returns (run: seq<Action>)
    ensures Reaches(run, Initial.(at := Checking({})))
  {
    var s: State;
    run, s := Then([], Initial, Wake);
    run, s := Then(run, s, Proceed);
    run, s := Then(run, s, Proceed);
    assert s.bits == {} && s.h == Initial.h;
  }

  lemma Begins() returns (run: seq<Action>)
    ensures Reaches(run, Initial.(at := Opening))
  {
    var s: State;
    run := Wakes();
    s := Initial.(at := Checking({}));
    run, s := Then(run, s, Check(0));
    run, s := Then(run, s, Update(0, true, 0));
    assert s.h == Initial.h;
  }

  lemma Connects() returns (run: seq<Action>)
    ensures Reaches(run, Opened)
  {
    var s: State;
    run := Begins();
    s := Initial.(at := Opening);
    run, s := Then(run, s, Open(true, 0));
    run, s := Then(run, s, Publish(0));
    run, s := Then(run, s, Connack);
    run, s := Then(run, s, CallNext);
    assert s.bits == Opened.bits && s.queue == Opened.queue && s.app.buffer == Opened.app.buffer;
    assert s.h.wire == Opened.h.wire && s.h.arrived == Opened.h.arrived && s.h.acks == Opened.h.acks && s.h == Opened.h;
  }

  /** The NBIRTH is sent, arrives and is acknowledged. */
  const BirthSent := Opened.(app := SA.Start.(mqtt := SA.Connected, awaiting := true, deadline := 120000), bits := {},
    pending := 1,
                             h := History([], [], [], [], [Packet0], []))

  const BirthAcked := BirthSent.(pending := 0, bits := {SA.GotPuback}, h := BirthSent.h.(arrived := [0]))

  const Connected := Opened.(app := SA.Start.(mqtt := SA.Connected), at := Publishing, bits := {})

  const Woken := Opened.(at := Checking({SA.WentUp}), bits := {})

  lemma WakesAgain() returns (run: seq<Action>)
    ensures Reaches(run, Woken)
  {
    var s: State;
    run := Connects();
    run, s := Then(run, Opened, Wake);
    run, s := Then(run, s, Proceed);
    run, s := Then(run, s, Proceed);
    assert s.h == Opened.h;
  }

  lemma SeesConnection() returns (run: seq<Action>)
    ensures Reaches(run, Connected)
  {
    var s: State;
    run := WakesAgain();
    s := Woken;
    run, s := Then(run, s, Check(0));
    run, s := Then(run, s, Update(0, true, 0));
    assert s.bits == Connected.bits && s.h == Connected.h;
  }

  lemma SendsBirth() returns (run: seq<Action>)
    ensures Reaches(run, BirthSent)
  {
    var s: State;
    run := SeesConnection();
    s := Connected;
    run, s := Then(run, s, Publish(0));
    run, s := Then(run, s, Claim(1, true));
    run, s := Then(run, s, Write(true, true));
    run, s := Then(run, s, Return(0));
    assert s.bits == BirthSent.bits && s.queue == BirthSent.queue && s.app.buffer == BirthSent.app.buffer;
    assert s.h.wire == BirthSent.h.wire && s.h.arrived == BirthSent.h.arrived && s.h.acks == BirthSent.h.acks
           && s.h == BirthSent.h;
  }

  lemma AcksBirth() returns (run: seq<Action>)
    ensures Reaches(run, BirthAcked)
  {
    var s: State;
    run := SendsBirth();
    s := BirthSent;
    run, s := Then(run, s, Arrive(0));
    assert SameId(s, s.h.arrived[0], 1);
    run, s := Then(run, s, Puback(1, true));
    run, s := Then(run, s, CallNext);
    assert s.bits == BirthAcked.bits && s.queue == BirthAcked.queue && s.app.buffer == BirthAcked.app.buffer;
    assert s.h.wire == BirthAcked.h.wire && s.h.arrived == BirthAcked.h.arrived && s.h.acks == BirthAcked.h.acks
           && s.h == BirthAcked.h;
  }

  /** The first NDATA leaves, but its write reports failure. */
  const FirstLied := BirthAcked.(
    app := SA.Start.(mqtt := SA.Connected, birthAcked := true, current := 1, deadline := 120000, sentCount := 1,
      buffer := [First]),
    at := Written(2, MS.Data(1, [First]), false), bits := {}, measured := true, pending := 2,
    h := History([First], [], [0], [MS.Birth(0, 0)], [Packet0, Packet1], [0]))

  const FirstCollected := BirthAcked.(
    app := SA.Start.(mqtt := SA.Connected, birthAcked := true, current := 1, deadline := 120000, buffer := [First]),
    at := Checking({SA.GotPuback}), bits := {}, measured := true,
    h := History([First], [], [0], [MS.Birth(0, 0)], [Packet0], [0]))

  const FirstMeasured := BirthAcked.(queue := [First], at := Collecting({SA.GotPuback}), bits := {}, measured := true)

  lemma MeasuresFirst() returns (run: seq<Action>)
    ensures Reaches(run, FirstMeasured)
  {
    var s: State;
    run := AcksBirth();
    s := BirthAcked;
    run, s := Then(run, s, Measure(First));
    run, s := Then(run, s, Wake);
    assert s.bits == FirstMeasured.bits && s.queue == FirstMeasured.queue;
  }

  lemma CollectsFirst() returns (run: seq<Action>)
    ensures Reaches(run, FirstCollected)
  {
    var s: State;
    run := MeasuresFirst();
    s := FirstMeasured;
    run, s := Then(run, s, Collect);
    run, s := Then(run, s, Proceed);
    assert s.app.buffer == [First] && s.h.accepted == [First] && s.queue == [];
    assert s == FirstMeasured.(queue := [], at := Acking({SA.GotPuback}), app := BirthSent.app.(buffer := [First]),
                               h := BirthAcked.h.(accepted := [First]));
    run, s := Then(run, s, Proceed);
    assert s.h.removed == [] && s.h.acked == [0] && s.h.acks == [MS.Birth(0, 0)];
    assert s.bits == FirstCollected.bits && s.queue == FirstCollected.queue
           && s.app.buffer == FirstCollected.app.buffer;
    assert s.h.acks == FirstCollected.h.acks && s.h.acked == FirstCollected.h.acked && s.h == FirstCollected.h;
  }

  lemma LiesAboutFirst() returns (run: seq<Action>)
    ensures Reaches(run, FirstLied)
  {
    var s: State;
    run := CollectsFirst();
    s := FirstCollected;
    run, s := Then(run, s, Check(0));
    run, s := Then(run, s, Update(0, true, 0));
    run, s := Then(run, s, Publish(0));
    run, s := Then(run, s, Claim(2, true));
    run, s := Then(run, s, Write(false, true));
    assert s.bits == FirstLied.bits && s.queue == FirstLied.queue && s.app.buffer == FirstLied.app.buffer;
    assert s.h.wire == FirstLied.h.wire && s.h.arrived == FirstLied.h.arrived && s.h.acks == FirstLied.h.acks
           && s.h == FirstLied.h;
  }

  /** Its PUBACK comes before the call returns; the callback has not set its bit. */
  const FirstAcked := FirstLied.(
    at := Waiting, pending := 0, call := AckPost, measured := false, bits := {SA.NewMeasurement},
      h := FirstLied.h.(arrived := [0, 1]))

  lemma AcksFirst() returns (run: seq<Action>)
    ensures Reaches(run, FirstAcked)
  {
    var s: State;
    run := LiesAboutFirst();
    s := FirstLied;
    run, s := Then(run, s, Arrive(1));
    assert SameId(s, s.h.arrived[1], 2);
    run, s := Then(run, s, Puback(2, true));
    run, s := Then(run, s, Return(0));
    run, s := Then(run, s, PostMeasured);
    assert s.bits == FirstAcked.bits && s.queue == FirstAcked.queue && s.app.buffer == FirstAcked.app.buffer;
    assert s.h.wire == FirstAcked.h.wire && s.h.arrived == FirstAcked.h.arrived && s.h.acks == FirstAcked.h.acks
           && s.h == FirstAcked.h;
  }

  /** The second NDATA, with one more reading, is sent and does not arrive. */
  const SecondSent := FirstAcked.(
    app := FirstAcked.app.(awaiting := true, sentCount := 2, buffer := [First, Second]), bits := {}, measured := true,
      pending := 3,
    h := History([First, Second], [], [0], [MS.Birth(0, 0)], [Packet0, Packet1, Packet2], [0, 1]))

  const SecondCollected := FirstAcked.(
    app := FirstAcked.app.(buffer := [First, Second]), at := Acking({SA.NewMeasurement}), bits := {}, measured := true,
    h := FirstAcked.h.(accepted := [First, Second]))

  lemma CollectsSecond() returns (run: seq<Action>)
    ensures Reaches(run, SecondCollected)
  {
    var s: State;
    run := AcksFirst();
    s := FirstAcked;
    run, s := Then(run, s, Measure(Second));
    run, s := Then(run, s, Wake);
    run, s := Then(run, s, Collect);
    run, s := Then(run, s, Proceed);
    assert s.bits == SecondCollected.bits && s.queue == SecondCollected.queue
           && s.app.buffer == SecondCollected.app.buffer;
    assert s.h.accepted == SecondCollected.h.accepted && s.h == SecondCollected.h;
  }

  lemma ReadiesSecond() returns (run: seq<Action>)
    ensures Reaches(run, SecondCollected.(at := Publishing))
  {
    var s: State;
    run := CollectsSecond();
    s := SecondCollected;
    run, s := Then(run, s, Proceed);
    run, s := Then(run, s, Check(0));
    run, s := Then(run, s, Update(0, true, 0));
    assert s.h == SecondCollected.h;
  }

  lemma SendsSecond() returns (run: seq<Action>)
    ensures Reaches(run, SecondSent)
  {
    var s: State;
    run := ReadiesSecond();
    s := SecondCollected.(at := Publishing);
    run, s := Then(run, s, Publish(0));
    run, s := Then(run, s, Claim(3, true));
    run, s := Then(run, s, Write(true, true));
    run, s := Then(run, s, Return(0));
    assert s.h.wire == SecondSent.h.wire && s.h == SecondSent.h;
  }

  /** Then the bit is set, and the reading that never arrived is removed. */
  lemma LyingWriteLosesReading() returns (run: seq<Action>, s: State)
    ensures Reaches(run, s)
    ensures s.h.removed == [First, Second] && s.app.buffer == []
    ensures forall i :: 0 <= i < |s.h.arrived| ==> Second !in ReadingsOf(s.h.wire, s.h.arrived[i])
  {
    run := SendsSecond();
    s := SecondSent;
    run, s := Then(run, s, CallNext);
    run, s := Then(run, s, Wake);
    run, s := Then(run, s, Proceed);
    run, s := Then(run, s, Proceed);
  }
}

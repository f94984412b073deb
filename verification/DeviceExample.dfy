/** A run of the full firmware in which everything goes well: LTE and MQTT come
    up, the NBIRTH is acknowledged, and one reading is taken, sent, acknowledged
    and forgotten. It shows that the interleaved machine gets that far. */
module DeviceExample {
  import opened Common
  import opened Device
  import MC = MqttClient
  import MS = MeasurementService
  import RP = ReconnectPolicy
  import PP = PublishProtocol
  import DT = DataTransmission
  import S = Sparkplug

  const Setup := Config(DT.Settings(false, 1, 5, 1, 86), MC.Timing(30, 120), RP.Delays(5, 60))
  const Reading := Measurement(1_700_000_000, 2150, 9000)
  const Nbirth := PP.Message(S.NBIRTH, MS.Birth(0, 0))
  const Ndata := PP.Message(S.NDATA, MS.Data(1, [Reading]))

  ghost predicate Reaches(run: seq<Action>, s: State) {
    After(Setup, run) == Some(s)
  }

  lemma Then(run: seq<Action>, s: State, a: Action) returns (run': seq<Action>, s': State)
    requires Reaches(run, s) && Enabled(s, a)
    ensures run' == run + [a] && s' == Step(Setup, s, a) && Reaches(run', s')
  {
    run', s' := run + [a], Step(Setup, s, a);
    assert run'[..|run'| - 1] == run;
  }

  const Start := Initial(Setup)

  /** LTE is up and a connection is ordered. */
  const Begun := Start.(ch := NoChannel.(c := NoClient.(lte := true)), rec := RP.State(true, RP.Connecting, 5),
    sys := ConnectLte)

  const Ordered := Start.(
    ch := NoChannel.(c := NoClient.(lte := true, connectPending := true, connectWork := true)),
      rec := RP.State(true, RP.Connecting, 5))

  lemma Begins() returns (run: seq<Action>)
    ensures Reaches(run, Begun)
  {
    var s: State;
    run, s := Then([], Start, LteChanges(true));
    run, s := Then(run, s, HandleEvent);
    run, s := Then(run, s, SysNext(true));
    assert s.q == [];
  }

  lemma Orders() returns (run: seq<Action>)
    ensures Reaches(run, Ordered)
  {
    var s: State;
    run := Begins();
    run, s := Then(run, Begun, SysNext(true));
    run, s := Then(run, s, SysNext(true));
    run, s := Then(run, s, SysNext(true));
    run, s := Then(run, s, SysNext(true));
  }

  /** The helper is connecting. */
  const Dialled := Ordered.(ch := NoChannel.(c := NoClient.(lte := true, connectPending := true)), link := Opening)

  lemma Dials() returns (run: seq<Action>)
    ensures Reaches(run, Dialled)
  {
    var s: State;
    run := Orders();
    s := Ordered;
    run, s := Then(run, s, StartOpen);
    run, s := Then(run, s, OpenNext(true));
    run, s := Then(run, s, OpenNext(true));
    run, s := Then(run, s, OpenNext(true));
    run, s := Then(run, s, OpenNext(true));
  }

  /** The connection is up and the service has asked for its NBIRTH. */
  const Client0: MC.Client<S.MessageType, MS.Body> := NoClient.(lte := true, connected := true)

  const Answered := Dialled.(ch := NoChannel.(c := Client0), link := Up, call := UpMark)

  lemma Answers() returns (run: seq<Action>)
    ensures Reaches(run, Answered)
  {
    var s: State;
    run := Dials();
    s := Dialled;
    run, s := Then(run, s, Connack(true));
    run, s := Then(run, s, CallNext);
    run, s := Then(run, s, CallNext);
  }

  const Connected := Dialled.(
    ch := NoChannel.(c := Client0), link := Up, rec := RP.State(true, RP.Connected, 5),
    svc := MS.Start.(connected := true, birthPending := true, publishWork := true), h := History([], [], [], [], true))

  lemma Connects() returns (run: seq<Action>)
    ensures Reaches(run, Connected)
  {
    var s: State;
    run := Answers();
    s := Answered;
    run, s := Then(run, s, CallNext);
    run, s := Then(run, s, CallNext);
    run, s := Then(run, s, CallNext);
    run, s := Then(run, s, HandleEvent);
    assert s.q == [];
  }

  /** The NBIRTH is handed over. */
  const BirthClaimed := Connected.(
    ch := NoChannel.(c := Client0.(publishPending := true), caller := PP.Call(PP.Payload, Nbirth)),
    svc := MS.Start.(connected := true, birthPending := true))

  lemma ClaimsForBirth() returns (run: seq<Action>)
    ensures Reaches(run, BirthClaimed)
  {
    var s: State;
    run := Connects();
    s := Connected;
    run, s := Then(run, s, StartPublish(0));
    run, s := Then(run, s, CallerNext(true));
    run, s := Then(run, s, CallerNext(true));
    run, s := Then(run, s, CallerNext(true));
    run, s := Then(run, s, CallerNext(true));
  }

  const Client1 := Client0.(publishPending := true, topic := S.NBIRTH, payload := Nbirth.payload, publishToken := 1,
    nextToken := 1)

  const BirthCopied := BirthClaimed.(ch := NoChannel.(c := Client0.(publishPending := true),
    caller := PP.Call(PP.Token, Nbirth)))

  lemma CopiesBirth() returns (run: seq<Action>)
    ensures Reaches(run, BirthCopied)
  {
    var s: State;
    run := ClaimsForBirth();
    s := BirthClaimed;
    run, s := Then(run, s, CallerNext(true));
    run, s := Then(run, s, CallerNext(true));
    run, s := Then(run, s, CallerNext(true));
  }

  const BirthGiven := Connected.(
    ch := NoChannel.(c := Client1.(publishWork := true), h := PP.Log(map[1 := Nbirth], map[], [], [], [])),
    svc := MS.Start.(connected := true, birthPending := true, birthInFlight := true, inFlight := true,
      pendingToken := 1))

  lemma HandsBirthOver() returns (run: seq<Action>)
    ensures Reaches(run, BirthGiven)
  {
    var s: State;
    run := CopiesBirth();
    s := BirthCopied;
    run, s := Then(run, s, CallerNext(true));
    run, s := Then(run, s, CallerNext(true));
    assert s.ch.h.submitted == map[1 := Nbirth];
  }

  /** It is written, arrives, and its PUBACK makes the session. */
  const Client2 := Client1.(delay := 30, activeToken := 1, activeId := 1)

  const Packet0 := PP.Packet(0, 1, 1, Nbirth, false)

  const BirthWritten := BirthGiven.(
    ch := NoChannel.(c := Client2, sender := PP.Writing(1, 0, 1),
      h := PP.Log(map[1 := Nbirth], map[1 := 1], [Packet0], [], [])))

  lemma WritesBirth() returns (run: seq<Action>)
    ensures Reaches(run, BirthWritten)
  {
    var s: State;
    run := HandsBirthOver();
    s := BirthGiven;
    run, s := Then(run, s, StartJob);
    run, s := Then(run, s, SenderNext(1, true));
    run, s := Then(run, s, SenderNext(1, true));
    assert s.ch.h.ids == map[1 := 1] && s.ch.h.wire == [Packet0];
  }

  const BirthSent := BirthGiven.(
    ch := NoChannel.(c := Client2.(publishPending := false, timer := Some(30)),
      h := PP.Log(map[1 := Nbirth], map[1 := 1], [Packet0], [0], [])))

  const BirthLeft := BirthGiven.(
    ch := NoChannel.(c := Client2.(timer := Some(30)), sender := PP.Finish,
      h := PP.Log(map[1 := Nbirth], map[1 := 1], [Packet0], [], [])))

  lemma LeavesBirth() returns (run: seq<Action>)
    ensures Reaches(run, BirthLeft)
  {
    var s: State;
    run := WritesBirth();
    run, s := Then(run, BirthWritten, SenderNext(1, true));
    run, s := Then(run, s, SenderNext(1, true));
  }

  lemma SendsBirth() returns (run: seq<Action>)
    ensures Reaches(run, BirthSent)
  {
    var s: State;
    run := LeavesBirth();
    run, s := Then(run, BirthLeft, SenderNext(1, true));
    run, s := Then(run, s, Arrive(0));
    assert s.ch.h.arrived == [0];
  }

  const Idle2 := Client2.(publishPending := false, activeId := 0)

  const Log2: PP.Log<S.MessageType, MS.Body> :=
    PP.Log(map[1 := Nbirth], map[1 := 1], [Packet0], [0], [PP.Done(1, true, 0, 1)])

  const BirthAnswered := BirthGiven.(ch := NoChannel.(c := Idle2, h := Log2), q := [Completed(1, true)])

  lemma AnswersBirth() returns (run: seq<Action>)
    ensures Reaches(run, BirthAnswered)
  {
    var s: State;
    run := SendsBirth();
    s := BirthSent;
    assert PP.ArrivedAs(s.ch, s.ch.h.arrived[0], 1);
    run, s := Then(run, s, Puback(1, true));
    run, s := Then(run, s, PostPuback);
    assert s.q == [Completed(1, true)] && s.ch.h.done == Log2.done;
  }

  const BirthAcked := BirthGiven.(
    ch := NoChannel.(c := Idle2, h := Log2),
    svc := MS.Start.(connected := true, pendingToken := 1, publishWork := true),
      h := History([], [], [], [Nbirth.payload], true))

  lemma AcksBirth() returns (run: seq<Action>)
    ensures Reaches(run, BirthAcked)
  {
    var s: State;
    run := AnswersBirth();
    s := BirthAnswered;
    run, s := Then(run, s, HandleEvent);
    assert s.q == [] && s.h.acks == [Nbirth.payload] && s.h.committed == [] && s.h.commits == [];
  }

  /** A reading is taken and handed over. */
  const DataClaimed := BirthAcked.(
    ch := NoChannel.(c := Idle2.(publishPending := true), caller := PP.Call(PP.Payload, Ndata), h := Log2),
    svc := MS.Start.(connected := true, pendingToken := 1, buffer := [Reading], lastSample := Reading.timestamp),
    h := History([Reading], [], [], [Nbirth.payload], true))

  const DataCalled := DataClaimed.(ch := NoChannel.(c := Idle2, caller := PP.Call(PP.Lte, Ndata), h := Log2))

  lemma CallsForData() returns (run: seq<Action>)
    ensures Reaches(run, DataCalled)
  {
    var s: State;
    run := AcksBirth();
    run, s := Then(run, BirthAcked, Sample(Reading));
    run, s := Then(run, s, StartPublish(0));
    assert s.svc.buffer == [Reading] && s.h.accepted == [Reading];
  }

  lemma ClaimsForData() returns (run: seq<Action>)
    ensures Reaches(run, DataClaimed)
  {
    var s: State;
    run := CallsForData();
    run, s := Then(run, DataCalled, CallerNext(true));
    run, s := Then(run, s, CallerNext(true));
    run, s := Then(run, s, CallerNext(true));
    run, s := Then(run, s, CallerNext(true));
  }

  const Client3 := Idle2.(publishPending := true, topic := S.NDATA, payload := Ndata.payload, publishToken := 2,
    nextToken := 2)

  const DataCopied := DataClaimed.(
    ch := NoChannel.(c := Idle2.(publishPending := true, topic := S.NDATA, payload := Ndata.payload),
      caller := PP.Call(PP.Token, Ndata), h := Log2))

  lemma CopiesData() returns (run: seq<Action>)
    ensures Reaches(run, DataCopied)
  {
    var s: State;
    run := ClaimsForData();
    s := DataClaimed;
    run, s := Then(run, s, CallerNext(true));
    run, s := Then(run, s, CallerNext(true));
    run, s := Then(run, s, CallerNext(true));
  }

  const DataGiven := DataClaimed.(
    ch := NoChannel.(c := Client3.(publishWork := true), h := Log2.(submitted := map[1 := Nbirth, 2 := Ndata])),
    svc := DataClaimed.svc.(inFlight := true, pendingToken := 2, pendingCount := 1))

  lemma HandsDataOver() returns (run: seq<Action>)
    ensures Reaches(run, DataGiven)
  {
    var s: State;
    run := CopiesData();
    s := DataCopied;
    run, s := Then(run, s, CallerNext(true));
    run, s := Then(run, s, CallerNext(true));
    assert s.ch.h.submitted == map[1 := Nbirth, 2 := Ndata];
  }

  /** It is written and arrives. */
  const Client4 := Client3.(delay := 30, activeToken := 2, activeId := 2)

  const Packet1 := PP.Packet(0, 2, 2, Ndata, false)

  const Log3 := Log2.(submitted := map[1 := Nbirth, 2 := Ndata], ids := map[1 := 1, 2 := 2], wire := [Packet0, Packet1])

  const DataWritten := DataGiven.(ch := NoChannel.(c := Client4, sender := PP.Writing(2, 0, 2), h := Log3))

  lemma WritesData() returns (run: seq<Action>)
    ensures Reaches(run, DataWritten)
  {
    var s: State;
    run := HandsDataOver();
    s := DataGiven;
    run, s := Then(run, s, StartJob);
    run, s := Then(run, s, SenderNext(2, true));
    run, s := Then(run, s, SenderNext(2, true));
    assert s.ch.h.ids == Log3.ids && s.ch.h.wire == Log3.wire;
  }

  const DataSent := DataGiven.(
    ch := NoChannel.(c := Client4.(publishPending := false, timer := Some(30)), h := Log3.(arrived := [0, 1])))

  const DataLeft := DataGiven.(ch := NoChannel.(c := Client4.(timer := Some(30)), sender := PP.Finish, h := Log3))

  lemma LeavesData() returns (run: seq<Action>)
    ensures Reaches(run, DataLeft)
  {
    var s: State;
    run := WritesData();
    run, s := Then(run, DataWritten, SenderNext(2, true));
    run, s := Then(run, s, SenderNext(2, true));
  }

  lemma SendsData() returns (run: seq<Action>)
    ensures Reaches(run, DataSent)
  {
    var s: State;
    run := LeavesData();
    run, s := Then(run, DataLeft, SenderNext(2, true));
    run, s := Then(run, s, Arrive(1));
    assert s.ch.h.arrived == [0, 1];
  }

  const DataAnswered := DataGiven.(
    ch := NoChannel.(c := Client4.(publishPending := false, activeId := 0),
                     h := Log3.(arrived := [0, 1], done := [PP.Done(1, true, 0, 1), PP.Done(2, true, 0, 2)])),
    q := [Completed(2, true)])

  lemma AnswersData() returns (run: seq<Action>)
    ensures Reaches(run, DataAnswered)
  {
    var s: State;
    run := SendsData();
    s := DataSent;
    assert PP.ArrivedAs(s.ch, s.ch.h.arrived[1], 2);
    run, s := Then(run, s, Puback(2, true));
    run, s := Then(run, s, PostPuback);
    assert s.q == [Completed(2, true)] && s.ch.h.done == DataAnswered.ch.h.done;
  }

  /** Its PUBACK removes it. */
  lemma ReadingIsDelivered() returns (run: seq<Action>, s: State)
    ensures Reaches(run, s)
    ensures s.h.accepted == [Reading] && s.h.committed == [Reading] && s.svc.buffer == [] && s.svc.nextSeq == 2
    ensures s.h.acks == [Nbirth.payload, Ndata.payload] && !s.svc.inFlight && s.ch.c.timer == None
  {
    run := AnswersData();
    DataCounts();
    run, s := Then(run, DataAnswered, HandleEvent);
    assert s == Complete(Setup, DataAnswered.(q := []), 2, true);
  }

  lemma DataCounts()
    ensures var s := Complete(Setup, DataAnswered.(q := []), 2, true);
            && s.h.accepted == [Reading] && s.h.committed == [Reading] && s.svc.buffer == [] && s.svc.nextSeq == 2
            && s.h.acks == [Nbirth.payload, Ndata.payload] && !s.svc.inFlight && s.ch.c.timer == None
  {
    var svc := DataAnswered.svc;
    assert svc.buffer[..svc.pendingCount] == [Reading] && svc.buffer[svc.pendingCount..] == [];
    assert MS.Committed(svc.(inFlight := false), 1).buffer == [];
  }
}

/** A run of the full firmware that abandons a publish. LTE drops and returns
    while the first connection is being made, so a second attempt is queued; it
    connects again before the controller has handled the disconnect of the first
    connection. The NBIRTH of the earlier session becomes active in the new
    connection, its timer fires while the NBIRTH of the new session is being
    refused, and from then on nothing is sent: link, policy and service are
    connected, every thread rests, and each retry of the new NBIRTH ends with EBUSY. */
module DeviceAbandoned {
  import opened Common
  import opened Device
  import opened DeviceTimer
  import E = DeviceExample
  import MS = MeasurementService
  import RP = ReconnectPolicy
  import PP = PublishProtocol
  import S = Sparkplug

  type Client = MC.Client<S.MessageType, MS.Body>
  type Log = PP.Log<S.MessageType, MS.Body>

  const First := PP.Message(S.NBIRTH, MS.Birth(0, 1))
  const Second := PP.Message(S.NBIRTH, MS.Birth(0, 2))
  const Offline := RP.State(false, RP.Offline, 5)
  const Dialling := RP.State(true, RP.Connecting, 5)
  const Online := RP.State(true, RP.Connected, 5)
  const NoHistory := History([], [], [], [], false)
  const OpenHistory := History([], [], [], [], true)
  const NoLog: Log := PP.Log(map[], map[], [], [], [])
  const FirstLog: Log := PP.Log(map[1 := First], map[], [], [], [])

  /** A client with nothing handed over yet. */
  function Fresh(lte: bool, connected: bool, pending: bool, generation: nat, mark: nat, connect: bool,
                 disconnect: bool): Client {
    NoClient.(lte := lte, connected := connected, connectPending := pending, generation := generation,
      connectGeneration := mark,
              connectWork := connect, disconnectWork := disconnect)
  }

  function Plain(c: Client): Channel {
    PP.Channel(c, PP.NoCall, PP.Rest, None, 0, NoLog)
  }

  /** LTE comes and goes; the second change is already queued. */
  const Flickered := State(
    NoChannel,
    MS.Start, Offline, None, [LteLost, LteConnected], LteSet, OpenIdle, CallIdle, Down, false, NoHistory)

  lemma Flickers() returns (run: seq<Action>)
    ensures E.Reaches(run, Flickered)
  {
    var s: State;
    run, s := [], E.Start;
    run, s := E.Then(run, s, LteChanges(true));
    run, s := E.Then(run, s, LteChanges(false));
    run, s := E.Then(run, s, HandleEvent);
    run, s := E.Then(run, s, LteChanges(true));
    assert s.q == [LteLost, LteConnected];
  }

  const Ordered := State(
    Plain(Fresh(true, false, true, 0, 0, true, false)),
    MS.Start, Dialling, None, [LteLost, LteConnected], SysIdle, OpenIdle, CallIdle, Down, false, NoHistory)

  lemma Orders() returns (run: seq<Action>)
    ensures E.Reaches(run, Ordered)
  {
    var s: State;
    run := Flickers();
    s := Flickered;
    run, s := E.Then(run, s, SysNext(true));
    run, s := E.Then(run, s, SysNext(true));
    run, s := E.Then(run, s, SysNext(true));
    run, s := E.Then(run, s, SysNext(true));
    run, s := E.Then(run, s, SysNext(true));
  }

  /** The loss is handled; the connect job stays queued. */
  const Unset := State(
    Plain(Fresh(false, false, true, 0, 0, true, false)),
    MS.Start, Dialling, None, [LteConnected], Lock(LostLte), OpenIdle, CallIdle, Down, false, NoHistory)

  lemma Unsets() returns (run: seq<Action>)
    ensures E.Reaches(run, Unset)
  {
    var s: State;
    run := Orders();
    s := Ordered;
    run, s := E.Then(run, s, HandleEvent);
    run, s := E.Then(run, s, SysNext(true));
    assert s.q == [LteConnected];
  }

  const Lost := State(
    Plain(Fresh(false, false, true, 1, 0, true, true)),
    MS.Start.(bdSeq := 1), Offline, None, [LteConnected], SysIdle, OpenIdle, CallIdle, Down, false, NoHistory)

  lemma Loses() returns (run: seq<Action>)
    ensures E.Reaches(run, Lost)
  {
    var s: State;
    run := Unsets();
    s := Unset;
    run, s := E.Then(run, s, SysNext(true));
    run, s := E.Then(run, s, SysNext(true));
    assert s.q == [LteConnected];
  }

  /** LTE is back, and the controller is about to order a second connection. */
  const Back := State(
    Plain(Fresh(true, false, true, 1, 0, true, true)),
    MS.Start.(bdSeq := 1), Dialling, None, [], ConnectCas, OpenIdle, CallIdle, Down, false, NoHistory)

  lemma Returns() returns (run: seq<Action>)
    ensures E.Reaches(run, Back)
  {
    var s: State;
    run := Loses();
    s := Lost;
    run, s := E.Then(run, s, HandleEvent);
    run, s := E.Then(run, s, SysNext(true));
    run, s := E.Then(run, s, SysNext(true));
    run, s := E.Then(run, s, SysNext(true));
    assert s.q == [];
  }

  /** The first job connects, and the second is ordered as soon as the helper answers. */
  const Dialled := State(
    Plain(Fresh(true, false, true, 1, 1, false, true)),
    MS.Start.(bdSeq := 1), Dialling, None, [], ConnectCas, OpenIdle, CallIdle, Opening, false, NoHistory)

  lemma Dials() returns (run: seq<Action>)
    ensures E.Reaches(run, Dialled)
  {
    var s: State;
    run := Returns();
    s := Back;
    run, s := E.Then(run, s, StartOpen);
    run, s := E.Then(run, s, OpenNext(true));
    run, s := E.Then(run, s, OpenNext(true));
    run, s := E.Then(run, s, OpenNext(true));
    run, s := E.Then(run, s, OpenNext(true));
  }

  const Answered := State(
    Plain(Fresh(true, false, false, 1, 1, false, false)),
    MS.Start.(bdSeq := 1), Dialling, None, [], ConnectCas, OpenIdle, UpSet, Up, false, NoHistory)

  lemma Answers() returns (run: seq<Action>)
    ensures E.Reaches(run, Answered)
  {
    var s: State;
    run := Dials();
    s := Dialled;
    run, s := E.Then(run, s, StartClose);
    run, s := E.Then(run, s, OpenNext(true));
    run, s := E.Then(run, s, Connack(true));
  }

  const OrderedAgain := State(
    Plain(Fresh(true, false, true, 1, 1, true, false)),
    MS.Start.(bdSeq := 1), Dialling, None, [], SysIdle, OpenIdle, UpSet, Up, false, NoHistory)

  lemma OrdersAgain() returns (run: seq<Action>)
    ensures E.Reaches(run, OrderedAgain)
  {
    var s: State;
    run := Answers();
    s := Answered;
    run, s := E.Then(run, s, SysNext(true));
    run, s := E.Then(run, s, SysNext(true));
  }

  const StartedAgain := State(
    Plain(Fresh(true, false, true, 1, 1, false, false)),
    MS.Start.(bdSeq := 1), Dialling, None, [], SysIdle, OpenRead, UpSet, Up, false, NoHistory)

  lemma StartsAgain() returns (run: seq<Action>)
    ensures E.Reaches(run, StartedAgain)
  {
    var s: State;
    run := OrdersAgain();
    s := OrderedAgain;
    run, s := E.Then(run, s, StartOpen);
    run, s := E.Then(run, s, OpenNext(true));
  }

  /** The connection is up while the second job is about to read the generation. */
  const Risen := State(
    Plain(Fresh(true, true, true, 1, 1, false, false)),
    MS.Start.(bdSeq := 1), Dialling, None, [MqttConnected], SysIdle, OpenRead, CallIdle, Up, false, NoHistory)

  lemma Rises() returns (run: seq<Action>)
    ensures E.Reaches(run, Risen)
  {
    var s: State;
    run := StartsAgain();
    s := StartedAgain;
    run, s := E.Then(run, s, CallNext);
    run, s := E.Then(run, s, CallNext);
    run, s := E.Then(run, s, CallNext);
    run, s := E.Then(run, s, CallNext);
    run, s := E.Then(run, s, CallNext);
    assert s.q == [MqttConnected];
  }

  const Connected := State(
    Plain(Fresh(true, true, true, 1, 1, false, false)),
    MS.Start.(bdSeq := 1, connected := true, birthPending := true, publishWork := true), Online, None, [], SysIdle,
      OpenRead, CallIdle, Up, false, OpenHistory)

  lemma Connects() returns (run: seq<Action>)
    ensures E.Reaches(run, Connected)
  {
    var s: State;
    run := Rises();
    s := Risen;
    run, s := E.Then(run, s, HandleEvent);
    assert s.q == [];
  }

  /** The NBIRTH is copied in. */
  const Called := State(
    PP.Channel(Fresh(true, true, true, 1, 1, false, false).(publishPending := true), PP.Call(PP.Payload, First),
      PP.Rest, None, 0, NoLog),
    MS.Start.(bdSeq := 1, connected := true, birthPending := true), Online, None, [], SysIdle, OpenRead, CallIdle, Up,
      false, OpenHistory)

  lemma Calls() returns (run: seq<Action>)
    ensures E.Reaches(run, Called)
  {
    var s: State;
    run := Connects();
    s := Connected;
    run, s := E.Then(run, s, StartPublish(0));
    run, s := E.Then(run, s, CallerNext(true));
    run, s := E.Then(run, s, CallerNext(true));
    run, s := E.Then(run, s, CallerNext(true));
    run, s := E.Then(run, s, CallerNext(true));
  }

  const Copied := State(
    PP.Channel(Fresh(true, true, true, 1, 1, false, false).(publishPending := true, topic := S.NBIRTH,
      payload := MS.Birth(0, 1)),
               PP.Call(PP.Generation, First), PP.Rest, None, 0, NoLog),
    MS.Start.(bdSeq := 1, connected := true, birthPending := true), Online, None, [], SysIdle, OpenRead, CallIdle, Up,
      false, OpenHistory)

  lemma Copies() returns (run: seq<Action>)
    ensures E.Reaches(run, Copied)
  {
    var s: State;
    run := Calls();
    s := Called;
    run, s := E.Then(run, s, CallerNext(true));
    run, s := E.Then(run, s, CallerNext(true));
  }

  /** The client after the NBIRTH was handed over in the second generation. */
  function Given(connected: bool, mark: nat): Client {
    Fresh(true, connected, false, 2, mark, false, false).(
      publishPending := true, topic := S.NBIRTH, payload := MS.Birth(0, 1), publishGeneration := 2, publishToken := 1,
        nextToken := 1)
  }

  /** The connection breaks; the NBIRTH is stamped with the generation after it. */
  const Closed := State(
    PP.Channel(Fresh(true, false, false, 2, 1, false, false).(publishPending := true, topic := S.NBIRTH,
      payload := MS.Birth(0, 1)),
               PP.Call(PP.Generation, First), PP.Rest, None, 1, NoLog),
    MS.Start.(bdSeq := 1, connected := true, birthPending := true), Online, None, [], SysIdle, OpenRead, DownPost, Down,
      false, OpenHistory)

  lemma Closes() returns (run: seq<Action>)
    ensures E.Reaches(run, Closed)
  {
    var s: State;
    run := Copies();
    s := Copied;
    run, s := E.Then(run, s, Disconnected);
    run, s := E.Then(run, s, CallNext);
  }

  const Broken := State(
    PP.Channel(Given(false, 1).(publishWork := true), PP.NoCall, PP.Rest, None, 1, FirstLog),
    MS.Start.(bdSeq := 1, connected := true, birthPending := true, pendingToken := 1, inFlight := true,
      birthInFlight := true), Online, None, [], SysIdle, OpenRead, DownPost, Down, false, OpenHistory)

  lemma Breaks() returns (run: seq<Action>)
    ensures E.Reaches(run, Broken)
  {
    var s: State;
    run := Closes();
    s := Closed;
    run, s := E.Then(run, s, CallerNext(true));
    run, s := E.Then(run, s, CallerNext(true));
    run, s := E.Then(run, s, CallerNext(true));
    assert s.ch.h.submitted == map[1 := First];
  }

  /** The second job connects again. */
  const Redialled := State(
    PP.Channel(Given(false, 2).(publishWork := true), PP.NoCall, PP.Rest, None, 1, FirstLog),
    MS.Start.(bdSeq := 1, connected := true, birthPending := true, pendingToken := 1, inFlight := true,
      birthInFlight := true), Online, None, [], SysIdle, OpenIdle, DownPost, Opening, false, OpenHistory)

  lemma Redials() returns (run: seq<Action>)
    ensures E.Reaches(run, Redialled)
  {
    var s: State;
    run := Breaks();
    s := Broken;
    run, s := E.Then(run, s, OpenNext(true));
    run, s := E.Then(run, s, OpenNext(true));
    run, s := E.Then(run, s, OpenNext(true));
  }

  /** The service handles the disconnect; the helper is already up again. */
  const Posted := State(
    PP.Channel(Given(false, 2), PP.NoCall, PP.Lock(2), None, 1, FirstLog),
    MS.Start.(bdSeq := 1, connected := true, birthPending := true, pendingToken := 1, inFlight := true,
      birthInFlight := true), Online, None, [MqttDisconnected], SysIdle, OpenIdle, CallIdle, Opening, false,
      OpenHistory)

  lemma Posts() returns (run: seq<Action>)
    ensures E.Reaches(run, Posted)
  {
    var s: State;
    run := Redials();
    s := Redialled;
    run, s := E.Then(run, s, StartJob);
    run, s := E.Then(run, s, CallNext);
    assert s.q == [MqttDisconnected];
  }

  const HandledDown := State(
    PP.Channel(Given(false, 2), PP.NoCall, PP.Lock(2), None, 1, FirstLog),
    MS.Start.(bdSeq := 2, pendingToken := 1), RP.State(true, RP.Waiting, 10), Some(5), [], SysIdle, OpenIdle, CallIdle,
      Opening, false, NoHistory)

  const Waits1 := RP.State(true, RP.Waiting, 10)

  lemma DownServes()
    ensures MS.OnDisconnected(MS.Start.(bdSeq := 1, connected := true, birthPending := true, pendingToken := 1,
            inFlight := true, birthInFlight := true))
         == MS.Start.(bdSeq := 2, pendingToken := 1)
    ensures RP.Respond(E.Setup.delays, Online, RP.Failure) == (Waits1, RP.Schedule(5))
  {
  }

  lemma DownApplies(s: State)
    requires s.rec == Online && s.recTimer == None && s.sys == SysIdle
    ensures Apply(E.Setup, s, RP.Failure) == s.(rec := Waits1, recTimer := Some(5))
  {
    DownServes();
  }

  lemma Handles() returns (run: seq<Action>)
    ensures E.Reaches(run, HandledDown)
  {
    var s: State;
    run := Posts();
    DownServes();
    var down := Posted.(q := [], svc := HandledDown.svc, h := NoHistory);
    DownApplies(down);
    assert Posted.q[1..] == [];
    run, s := E.Then(run, Posted, HandleEvent);
    assert s == Apply(E.Setup, down, RP.Failure);
  }

  const Forgotten := State(
    PP.Channel(Given(true, 2), PP.NoCall, PP.Lock(2), None, 1, FirstLog),
    MS.Start.(bdSeq := 2, pendingToken := 1), RP.State(true, RP.Waiting, 10), Some(5), [], SysIdle, OpenIdle, UpLte, Up,
      false, NoHistory)

  lemma Forgets() returns (run: seq<Action>)
    ensures E.Reaches(run, Forgotten)
  {
    var s: State;
    run := Handles();
    s := HandledDown;
    run, s := E.Then(run, s, Connack(true));
    run, s := E.Then(run, s, CallNext);
    assert s.q == [];
  }

  const Packet0 := PP.Packet(1, 1, 1, First, false)

  const WireLog: Log := PP.Log(map[1 := First], map[1 := 1], [Packet0], [], [])

  function Active1(pending: bool, timer: Option<nat>): Client {
    Given(true, 2).(publishPending := pending, delay := 30, activeGeneration := 2, activeToken := 1, activeId := 1,
      timer := timer)
  }

  /** The NBIRTH of the earlier session is written in the new connection. */
  const Writing := State(
    PP.Channel(Active1(true, None), PP.NoCall, PP.Writing(1, 2, 1), None, 1, WireLog),
    MS.Start.(bdSeq := 2, pendingToken := 1), RP.State(true, RP.Waiting, 10), Some(5), [], SysIdle, OpenIdle, UpLte, Up,
      false, NoHistory)

  lemma Writes() returns (run: seq<Action>)
    ensures E.Reaches(run, Writing)
  {
    var s: State;
    run := Forgets();
    s := Forgotten;
    run, s := E.Then(run, s, SenderNext(1, true));
    run, s := E.Then(run, s, SenderNext(1, true));
    assert s.ch.h.ids == map[1 := 1] && s.ch.h.wire == [Packet0];
  }

  const Waiting := State(
    PP.Channel(Active1(false, Some(30)), PP.NoCall, PP.Rest, None, 1, WireLog),
    MS.Start.(bdSeq := 2, pendingToken := 1), RP.State(true, RP.Waiting, 10), Some(5), [], SysIdle, OpenIdle, UpLte, Up,
      false, NoHistory)

  lemma Waits() returns (run: seq<Action>)
    ensures E.Reaches(run, Waiting)
  {
    var s: State;
    run := Writes();
    s := Writing;
    run, s := E.Then(run, s, SenderNext(1, true));
    run, s := E.Then(run, s, SenderNext(1, true));
    run, s := E.Then(run, s, SenderNext(1, true));
  }

  /** Its timer fires; the service learns of the new connection. */
  const Announced := State(
    PP.Channel(Active1(false, None), PP.NoCall, PP.Retry(PP.Own, 0, 0, 0), None, 1, WireLog),
    MS.Start.(bdSeq := 2, pendingToken := 1), RP.State(true, RP.Waiting, 10), Some(5), [MqttConnected], SysIdle,
      OpenIdle, CallIdle, Up, false, NoHistory)

  lemma Announces() returns (run: seq<Action>)
    ensures E.Reaches(run, Announced)
  {
    var s: State;
    run := Waits();
    s := Waiting;
    run, s := E.Then(run, s, StartRetry);
    run, s := E.Then(run, s, CallNext);
    run, s := E.Then(run, s, CallNext);
    run, s := E.Then(run, s, CallNext);
    run, s := E.Then(run, s, CallNext);
    assert s.q == [MqttConnected];
  }

  const Fired := State(
    PP.Channel(Active1(false, None), PP.NoCall, PP.Retry(PP.Own, 0, 0, 0), None, 1, WireLog),
    MS.Start.(bdSeq := 2, pendingToken := 1, connected := true, birthPending := true, publishWork := true), Online,
      None, [], SysIdle, OpenIdle, CallIdle, Up, false, OpenHistory)

  lemma Fires() returns (run: seq<Action>)
    ensures E.Reaches(run, Fired)
  {
    var s: State;
    run := Announces();
    s := Announced;
    run, s := E.Then(run, s, HandleEvent);
    assert s.q == [];
  }

  /** The new NBIRTH takes publish_pending. */
  const Claimed := State(
    PP.Channel(Active1(true, None), PP.Call(PP.Active, Second), PP.Retry(PP.Own, 0, 0, 0), None, 1, WireLog),
    MS.Start.(bdSeq := 2, pendingToken := 1, connected := true, birthPending := true), Online, None, [], SysIdle,
      OpenIdle, CallIdle, Up, false, OpenHistory)

  lemma Claims() returns (run: seq<Action>)
    ensures E.Reaches(run, Claimed)
  {
    var s: State;
    run := Fires();
    s := Fired;
    run, s := E.Then(run, s, StartPublish(0));
    run, s := E.Then(run, s, CallerNext(true));
    run, s := E.Then(run, s, CallerNext(true));
    run, s := E.Then(run, s, CallerNext(true));
  }

  lemma ThenAbandoned(run: seq<Action>, s: State, a: Action) returns (run': seq<Action>, s': State)
    requires E.Reaches(run, s) && Enabled(s, a) && SomeActive(Step(E.Setup, s, a).ch)
    requires GivesUp(s, a) || Abandoned(E.Setup, run)
    ensures run' == run + [a] && s' == Step(E.Setup, s, a) && E.Reaches(run', s') && Abandoned(E.Setup, run')
  {
    run', s' := E.Then(run, s, a);
    assert run'[..|run'| - 1] == run;
  }

  /** The handler gives up, and the new NBIRTH is refused: now everything rests. */
  const Resting := State(
    PP.Channel(Active1(false, None), PP.NoCall, PP.Rest, None, 1, WireLog),
    MS.Start.(bdSeq := 2, pendingToken := 1, connected := true, birthPending := true, publishWork := true,
              publishDelay := MS.OneInterval), Online, None, [], SysIdle, OpenIdle, CallIdle, Up, false, OpenHistory)

  lemma PublishIsAbandoned() returns (run: seq<Action>)
    ensures E.Reaches(run, Resting) && Abandoned(E.Setup, run)
    ensures var s := Resting;
            && SomeActive(s.ch) && s.ch.c.lte && s.ch.c.connected && s.link == Up && s.ch.c.timer == None
            && SysFree(s) && WorkFree(s) && CallFree(s) && s.q == [] && s.rec.phase == RP.Connected
            && s.svc.connected && s.svc.birthPending && s.svc.publishWork && !s.svc.inFlight
  {
    var s: State;
    run := Claims();
    s := Claimed;
    run, s := ThenAbandoned(run, s, RetryNext);
    run, s := ThenAbandoned(run, s, CallerNext(true));
    run, s := ThenAbandoned(run, s, CallerNext(true));
  }
}

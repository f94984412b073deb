/** What bdSeq counts: not connections but notifications of a disconnect that the
    service has handled, of which one lost connection can cause two. */
module DeviceBdSeq {
  import opened Common
  import opened Device
  import opened DeviceFrames
  import E = DeviceExample
  import MS = MeasurementService
  import RP = ReconnectPolicy

  /** The controller tells the service of a disconnect: the event, an error, or the end of lte_lost. */
  predicate Notifies(s: State, a: Action) {
    || (a.HandleEvent? && s.q != [] && (s.q[0].MqttDisconnected? || s.q[0].MqttError?))
    || (a.SysNext? && ((s.sys.LteCas? && !s.ch.c.lte) || s.sys == Submit(LostLte)))
  }

  ghost function Notified(g: Config, run: seq<Action>): nat
    requires After(g, run).Some?
    decreases |run|
  {
    if run == [] then 0
    else Notified(g, run[..|run| - 1]) + if Notifies(After(g, run[..|run| - 1]).value, run[|run| - 1]) then 1 else 0
  }

  lemma HandleCounts(g: Config, s: State)
    requires s.q != []
    ensures var s' := Dispatch(g, s.(q := s.q[1..]), s.q[0]);
            s'.svc.bdSeq == if s.q[0].MqttDisconnected? || s.q[0].MqttError? then NextSeq(s.svc.bdSeq) else s.svc.bdSeq
  {
    match s.q[0] {
      case LteLost => case LteConnected => case MqttConnected => case MqttDisconnected => case MqttError =>
      case Completed(_, _) =>
    }
  }

  lemma SysCounts(g: Config, s: State, ok: bool)
    ensures SysStep(g, s, ok).svc.bdSeq == if Notifies(s, SysNext(ok)) then NextSeq(s.svc.bdSeq) else s.svc.bdSeq
  {
    match s.sys {
      case SysIdle => case LteCas => case LteSet => case Lock(_) => case Submit(_) =>
      case ConnectLte => case ConnectHelper => case ConnectCas => case ConnectSubmit => case PostError =>
    }
  }

  lemma OthersCount(g: Config, s: State, a: Action)
    requires Enabled(s, a) && !a.HandleEvent? && !a.SysNext?
    ensures Step(g, s, a).svc.bdSeq == s.svc.bdSeq
  {
    match a {
      case CallerNext(_) => case StartPublish(_) => case Sample(_) =>
      case _ => ServiceStays(g, s, a);
    }
  }

  lemma StepCounts(g: Config, s: State, a: Action)
    requires Enabled(s, a)
    ensures Step(g, s, a).svc.bdSeq == if Notifies(s, a) then NextSeq(s.svc.bdSeq) else s.svc.bdSeq
  {
    match a {
      case HandleEvent => HandleCounts(g, s);
      case SysNext(ok) => SysCounts(g, s, ok);
      case _ => OthersCount(g, s, a);
    }
  }

  lemma NextOfCount(n: nat)
    ensures NextSeq(n % 256) == (n + 1) % 256
  {
  }

  /** bdSeq is the number of notifications handled so far, modulo 256. */
  lemma {:induction false} BdSeqCountsNotifications(g: Config, run: seq<Action>)
    requires After(g, run).Some?
    ensures After(g, run).value.svc.bdSeq == Notified(g, run) % 256
    decreases |run|
  {
    if run != [] {
      BdSeqCountsNotifications(g, run[..|run| - 1]);
      StepCounts(g, After(g, run[..|run| - 1]).value, run[|run| - 1]);
      NextOfCount(Notified(g, run[..|run| - 1]));
    }
  }

  // ------------------------------------------- one connection, counted twice

  /** The helper reports an error and then closes the connection. */
  const Failing := E.Connected.(link := Down, call := DownLock, q := [MqttError])

  lemma Fails() returns (run: seq<Action>)
    ensures E.Reaches(run, Failing)
  {
    var s: State;
    run := E.Connects();
    run, s := E.Then(run, E.Connected, HelperError);
    run, s := E.Then(run, s, Disconnected);
    assert s.q == [MqttError];
  }

  const Closed := E.Connected.(
    ch := NoChannel.(c := E.Client0.(connected := false, generation := 1), session := 1), link := Down,
    q := [MqttError, MqttDisconnected])

  lemma Closes() returns (run: seq<Action>)
    ensures E.Reaches(run, Closed)
  {
    var s: State;
    run := Fails();
    run, s := E.Then(run, Failing, CallNext);
    run, s := E.Then(run, s, CallNext);
    assert s.q == [MqttError, MqttDisconnected];
  }

  const ErrorHandled := Closed.(
    svc := MS.Start.(bdSeq := 1), sys := Lock(AfterError), q := [MqttDisconnected])

  lemma HandlesError() returns (run: seq<Action>)
    ensures E.Reaches(run, ErrorHandled)
  {
    var s: State;
    run := Closes();
    run, s := E.Then(run, Closed, HandleEvent);
    assert s.q == [MqttDisconnected];
  }

  const ErrorDone := ErrorHandled.(
    ch := NoChannel.(c := E.Client0.(connected := false, generation := 2, disconnectWork := true), session := 1),
    sys := SysIdle, rec := RP.State(true, RP.Waiting, 10), recTimer := Some(5))

  lemma FinishesError() returns (run: seq<Action>)
    ensures E.Reaches(run, ErrorDone)
  {
    var s: State;
    run := HandlesError();
    run, s := E.Then(run, ErrorHandled, SysNext(true));
    run, s := E.Then(run, s, SysNext(true));
  }

  /** One connection was made and lost, and bdSeq has advanced twice. */
  lemma OneLossCountsTwice() returns (run: seq<Action>, s: State)
    ensures E.Reaches(run, s) && s.ch.session == 1 && s.svc.bdSeq == 2 && s.q == [] && SysFree(s)
  {
    run := FinishesError();
    assert ErrorDone.q[1..] == [];
    run, s := E.Then(run, ErrorDone, HandleEvent);
  }
}

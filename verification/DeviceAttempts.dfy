/** What the application is told about a connection attempt of the full firmware.
    An attempt is void once LTE was lost, a disconnect was asked for or a
    connection ended since it began; a void attempt that succeeds or fails is not
    reported. */
module DeviceAttempts {
  import opened Common
  import opened Device
  import PP = PublishProtocol

  /** Whether nothing has voided the attempt that the connect handler is making,
      the latest that has noted its generation, and the one that the running
      callback has read. */
  datatype Standing = Standing(making: bool, noted: bool, read: bool)

  /** The steps that void every attempt begun so far. */
  predicate Voids(s: State, a: Action) {
    (a.SysNext? && s.sys.Lock?) || (a.CallNext? && (s.call.UpLock? || s.call.DownLock?))
  }

  ghost function StandingOf(g: Config, run: seq<Action>): Standing
    requires After(g, run).Some?
    decreases |run|
  {
    if run == [] then Standing(true, true, true)
    else NextStanding(After(g, run[..|run| - 1]).value, run[|run| - 1], StandingOf(g, run[..|run| - 1]))
  }

  ghost function NextStanding(s: State, a: Action, t: Standing): Standing {
    if Voids(s, a) then Standing(false, false, false)
    else if a.OpenNext? && s.opener.OpenRead? then t.(making := true)
    else if a.OpenNext? && s.opener.OpenMark? then t.(noted := t.making)
    else if a.CallNext? && (s.call.UpMark? || s.call.RefusedMark?) then t.(read := t.noted)
    else t
  }

  // ---------------------------------------------------------- the invariant

  /** Equality with the present generation tells whether an attempt stands. */
  predicate Tells(n: nat, generation: nat, stands: bool) {
    n <= generation && (stands <==> n == generation)
  }

  predicate Attempted(s: State, t: Standing) {
    && Tells(s.ch.c.connectGeneration, s.ch.c.generation, t.noted)
    && OpenerTells(s.opener, s.ch.c.generation, t.making)
    && CallTells(s.call, s.ch.c.generation, t.read)
  }

  predicate OpenerTells(opener: Opener, generation: nat, stands: bool) {
    match opener
    case OpenMark(n) => Tells(n, generation, stands)
    case OpenCall(n) => Tells(n, generation, stands)
    case OpenFailed(n) => Tells(n, generation, stands)
    case FailLte(n) => Tells(n, generation, stands)
    case FailCheck(n) => Tells(n, generation, stands)
    case _ => true
  }

  predicate CallTells(call: Callback, generation: nat, stands: bool) {
    match call
    case UpCheck(n) => Tells(n, generation, stands)
    case RefusedCheck(n) => Tells(n, generation, stands)
    case _ => true
  }

  /** A step that begins and notes no attempt. */
  predicate LeavesAttempts(s: State, s': State) {
    && s'.ch.c.connectGeneration == s.ch.c.connectGeneration && s'.ch.c.generation == s.ch.c.generation
    && s'.opener == s.opener && s'.call == s.call
  }

  lemma SysGeneration(g: Config, s: State, ok: bool)
    requires !s.sys.SysIdle?
    ensures var s' := SysStep(g, s, ok);
            && s'.opener == s.opener && s'.call == s.call && s'.ch.c.connectGeneration == s.ch.c.connectGeneration
            && s'.ch.c.generation == if s.sys.Lock? then s.ch.c.generation + 1 else s.ch.c.generation
  {
    match s.sys {
      case LteCas => case LteSet => case Lock(_) => case Submit(_) =>
      case ConnectLte => case ConnectHelper => case ConnectCas => case ConnectSubmit => case PostError =>
    }
  }

  lemma SysAttempts(g: Config, s: State, ok: bool, t: Standing)
    requires Attempted(s, t) && !s.sys.SysIdle?
    ensures Attempted(SysStep(g, s, ok), NextStanding(s, SysNext(ok), t))
  {
    SysGeneration(g, s, ok);
  }

  lemma OpenAttempts(s: State, ok: bool, t: Standing)
    requires Attempted(s, t) && !s.opener.OpenIdle?
    ensures Attempted(OpenStep(s, ok), NextStanding(s, OpenNext(ok), t))
  {
    match s.opener {
      case OpenLte => case OpenAbort => case OpenRead => case OpenMark(_) => case OpenCall(_) =>
      case OpenFailed(_) => case FailLte(_) => case FailCheck(_) => case FailPost => case CloseRead => case CloseCall =>
    }
  }

  lemma CallAttempts(s: State, t: Standing)
    requires Attempted(s, t) && !s.call.CallIdle?
    ensures Attempted(CallStep(s), NextStanding(s, CallNext, t))
  {
    match s.call {
      case UpSet => case UpLte => case UpMark => case UpCheck(_) => case UpPost => case UpLock =>
      case UpSubmit => case RefusedLte => case RefusedMark => case RefusedCheck(_) => case RefusedPost =>
      case DownLock => case DownPost =>
    }
  }

  lemma CallerAttempts(s: State, ok: bool)
    requires s.ch.caller.Call?
    ensures LeavesAttempts(s, CallerOp(s, ok))
  {
    match s.ch.caller.at {
      case Lte => case Helper => case Cas => case Active => case Release => case Payload => case Topic =>
      case Generation => case Token => case Submit =>
    }
  }

  lemma SenderAttempts(g: Config, s: State, id: nat, ok: bool)
    requires !s.ch.sender.Rest? && !s.ch.sender.Retry?
    ensures LeavesAttempts(s, SenderOp(g, s, id, ok))
  {
    match s.ch.sender {
      case Lock(_) => case Stale => case Start(_, _, _, _) => case Writing(_, _, _) => case Written(_, _, _, _) =>
      case Failing(_) => case Finish =>
    }
  }

  lemma RetryAttempts(g: Config, s: State)
    requires s.ch.sender.Retry?
    ensures LeavesAttempts(s, s.(ch := PP.RetryStep(g.timing, s.ch)))
  {
    match s.ch.sender.at {
      case Own => case Id => case Job => case Stamp => case LteUp => case HelperUp => case Check =>
    }
  }

  lemma HandleAttempts(g: Config, s: State)
    requires s.q != []
    ensures LeavesAttempts(s, Dispatch(g, s.(q := s.q[1..]), s.q[0]))
  {
    match s.q[0] {
      case LteLost => case LteConnected => case MqttConnected => case MqttDisconnected => case MqttError =>
      case Completed(_, _) =>
    }
  }

  lemma QuietAttempts(g: Config, s: State, a: Action, t: Standing)
    requires Attempted(s, t) && Enabled(s, a)
    requires !a.SysNext? && !a.OpenNext? && !a.CallNext? && !a.CallerNext? && !a.SenderNext? && !a.RetryNext?
    requires !a.HandleEvent?
    ensures Attempted(Step(g, s, a), t)
  {
    match a {
      case LteChanges(_) => case Arrive(_) => case StartPublish(_) => case Sample(_) => case ReconnectFires =>
      case StartJob => case StartRetry => case StartOpen => case StartClose =>
      case Connack(_) => case Disconnected => case HelperError => case Puback(_, _) => case PostPuback =>
    }
  }

  lemma StepAttempts(g: Config, s: State, a: Action, t: Standing)
    requires Attempted(s, t) && Enabled(s, a)
    ensures Attempted(Step(g, s, a), NextStanding(s, a, t))
  {
    match a {
      case SysNext(ok) => SysAttempts(g, s, ok, t);
      case OpenNext(ok) => OpenAttempts(s, ok, t);
      case CallNext => CallAttempts(s, t);
      case CallerNext(ok) => CallerAttempts(s, ok);
      case SenderNext(id, ok) => SenderAttempts(g, s, id, ok);
      case RetryNext => RetryAttempts(g, s);
      case HandleEvent => HandleAttempts(g, s);
      case _ => QuietAttempts(g, s, a, t);
    }
  }

  lemma {:induction false} AlwaysAttempted(g: Config, run: seq<Action>)
    requires After(g, run).Some?
    ensures Attempted(After(g, run).value, StandingOf(g, run))
    decreases |run|
  {
    if run != [] {
      AlwaysAttempted(g, run[..|run| - 1]);
      StepAttempts(g, After(g, run[..|run| - 1]).value, run[|run| - 1], StandingOf(g, run[..|run| - 1]));
    }
  }

  // ------------------------------------------------------- what this means

  /** Over every run: when a callback or the connect handler is about to decide
      whether to tell the application of the attempt, it does so exactly when
      nothing has voided the attempt since it read the generation. */
  lemma ToldIffStanding(g: Config, run: seq<Action>, a: Action)
    requires After(g, run + [a]).Some?
    ensures After(g, run).Some?
    ensures var s, s', t := After(g, run).value, After(g, run + [a]).value, StandingOf(g, run);
            && (a.CallNext? && s.call.UpCheck? ==> (s'.call.UpPost? <==> t.read) && (s'.call.UpLock? <==> !t.read))
            && (a.CallNext? && s.call.RefusedCheck? ==> (s'.call.RefusedPost? <==> t.read))
            && (a.OpenNext? && s.opener.FailCheck? ==> (s'.opener.FailPost? <==> t.making))
  {
    assert (run + [a])[..|run|] == run;
    AlwaysAttempted(g, run);
  }
}

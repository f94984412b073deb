/** Every decided completion is told to the application exactly once: the
    Completed events ever put into the event queue have distinct tokens and
    results as decided, and a decision not yet in the queue is on its way. */
module DeviceCompletions {
  import opened Common
  import opened Device
  import opened DeviceFrames
  import opened DeviceSound
  import PP = PublishProtocol
  import PB = PublishBuffer
  import PK = PublishPackets
  import PS = PublishSound

  type Told = (nat, bool)

  /** The completion a step puts into the event queue, if any. */
  function NewlyPosted(s: State, s': State): seq<Told> {
    if |s'.q| > |s.q| && s'.q[|s.q|].Completed? then [(s'.q[|s.q|].token, s'.q[|s.q|].ok)] else []
  }

  /** The completions a run has put into the event queue, in order. */
  ghost function Posted(g: Config, run: seq<Action>): seq<Told>
    requires After(g, run).Some?
    decreases |run|
  {
    if run == [] then []
    else Posted(g, run[..|run| - 1]) + NewlyPosted(After(g, run[..|run| - 1]).value, After(g, run).value)
  }

  ghost predicate Decided(done: seq<PP.Done>, t: Told) {
    exists k :: 0 <= k < |done| && done[k].token == t.0 && done[k].ok == t.1
  }

  ghost predicate Among(posted: seq<Told>, token: nat) {
    exists k :: 0 <= k < |posted| && posted[k].0 == token
  }

  /** A completion that is decided and will be put into the queue next. */
  predicate OnItsWay(ch: Channel, token: nat) {
    (ch.posting.Some? && ch.posting.value.0 == token) || (ch.sender.Failing? && ch.sender.token == token)
  }

  ghost predicate Distinct(posted: seq<Told>) {
    forall j, k :: 0 <= j < k < |posted| ==> posted[j].0 != posted[k].0
  }

  ghost predicate AllDecided(ch: Channel, posted: seq<Told>) {
    && (forall k :: 0 <= k < |posted| ==> Decided(ch.h.done, posted[k]))
    && (ch.posting.Some? ==> Decided(ch.h.done, ch.posting.value))
    && (ch.sender.Failing? ==> Decided(ch.h.done, (ch.sender.token, false)))
  }

  ghost predicate Separate(ch: Channel, posted: seq<Told>) {
    && (forall t :: OnItsWay(ch, t) ==> !Among(posted, t))
    && (ch.posting.Some? && ch.sender.Failing? ==> ch.posting.value.0 != ch.sender.token)
  }

  ghost predicate AllTold(ch: Channel, posted: seq<Told>) {
    forall k :: 0 <= k < |ch.h.done| ==> Among(posted, ch.h.done[k].token) || OnItsWay(ch, ch.h.done[k].token)
  }

  ghost predicate Reported(ch: Channel, posted: seq<Told>) {
    Distinct(posted) && AllDecided(ch, posted) && Separate(ch, posted) && AllTold(ch, posted)
  }

  // ------------------------------------------------------------- the steps

  /** Neither decisions nor what is on its way change. */
  predicate SameReports(ch: Channel, ch': Channel) {
    && ch'.h.done == ch.h.done && ch'.posting == ch.posting
    && (ch'.sender.Failing? || ch.sender.Failing? ==> ch'.sender == ch.sender)
  }

  lemma SameKeeps(ch: Channel, ch': Channel, posted: seq<Told>)
    requires Reported(ch, posted) && SameReports(ch, ch')
    ensures Reported(ch', posted)
  {
    forall t
      ensures OnItsWay(ch', t) == OnItsWay(ch, t)
    {
    }
  }

  /** A new decision, of a token that had none, gets on its way. */
  lemma DecisionKeeps(ch: Channel, ch': Channel, posted: seq<Told>, d: PP.Done)
    requires Reported(ch, posted) && PS.Open(ch, d.token) && ch'.h.done == ch.h.done + [d]
    requires || (ch.posting.None? && ch'.posting == Some((d.token, d.ok)) && ch'.sender == ch.sender)
             || (!ch.sender.Failing? && ch'.sender == PP.Failing(d.token) && !d.ok && ch'.posting == ch.posting)
    ensures Reported(ch', posted)
  {
    forall t: Told | Decided(ch.h.done, t)
      ensures Decided(ch'.h.done, t) && t.0 != d.token
    {
      var k :| 0 <= k < |ch.h.done| && ch.h.done[k].token == t.0 && ch.h.done[k].ok == t.1;
      assert ch'.h.done[k] == ch.h.done[k];
    }
    assert Decided(ch'.h.done, (d.token, d.ok)) by { assert ch'.h.done[|ch.h.done|] == d; }
    assert OnItsWay(ch', d.token);
    forall k | 0 <= k < |ch.h.done|
      ensures Among(posted, ch'.h.done[k].token) || OnItsWay(ch', ch'.h.done[k].token)
    {
      assert ch'.h.done[k] == ch.h.done[k];
    }
  }

  /** What was on its way is put into the queue. */
  lemma PostKeeps(ch: Channel, ch': Channel, posted: seq<Told>, t: Told)
    requires Reported(ch, posted) && ch'.h.done == ch.h.done
    requires || (ch.posting == Some(t) && ch'.posting == None && ch'.sender == ch.sender)
             || (ch.sender == PP.Failing(t.0) && !t.1 && !ch'.sender.Failing? && ch'.posting == ch.posting)
    ensures Reported(ch', posted + [t])
  {
    assert OnItsWay(ch, t.0);
    assert Among(posted + [t], t.0) by { assert (posted + [t])[|posted|] == t; }
    forall token
      ensures Among(posted + [t], token) <==> Among(posted, token) || token == t.0
    {
      if Among(posted, token) {
        var k :| 0 <= k < |posted| && posted[k].0 == token;
        assert (posted + [t])[k] == posted[k];
      }
    }
    forall k | 0 <= k < |posted|
      ensures posted[k].0 != t.0
    {
      assert Among(posted, posted[k].0);
    }
    forall token | OnItsWay(ch', token)
      ensures OnItsWay(ch, token) && token != t.0
    {
    }
  }

  lemma SenderReports(g: Config, s: State, id: nat, ok: bool, posted: seq<Told>)
    requires !s.ch.sender.Rest? && !s.ch.sender.Retry? && PS.Sound(g.timing, s.ch) && Reported(s.ch, posted)
    ensures Reported(SenderOp(g, s, id, ok).ch, posted + NewlyPosted(s, SenderOp(g, s, id, ok)))
  {
    var s' := SenderOp(g, s, id, ok);
    match s.ch.sender {
      case Failing(token) => PostKeeps(s.ch, s'.ch, posted, (token, false));
      case Written(_, _, _, _) => WrittenReports(g, s, id, ok, posted);
      case Lock(_) => StaysReported(s, s', posted);
      case Stale => StaysReported(s, s', posted);
      case Start(_, _, _, _) => StaysReported(s, s', posted);
      case Writing(_, _, _) => StaysReported(s, s', posted);
      case Finish => StaysReported(s, s', posted);
    }
  }

  lemma WrittenReports(g: Config, s: State, id: nat, ok: bool, posted: seq<Told>)
    requires s.ch.sender.Written? && PS.Sound(g.timing, s.ch) && Reported(s.ch, posted)
    ensures Reported(SenderOp(g, s, id, ok).ch, posted + NewlyPosted(s, SenderOp(g, s, id, ok)))
  {
    var s' := SenderOp(g, s, id, ok);
    assert posted + [] == posted;
    if s'.ch.sender.Failing? {
      assert PB.WritingOut(s.ch);
      DecisionKeeps(s.ch, s'.ch, posted, PP.Done(s.ch.sender.token, false, s.ch.session, s.ch.sender.id));
    } else {
      SameKeeps(s.ch, s'.ch, posted);
    }
  }

  lemma StaysReported(s: State, s': State, posted: seq<Told>)
    requires Reported(s.ch, posted) && SameReports(s.ch, s'.ch) && NewlyPosted(s, s') == []
    ensures Reported(s'.ch, posted + NewlyPosted(s, s'))
  {
    assert posted + [] == posted;
    SameKeeps(s.ch, s'.ch, posted);
  }

  lemma PubackReports(g: Config, s: State, id: nat, ok: bool, posted: seq<Told>)
    requires PS.Sound(g.timing, s.ch) && Reported(s.ch, posted) && Enabled(s, Puback(id, ok))
    ensures Reported(PP.PubackStep(s.ch, id, ok), posted)
  {
    var ch' := PP.PubackStep(s.ch, id, ok);
    var n :| 0 <= n < |s.ch.h.arrived| && PP.ArrivedAs(s.ch, s.ch.h.arrived[n], id);
    assert PK.GoodPacket(s.ch, s.ch.h.wire[s.ch.h.arrived[n]]);
    if |ch'.h.done| > |s.ch.h.done| {
      DecisionKeeps(s.ch, ch', posted, PP.Done(s.ch.c.activeToken, ok, s.ch.session, id));
    }
  }

  /** The steps that decide and tell nothing. */
  predicate Silent(a: Action) {
    a.CallerNext? || a.RetryNext? || a.Arrive? || a.StartPublish? || a.StartJob? || a.StartRetry?
  }

  lemma SilentReports(g: Config, s: State, a: Action)
    requires Enabled(s, a) && Silent(a)
    ensures SameReports(s.ch, Step(g, s, a).ch) && NewlyPosted(s, Step(g, s, a)) == []
  {
    match a {
      case CallerNext(ok) => PB.CallerFrame(s.ch, ok);
      case RetryNext => case Arrive(_) => case StartPublish(_) => case StartJob => case StartRetry =>
    }
  }

  lemma ProtocolReports(g: Config, s: State, a: Action, posted: seq<Told>)
    requires Enabled(s, a) && Protocol(a) && PS.Sound(g.timing, s.ch) && Reported(s.ch, posted)
    ensures Reported(Step(g, s, a).ch, posted + NewlyPosted(s, Step(g, s, a)))
  {
    if Silent(a) {
      SilentReports(g, s, a);
      StaysReported(s, Step(g, s, a), posted);
    } else if a.SenderNext? {
      SenderReports(g, s, a.id, a.ok, posted);
    } else if a.Puback? {
      PubackReports(g, s, a.id, a.ok, posted);
      assert posted + [] == posted;
    } else {
      PostKeeps(s.ch, Step(g, s, a).ch, posted, s.ch.posting.value);
    }
  }

  lemma OutsidePostsNone(g: Config, s: State, a: Action)
    requires Enabled(s, a) && !Protocol(a)
    ensures NewlyPosted(s, Step(g, s, a)) == []
  {
    match a {
      case HandleEvent => HandleFrame(g, s.(q := s.q[1..]), s.q[0]);
      case SysNext(ok) => SysFrame(g, s, ok);
      case OpenNext(ok) => OpenFrame(s, ok);
      case CallNext => CallFrame(s);
      case LteChanges(_) => case Sample(_) => case ReconnectFires => case HelperError =>
      case StartOpen => case StartClose => case Connack(_) => case Disconnected =>
    }
  }

  lemma StepReports(g: Config, s: State, a: Action, posted: seq<Told>)
    requires Enabled(s, a) && PS.Sound(g.timing, s.ch) && Reported(s.ch, posted)
    ensures Reported(Step(g, s, a).ch, posted + NewlyPosted(s, Step(g, s, a)))
  {
    if Protocol(a) {
      ProtocolReports(g, s, a, posted);
    } else {
      OutsideStep(g, s, a);
      OutsidePostsNone(g, s, a);
      StaysReported(s, Step(g, s, a), posted);
    }
  }

  lemma {:induction false} AlwaysReported(g: Config, run: seq<Action>)
    requires ValidConfig(g) && After(g, run).Some?
    ensures Reported(After(g, run).value.ch, Posted(g, run))
    decreases |run|
  {
    if run != [] {
      var before := run[..|run| - 1];
      AlwaysReported(g, before);
      AlwaysSound(g, before);
      StepReports(g, After(g, before).value, run[|run| - 1], Posted(g, before));
    }
  }

  // ------------------------------------------------------- what this means

  /** No token is told twice, only decided results are told, and every decided
      one has been told or is about to be, but not both. */
  lemma EachDecisionIsToldOnce(g: Config, run: seq<Action>)
    requires ValidConfig(g) && After(g, run).Some?
    ensures var ch, posted := After(g, run).value.ch, Posted(g, run);
            && (forall j, k :: 0 <= j < k < |posted| ==> posted[j].0 != posted[k].0)
            && (forall k :: 0 <= k < |posted| ==> Decided(ch.h.done, posted[k]))
            && (forall k :: 0 <= k < |ch.h.done| ==>
                  (Among(posted, ch.h.done[k].token) <==> !OnItsWay(ch, ch.h.done[k].token)))
  {
    AlwaysReported(g, run);
  }
}

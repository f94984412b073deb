/** Sparkplug's order in the simple firmware, over every run, harmless or not: no
    NDATA is written in a connection before its NBIRTH was written there and a PUBACK
    was acted on while the loop waited for it. */
module SimpleBirthFirst {
  import opened Common
  import opened SimpleDevice
  import SA = SimpleApp
  import SB = SimpleBatch

  /** Packet j is an NBIRTH of this connection. */
  predicate IsBirth(s: State, j: nat) {
    j < |s.h.wire| && s.h.wire[j].b.Birth? && s.h.wire[j].session == s.session
  }

  /** The NBIRTH of this connection has been acted on. */
  ghost predicate Born(s: State) {
    exists i :: 0 <= i < |s.h.acked| && IsBirth(s, s.h.acked[i])
  }

  /** The message handed over is the last packet, and an NBIRTH of this connection. */
  predicate Announced(s: State) {
    s.h.wire != [] && IsBirth(s, |s.h.wire| - 1)
  }

  /** What the loop knows of its session. */
  predicate Phases(s: State) {
    && (s.app.mqtt.Idle? || s.app.mqtt.Connecting? ==> !s.app.birthAcked && !s.app.awaiting)
    && (s.app.awaiting ==> s.app.mqtt.Connected? && !Offering(s.at))
    && (Offering(s.at) ==> s.app.mqtt.Connected? && (s.at.b.Birth? <==> !s.app.birthAcked))
    && (s.at.Opening? ==> s.app.mqtt.Idle?)
  }

  /** What that means for a connection that is there. */
  ghost predicate Sessions(s: State) {
    && (s.link.Coming? ==> !s.app.birthAcked && !Awaited(s))
    && (s.link.Up? && s.app.birthAcked ==> Born(s))
    && (s.link.Up? && !s.app.birthAcked && Awaited(s) ==> Announced(s))
  }

  /** Every NDATA packet comes after an NBIRTH of its connection. */
  ghost predicate BirthFirst(s: State) {
    forall k :: 0 <= k < |s.h.wire| && s.h.wire[k].b.Data? ==> HasBirth(s, k)
  }

  ghost predicate HasBirth(s: State, k: nat)
    requires k < |s.h.wire|
  {
    exists i :: 0 <= i < |s.h.acked| && Precedes(s, s.h.acked[i], k)
  }

  predicate Precedes(s: State, j: nat, k: nat)
    requires k < |s.h.wire|
  {
    j < k && s.h.wire[j].b.Birth? && s.h.wire[j].session == s.h.wire[k].session
  }

  // ------------------------------------------------------------- the steps

  lemma StepPhases(g: SB.Settings, s: State, a: Action)
    requires Phases(s) && Enabled(s, a)
    ensures Phases(Step(g, s, a))
  {
    match a {
      case Update(_, _, _) => case Open(_, _) => case Return(_) => case Collect => case Check(_) => case Proceed =>
      case Publish(_) => case Measure(_) => case PostMeasured => case NetworkEvent => case Arrive(_) => case Wake =>
      case Close(_) => case Repost => case Claim(_, _) => case Write(_, _) => case Connack => case Disconnected =>
      case Puback(_, _) => case CallNext =>
    }
  }

  /** Packets, what was acted on and the connection are the same. */
  predicate SameSession(s: State, s': State) {
    s'.h.wire == s.h.wire && s'.h.acked == s.h.acked && s'.session == s.session && s'.link == s.link
  }

  lemma SameBorn(s: State, s': State)
    requires SameSession(s, s')
    ensures Born(s') == Born(s) && Announced(s') == Announced(s)
  {
    forall j
      ensures IsBirth(s', j) == IsBirth(s, j)
    {
    }
    if Born(s) {
      var i :| 0 <= i < |s.h.acked| && IsBirth(s, s.h.acked[i]);
      assert IsBirth(s', s'.h.acked[i]);
    }
    if Born(s') {
      var i :| 0 <= i < |s'.h.acked| && IsBirth(s', s'.h.acked[i]);
      assert IsBirth(s, s.h.acked[i]);
    }
  }

  /** Steps that tell the loop nothing new about its session. */
  lemma QuietSessions(s: State, s': State)
    requires Sessions(s) && SameSession(s, s')
    requires (s'.app.birthAcked == s.app.birthAcked || !s'.app.birthAcked) && (Awaited(s') ==> Awaited(s))
    requires !s'.app.birthAcked && Awaited(s') ==> !s.app.birthAcked
    ensures Sessions(s')
  {
    SameBorn(s, s');
  }

  lemma AckSessions(s: State)
    requires Sessions(s) && Phases(s) && s.at.Acking?
    ensures Sessions(Proceeded(s))
  {
    var s' := Proceeded(s);
    if SA.GotPuback in s.at.events && s.app.awaiting && s.link.Up? {
      if s.app.birthAcked {
        BornLonger(s, s');
      } else {
        assert s'.h.acked[|s.h.acked|] == |s.h.wire| - 1 && IsBirth(s', |s.h.wire| - 1);
      }
    } else if SA.GotPuback !in s.at.events || !s.app.awaiting {
      QuietSessions(s, s');
    }
  }

  lemma BornLonger(s: State, s': State)
    requires Born(s) && s'.session == s.session && s.h.wire <= s'.h.wire && s.h.acked <= s'.h.acked
    ensures Born(s')
  {
    var i :| 0 <= i < |s.h.acked| && IsBirth(s, s.h.acked[i]);
    assert s'.h.acked[i] == s.h.acked[i] && IsBirth(s', s'.h.acked[i]);
  }

  lemma WriteSessions(g: SB.Settings, s: State, ok: bool, sent: bool)
    requires Sessions(s) && Phases(s) && Enabled(s, Write(ok, sent))
    ensures Sessions(Step(g, s, Write(ok, sent)))
  {
    var s' := Step(g, s, Write(ok, sent));
    if s.link.Up? && s.app.birthAcked { BornLonger(s, s'); }
    if sent { assert s'.h.wire[|s.h.wire|].b == s.at.b; }
  }

  lemma StepSessions(g: SB.Settings, s: State, a: Action)
    requires Sessions(s) && Phases(s) && Enabled(s, a)
    ensures Sessions(Step(g, s, a))
  {
    match a {
      case Write(ok, sent) => WriteSessions(g, s, ok, sent);
      case Proceed => if s.at.Acking? { AckSessions(s); } else { QuietSessions(s, Step(g, s, a)); }
      case Connack =>
      case Disconnected =>
      case Open(ok, now) => if !ok { QuietSessions(s, Step(g, s, a)); }
      case _ => QuietSteps(g, s, a);
    }
  }

  lemma QuietSteps(g: SB.Settings, s: State, a: Action)
    requires Sessions(s) && Phases(s) && Enabled(s, a)
    requires !a.Write? && !a.Proceed? && !a.Connack? && !a.Disconnected? && !a.Open?
    ensures Sessions(Step(g, s, a))
  {
    var s' := Step(g, s, a);
    match a {
      case Update(_, _, _) => QuietSessions(s, s');
      case Return(_) => QuietSessions(s, s');
      case Collect => QuietSessions(s, s');
      case Check(_) => QuietSessions(s, s');
      case Publish(_) => QuietSessions(s, s');
      case Claim(_, _) => QuietSessions(s, s');
      case Measure(_) => QuietSessions(s, s');
      case PostMeasured => QuietSessions(s, s');
      case NetworkEvent => QuietSessions(s, s');
      case Arrive(_) => QuietSessions(s, s');
      case Wake => QuietSessions(s, s');
      case Close(_) => QuietSessions(s, s');
      case Repost => QuietSessions(s, s');
      case Puback(_, _) => QuietSessions(s, s');
      case CallNext => QuietSessions(s, s');
    }
  }

  // ------------------------------------------------------------- the packets

  lemma BirthStays(s: State, s': State)
    requires BirthFirst(s) && s'.h.wire == s.h.wire && s.h.acked <= s'.h.acked
    ensures BirthFirst(s')
  {
    forall k | 0 <= k < |s'.h.wire| && s'.h.wire[k].b.Data?
      ensures HasBirth(s', k)
    {
      assert HasBirth(s, k);
      var i :| 0 <= i < |s.h.acked| && Precedes(s, s.h.acked[i], k);
      assert Precedes(s', s'.h.acked[i], k);
    }
  }

  lemma WriteBirth(g: SB.Settings, s: State, ok: bool, sent: bool)
    requires BirthFirst(s) && Sessions(s) && Phases(s) && Enabled(s, Write(ok, sent)) && sent
    ensures BirthFirst(Step(g, s, Write(ok, sent)))
  {
    var s' := Step(g, s, Write(ok, sent));
    forall k | 0 <= k < |s'.h.wire| && s'.h.wire[k].b.Data?
      ensures HasBirth(s', k)
    {
      if k < |s.h.wire| {
        assert HasBirth(s, k);
        var i :| 0 <= i < |s.h.acked| && Precedes(s, s.h.acked[i], k);
        assert Precedes(s', s'.h.acked[i], k);
      } else {
        var i :| 0 <= i < |s.h.acked| && IsBirth(s, s.h.acked[i]);
        assert Precedes(s', s'.h.acked[i], k);
      }
    }
  }

  lemma StepBirth(g: SB.Settings, s: State, a: Action)
    requires BirthFirst(s) && Sessions(s) && Phases(s) && Enabled(s, a)
    ensures BirthFirst(Step(g, s, a))
  {
    if a.Write? && a.sent {
      WriteBirth(g, s, a.ok, a.sent);
    } else {
      WireStays(g, s, a);
      BirthStays(s, Step(g, s, a));
    }
  }

  lemma WireStays(g: SB.Settings, s: State, a: Action)
    requires Enabled(s, a) && !(a.Write? && a.sent)
    ensures Step(g, s, a).h.wire == s.h.wire && s.h.acked <= Step(g, s, a).h.acked
  {
    match a {
      case Update(_, _, _) => case Open(_, _) => case Return(_) => case Collect => case Check(_) => case Proceed =>
      case Publish(_) => case Measure(_) => case PostMeasured => case NetworkEvent => case Arrive(_) => case Wake =>
      case Close(_) => case Repost => case Claim(_, _) => case Write(_, _) => case Connack => case Disconnected =>
      case Puback(_, _) => case CallNext =>
    }
  }

  /** Over every run, every NDATA packet is preceded by an NBIRTH packet of the same
      connection that the loop has taken as acknowledged. */
  lemma {:induction false} NbirthComesFirst(g: SB.Settings, run: seq<Action>)
    requires After(g, run).Some?
    ensures BirthFirst(After(g, run).value) && Sessions(After(g, run).value) && Phases(After(g, run).value)
    decreases |run|
  {
    if run != [] {
      var s := After(g, run[..|run| - 1]).value;
      NbirthComesFirst(g, run[..|run| - 1]);
      StepPhases(g, s, run[|run| - 1]);
      StepSessions(g, s, run[|run| - 1]);
      StepBirth(g, s, run[|run| - 1]);
    }
  }
}

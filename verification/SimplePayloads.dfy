/** What the packets of the simple firmware hold: every NDATA written carries a
    stretch of the readings the device accepted. */
module SimplePayloads {
  import opened Common
  import opened SimpleDevice
  import O = Outbox
  import SB = SimpleBatch

  ghost predicate AllGood(s: State) {
    && (forall k :: 0 <= k < |s.h.wire| ==> O.GoodBody(s.h.accepted, s.h.wire[k].b))
    && (s.at.Claiming? || s.at.Writing? ==> O.GoodBody(s.h.accepted, s.at.b))
  }

  /** A step that writes nothing new and offers nothing new. */
  lemma GoodStays(s: State, s': State)
    requires AllGood(s) && s.h.accepted <= s'.h.accepted && s'.h.wire == s.h.wire
    requires s'.at.Claiming? || s'.at.Writing? ==> (s.at.Claiming? || s.at.Writing?) && s'.at.b == s.at.b
    ensures AllGood(s')
  {
    forall b | O.GoodBody(s.h.accepted, b)
      ensures O.GoodBody(s'.h.accepted, b)
    {
      if b.Data? { O.StretchKept(s.h.accepted, s'.h.accepted, b.readings); }
    }
  }

  lemma OfferIsGood(g: SB.Settings, s: State, utcMs: uint64)
    requires AllGood(s) && Conserved(g, s) && s.at.Publishing?
    ensures AllGood(Offered(g, s, utcMs))
  {
    assert O.StartsAt(s.h.accepted, s.app.buffer, |s.h.removed|);
  }

  lemma StepKeepsGood(g: SB.Settings, s: State, a: Action)
    requires AllGood(s) && Conserved(g, s) && Enabled(s, a)
    ensures AllGood(Step(g, s, a))
  {
    match a {
      case Publish(utcMs) => OfferIsGood(g, s, utcMs);
      case Write(ok, sent) =>
      case _ => GoodStays(s, Step(g, s, a));
    }
  }

  lemma {:induction false} AlwaysGoodPackets(g: SB.Settings, run: seq<Action>)
    requires SB.ValidSettings(g) && After(g, run).Some? && Harmless(g, run)
    ensures AllGood(After(g, run).value)
    decreases |run|
  {
    if run != [] {
      AlwaysGoodPackets(g, run[..|run| - 1]);
      AlwaysConserved(g, run[..|run| - 1]);
      StepKeepsGood(g, After(g, run[..|run| - 1]).value, run[|run| - 1]);
    }
  }
}

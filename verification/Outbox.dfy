/** What both firmwares are to the outside: readings are accepted at the end, and
    the oldest ones leave only together with the acknowledged NDATA that carries
    them; each session acknowledges its NBIRTH first and then NDATA numbered
    without gap. Modules DeviceOutbox and SimpleDevice refine it. */
module Outbox {
  import opened Common
  import MS = MeasurementService

  /** Readings accepted so far, how many of them have been delivered, and the
      messages acknowledged in the current session. */
  datatype Outbox = Outbox(accepted: seq<Measurement>, delivered: nat, acks: seq<MS.Body>)

  const Empty := Outbox([], 0, [])

  predicate Accepts(o: Outbox, o': Outbox) {
    && |o'.accepted| == |o.accepted| + 1
    && o'.accepted[..|o.accepted|] == o.accepted
    && o'.delivered == o.delivered
    && o'.acks == o.acks
  }

  predicate NewSession(o: Outbox, o': Outbox) {
    o' == o.(acks := [])
  }

  /** The next acknowledged message: an NBIRTH, or the next readings with the next number. */
  predicate Acknowledges(o: Outbox, o': Outbox, b: MS.Body) {
    && o'.accepted == o.accepted && o'.acks == o.acks + [b]
    && match b
       case Birth(_, _) => o.acks == [] && o'.delivered == o.delivered
       case Data(current, readings) =>
         && o.acks != [] && current == |o.acks| % 256 && readings != []
         && o'.delivered == o.delivered + |readings| <= |o.accepted|
         && readings == o.accepted[o.delivered..o'.delivered]
  }

  ghost predicate Next(o: Outbox, o': Outbox) {
    o' == o || Accepts(o, o') || NewSession(o, o') || exists b :: Acknowledges(o, o', b)
  }

  ghost predicate Run(states: seq<Outbox>) {
    states != [] && states[0] == Empty && forall i :: 0 <= i < |states| - 1 ==> Next(states[i], states[i + 1])
  }

  /** The readings are a stretch of what was accepted. */
  ghost predicate Stretch(accepted: seq<Measurement>, readings: seq<Measurement>) {
    exists from: nat :: from + |readings| <= |accepted| && StartsAt(accepted, readings, from)
  }

  ghost predicate StartsAt(accepted: seq<Measurement>, readings: seq<Measurement>, from: nat) {
    from + |readings| <= |accepted| && accepted[from..from + |readings|] == readings
  }

  /** An NDATA has readings, and they are a stretch of what was accepted. */
  ghost predicate GoodBody(accepted: seq<Measurement>, b: MS.Body) {
    b.Data? ==> b.readings != [] && Stretch(accepted, b.readings)
  }

  lemma StretchKept(accepted: seq<Measurement>, accepted': seq<Measurement>, readings: seq<Measurement>)
    requires Stretch(accepted, readings) && accepted <= accepted'
    ensures Stretch(accepted', readings)
  {
    var from: nat :| from + |readings| <= |accepted| && StartsAt(accepted, readings, from);
    assert accepted'[from..from + |readings|] == accepted[from..from + |readings|];
    assert StartsAt(accepted', readings, from);
  }

  /** A session's acknowledged messages: NBIRTH, then NDATA numbered 1, 2, ..., 255, 0, ... */
  ghost predicate Numbered(acks: seq<MS.Body>) {
    forall i :: 0 <= i < |acks| ==> if i == 0 then acks[i].Birth? else acks[i].Data? && acks[i].current == i % 256
  }

  /** The readings of a session's acknowledged messages, in order. */
  function Readings(acks: seq<MS.Body>): seq<Measurement> {
    if acks == [] then []
    else Readings(acks[..|acks| - 1]) + match acks[|acks| - 1] case Birth(_, _) => [] case Data(_, readings) => readings
  }

  /** No more is delivered than was accepted, the session is numbered, and what it
      acknowledged are the last readings delivered. */
  ghost predicate Orderly(o: Outbox) {
    && |Readings(o.acks)| <= o.delivered <= |o.accepted|
    && Numbered(o.acks)
    && Readings(o.acks) == o.accepted[o.delivered - |Readings(o.acks)|..o.delivered]
  }

  lemma AckKeepsOrder(o: Outbox, o': Outbox, b: MS.Body)
    requires Orderly(o) && Acknowledges(o, o', b)
    ensures Orderly(o')
  {
    assert o'.acks[..|o.acks|] == o.acks;
    var n := |Readings(o.acks)|;
    assert o.accepted[o.delivered - n..o'.delivered]
           == o.accepted[o.delivered - n..o.delivered] + o.accepted[o.delivered..o'.delivered];
  }

  lemma AcceptKeepsOrder(o: Outbox, o': Outbox)
    requires Orderly(o) && Accepts(o, o')
    ensures Orderly(o')
  {
    var n := |Readings(o.acks)|;
    assert o'.accepted[o.delivered - n..o.delivered] == o'.accepted[..|o.accepted|][o.delivered - n..o.delivered];
  }

  /** Over every run the outbox is orderly. */
  lemma {:induction false} RunIsOrderly(states: seq<Outbox>)
    requires Run(states)
    ensures Orderly(states[|states| - 1])
  {
    if |states| > 1 {
      var o, o' := states[|states| - 2], states[|states| - 1];
      RunIsOrderly(states[..|states| - 1]);
      assert Next(o, o');
      if Accepts(o, o') {
        AcceptKeepsOrder(o, o');
      } else if b :| Acknowledges(o, o', b) {
        AckKeepsOrder(o, o', b);
      }
    }
  }

  /** Along a run nothing accepted is changed and nothing delivered comes back. */
  lemma {:induction false} NothingComesBack(states: seq<Outbox>, i: nat)
    requires Run(states) && i < |states|
    ensures states[i].accepted <= states[|states| - 1].accepted && states[i].delivered <= states[|states| - 1].delivered
  {
    if i < |states| - 1 {
      NothingComesBack(states[..|states| - 1], i);
      assert Next(states[|states| - 2], states[|states| - 1]);
    }
  }
}

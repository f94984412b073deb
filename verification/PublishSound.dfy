/** Completions of the publish protocol, and its invariant: every step of every
    thread keeps it. */
module PublishSound {
  import opened Common
  import opened PublishProtocol
  import opened PublishBuffer
  import opened PublishPackets
  import opened PublishPacing
  import MC = MqttClient

  /** The packet of this completion has reached the broker. */
  ghost predicate Acked<T, P>(ch: Channel<T, P>, d: Done) {
    exists k :: 0 <= k < |ch.h.arrived| && AckedBy(ch, ch.h.arrived[k], d)
  }

  ghost predicate AckedBy<T, P>(ch: Channel<T, P>, k: nat, d: Done) {
    k < |ch.h.wire| && ch.h.wire[k].session == d.session && ch.h.wire[k].id == d.id && ch.h.wire[k].token == d.token
  }

  ghost predicate Open<T, P>(ch: Channel<T, P>, token: nat) {
    forall k :: 0 <= k < |ch.h.done| ==> ch.h.done[k].token != token
  }

  /** A token is completed at most once, never while it is active or waiting,
      and successfully only for a packet of its own that the broker has. */
  ghost predicate CompletedOnce<T, P>(ch: Channel<T, P>) {
    && (forall j, k :: 0 <= j < k < |ch.h.done| ==> ch.h.done[j].token != ch.h.done[k].token)
    && (forall k :: 0 <= k < |ch.h.done| ==>
       ch.h.done[k].token in ch.h.ids && (ch.h.done[k].ok ==> Acked(ch, ch.h.done[k])))
    && (ch.c.activeId != 0 ==> Open(ch, ch.c.activeToken))
  }

  lemma AckedKept<T, P>(ch: Channel<T, P>, ch': Channel<T, P>, d: Done)
    requires Acked(ch, d) && ch.h.wire <= ch'.h.wire && ch.h.arrived <= ch'.h.arrived
    ensures Acked(ch', d)
  {
    var k :| 0 <= k < |ch.h.arrived| && AckedBy(ch, ch.h.arrived[k], d);
    assert AckedBy(ch', ch'.h.arrived[k], d);
  }

  /** Steps that complete nothing and activate nothing new. */
  lemma CompletedByOthers<T, P>(ch: Channel<T, P>, ch': Channel<T, P>)
    requires CompletedOnce(ch) && ch'.h.done == ch.h.done && ch.h.wire <= ch'.h.wire && ch.h.arrived <= ch'.h.arrived
    requires forall t :: t in ch.h.ids ==> t in ch'.h.ids
    requires ch'.c.activeId != 0 ==>
             (ch'.c.activeToken == ch.c.activeToken && ch.c.activeId != 0) || ch'.c.activeToken !in ch.h.ids
    ensures CompletedOnce(ch')
  {
    forall k | 0 <= k < |ch.h.done| && ch.h.done[k].ok
      ensures Acked(ch', ch.h.done[k])
    {
      AckedKept(ch, ch', ch.h.done[k]);
    }
  }

  lemma CompletedAppend<T, P>(ch: Channel<T, P>, ch': Channel<T, P>, d: Done)
    requires CompletedOnce(ch) && ch'.h == ch.h.(done := ch.h.done + [d]) && ch'.c.activeId == 0
    requires Open(ch, d.token) && d.token in ch.h.ids && (d.ok ==> Acked(ch, d))
    ensures CompletedOnce(ch')
  {
    forall k | 0 <= k < |ch'.h.done| && ch'.h.done[k].ok
      ensures Acked(ch', ch'.h.done[k])
    {
      AckedKept(ch, ch', ch'.h.done[k]);
    }
  }

  lemma CompletedBySend<T, P>(t: MC.Timing, ch: Channel<T, P>, id: nat, ok: bool)
    requires !ch.sender.Rest? && !ch.sender.Retry? && Identified(ch) && CompletedOnce(ch)
    ensures CompletedOnce(SendStep(t, ch, id, ok))
  {
    var ch' := SendStep(t, ch, id, ok);
    if ch.sender.Written? && MC.SendFailed(ch.c, ch.sender.id, ch.sender.job, ch.sender.ok) {
      assert ch.sender.id != 0;
      CompletedAppend(ch, ch', Done(ch.sender.token, false, ch.session, ch.sender.id));
    } else {
      CompletedByOthers(ch, ch');
    }
  }

  lemma CompletedByPuback<T, P>(ch: Channel<T, P>, id: nat, ok: bool)
    requires BrokerHas(ch, id) && Identified(ch) && UniqueIds(ch) && CompletedOnce(ch)
    ensures CompletedOnce(PubackStep(ch, id, ok))
  {
    if MC.Acknowledges(ch.c, id) {
      var k :| 0 <= k < |ch.h.arrived| && ArrivedAs(ch, ch.h.arrived[k], id);
      var p := ch.h.wire[ch.h.arrived[k]];
      assert GoodPacket(ch, p) && id != 0 && p.token == ch.c.activeToken;
      var d := Done(ch.c.activeToken, ok, ch.session, id);
      assert AckedBy(ch, ch.h.arrived[k], d);
      CompletedAppend(ch, PubackStep(ch, id, ok), d);
    } else {
      CompletedByOthers(ch, PubackStep(ch, id, ok));
    }
  }

  // ---------------------------------------------------------- the invariant

  ghost predicate Sound<T, P>(t: MC.Timing, ch: Channel<T, P>) {
    OneOwner(ch) && Buffered(ch) && RetryReads(ch) && Identified(ch) && UniqueIds(ch) && Paced(t, ch)
      && CompletedOnce(ch)
  }

  lemma SoundByBegin<T, P>(t: MC.Timing, ch: Channel<T, P>, m: Message<T, P>)
    requires Sound(t, ch) && ch.caller.NoCall?
    ensures Sound(t, ch.(caller := Call(Lte, m)))
  {
    var ch' := ch.(caller := Call(Lte, m));
    IdentifiedByOthers(ch, ch');
    UniqueByOthers(ch, ch');
    CompletedByOthers(ch, ch');
  }

  lemma TracksByCaller<T, P>(t: MC.Timing, ch: Channel<T, P>, ch': Channel<T, P>)
    requires CallerEffect(ch, ch') && Identified(ch) && UniqueIds(ch) && Paced(t, ch) && CompletedOnce(ch)
    ensures UniqueIds(ch') && Paced(t, ch') && CompletedOnce(ch')
  {
    UniqueByOthers(ch, ch');
    PacedByOthers(t, ch, ch');
    CompletedByOthers(ch, ch');
  }

  lemma SoundByCaller<T, P>(t: MC.Timing, ch: Channel<T, P>, ok: bool)
    requires Sound(t, ch) && ch.caller.Call?
    ensures Sound(t, CallerStep(ch, ok))
  {
    OwnerByCaller(ch, ok);
    BufferByCaller(ch, ok);
    CallerFrame(ch, ok);
    ReadsByCaller(ch, CallerStep(ch, ok));
    IdentifiedByCaller(ch, ok);
    TracksByCaller(t, ch, CallerStep(ch, ok));
  }

  lemma SoundBySender<T, P>(t: MC.Timing, ch: Channel<T, P>, id: nat, ok: bool)
    requires Sound(t, ch) && t.timeout <= t.maxDelay && !ch.sender.Rest? && !ch.sender.Retry?
    requires (ch.sender.Lock? ==> FreshId(ch, id))
    ensures Sound(t, SendStep(t, ch, id, ok))
  {
    OwnerBySend(t, ch, id, ok);
    if ch.sender.Lock? { BufferByLock(t, ch, id, ok); } else { BufferBySend(t, ch, id, ok); }
    ReadsBySender(t, ch, id, ok);
    IdentifiedBySend(t, ch, id, ok);
    UniqueBySend(t, ch, id, ok);
    if ch.sender.Start? { PacedByStart(t, ch, id, ok); } else { PacedBySend(t, ch, id, ok); }
    CompletedBySend(t, ch, id, ok);
  }

  lemma SoundByRetry<T, P>(t: MC.Timing, ch: Channel<T, P>)
    requires Sound(t, ch) && t.timeout <= t.maxDelay && ch.sender.Retry?
    ensures Sound(t, RetryStep(t, ch))
  {
    OwnerByRetry(t, ch);
    BufferByRetry(t, ch);
    ReadsBySender(t, ch, 0, true);
    IdentifiedByRetry(t, ch);
    UniqueByRetry(t, ch);
    PacedByRetry(t, ch);
    CompletedByOthers(ch, RetryStep(t, ch));
  }

  lemma SoundByJob<T, P>(t: MC.Timing, ch: Channel<T, P>)
    requires Sound(t, ch) && ch.sender.Rest? && ch.c.publishWork
    ensures Sound(t, StartJob(ch))
  {
    var ch' := StartJob(ch);
    OwnerByOthers(ch, ch, 0, true);
    BufferByStart(ch);
    IdentifiedByOthers(ch, ch');
    UniqueByOthers(ch, ch');
    PacedByOthers(t, ch, ch');
    CompletedByOthers(ch, ch');
  }

  lemma SoundByTimer<T, P>(t: MC.Timing, ch: Channel<T, P>)
    requires Sound(t, ch) && ch.sender.Rest? && ch.c.timer.Some?
    ensures Sound(t, StartRetry(ch))
  {
    var ch' := StartRetry(ch);
    OwnerByOthers(ch, ch, 0, true);
    BufferByStart(ch);
    IdentifiedByOthers(ch, ch');
    UniqueByOthers(ch, ch');
    PacedByStartRetry(t, ch);
    CompletedByOthers(ch, ch');
  }

  lemma SoundByPuback<T, P>(t: MC.Timing, ch: Channel<T, P>, id: nat, ok: bool)
    requires Sound(t, ch) && BrokerHas(ch, id)
    ensures Sound(t, PubackStep(ch, id, ok))
  {
    var ch' := PubackStep(ch, id, ok);
    OwnerByOthers(ch, ch, id, ok);
    BufferByOthers(ch, ch, id, ok);
    ReadsByOthers(ch, ch, id, ok);
    IdentifiedByOthers(ch, ch');
    UniqueByOthers(ch, ch');
    PacedByOthers(t, ch, ch');
    CompletedByPuback(ch, id, ok);
  }

  lemma SoundByOutside<T, P>(t: MC.Timing, ch: Channel<T, P>, ch': Channel<T, P>)
    requires Sound(t, ch) && Outside(ch, ch')
    ensures Sound(t, ch')
  {
    OwnerByOthers(ch, ch', 0, true);
    BufferByOthers(ch, ch', 0, true);
    ReadsByOthers(ch, ch', 0, true);
    IdentifiedByOthers(ch, ch');
    UniqueByOthers(ch, ch');
    PacedByOthers(t, ch, ch');
    CompletedByOthers(ch, ch');
  }

  /** Taking the callback's pending post, and packets arriving at the broker. */
  lemma SoundByPost<T, P>(t: MC.Timing, ch: Channel<T, P>, ch': Channel<T, P>)
    requires Sound(t, ch) && ch' == ch.(posting := ch'.posting, h := ch.h.(arrived := ch'.h.arrived))
    requires ch.h.arrived <= ch'.h.arrived
    ensures Sound(t, ch')
  {
    IdentifiedByOthers(ch, ch');
    UniqueByOthers(ch, ch');
    PacedByOthers(t, ch, ch');
    CompletedByOthers(ch, ch');
  }
}

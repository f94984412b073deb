/** The packets of the publish protocol: each carries its token's message under
    its token's identifier, which no other token has in the session. */
module PublishPackets {
  import opened PublishProtocol
  import opened PublishBuffer
  import MC = MqttClient

  /** Every packet carries the message and the one identifier of its token. */
  ghost predicate Identified<T, P>(ch: Channel<T, P>) {
    && (forall k :: 0 <= k < |ch.h.wire| ==> GoodPacket(ch, ch.h.wire[k]))
    && (forall t :: t in ch.h.ids ==> t in ch.h.submitted && ch.h.ids[t] != 0)
    && (JobWaits(ch) ==> ch.c.publishToken !in ch.h.ids)
    && (ch.c.activeId != 0 ==> HasId(ch, ch.c.activeToken, ch.c.activeId))
    && (WritingOut(ch) ==>
          && HasId(ch, ch.sender.token, ch.sender.id)
          && (ch.c.activeId != 0 ==> ch.c.activeToken == ch.sender.token && ch.c.activeGeneration == ch.sender.job))
    && (RetryId(ch) != 0 ==> HasId(ch, ch.c.activeToken, RetryId(ch)))
  }

  ghost predicate GoodPacket<T, P>(ch: Channel<T, P>, p: Packet<T, P>) {
    p.session <= ch.session && HasId(ch, p.token, p.id) && p.token in ch.h.submitted && p.m == ch.h.submitted[p.token]
  }

  ghost predicate HasId<T, P>(ch: Channel<T, P>, token: nat, id: nat) {
    token in ch.h.ids && ch.h.ids[token] == id
  }

  lemma IdentifiedByCaller<T, P>(ch: Channel<T, P>, ok: bool)
    requires ch.caller.Call? && OneOwner(ch) && Buffered(ch) && Identified(ch)
    ensures Identified(CallerStep(ch, ok))
  {
    var ch' := CallerStep(ch, ok);
    CallerFrame(ch, ok);
    assert ch.c.nextToken + 1 !in ch.h.submitted;
    match ch.caller.at {
      case Submit => assert JobWaits(ch);
      case Token =>
      case _ => assert ch'.h.submitted == ch.h.submitted && (JobWaits(ch') <==> JobWaits(ch));
    }
    IdentifiedByCallerEffect(ch, ch');
  }

  lemma IdentifiedByCallerEffect<T, P>(ch: Channel<T, P>, ch': Channel<T, P>)
    requires CallerEffect(ch, ch') && Identified(ch) && (JobWaits(ch') ==> ch'.c.publishToken !in ch.h.ids)
    requires forall t :: t in ch.h.submitted ==> t in ch'.h.submitted && ch'.h.submitted[t] == ch.h.submitted[t]
    ensures Identified(ch')
  {
    forall k | 0 <= k < |ch'.h.wire|
      ensures GoodPacket(ch', ch'.h.wire[k])
    {
      assert GoodPacket(ch, ch.h.wire[k]);
    }
  }

  lemma IdentifiedByLock<T, P>(t: MC.Timing, ch: Channel<T, P>, id: nat, ok: bool)
    requires ch.sender.Lock? && OneOwner(ch) && Buffered(ch) && Identified(ch) && id != 0
    ensures Identified(SendStep(t, ch, id, ok))
  {
    var ch' := SendStep(t, ch, id, ok);
    forall k | 0 <= k < |ch'.h.wire|
      ensures GoodPacket(ch', ch'.h.wire[k])
    {
      assert GoodPacket(ch, ch.h.wire[k]);
    }
  }

  lemma IdentifiedByWrite<T, P>(t: MC.Timing, ch: Channel<T, P>, id: nat, ok: bool)
    requires ch.sender.Start? && OneOwner(ch) && Buffered(ch) && Identified(ch)
    ensures Identified(SendStep(t, ch, id, ok))
  {
    var ch' := SendStep(t, ch, id, ok);
    forall k | 0 <= k < |ch'.h.wire|
      ensures GoodPacket(ch', ch'.h.wire[k])
    {
      if k < |ch.h.wire| { assert GoodPacket(ch, ch.h.wire[k]); }
    }
  }

  lemma IdentifiedBySend<T, P>(t: MC.Timing, ch: Channel<T, P>, id: nat, ok: bool)
    requires !ch.sender.Rest? && !ch.sender.Retry? && OneOwner(ch) && Buffered(ch) && Identified(ch)
    requires ch.sender.Lock? ==> id != 0
    ensures Identified(SendStep(t, ch, id, ok))
  {
    if ch.sender.Lock? { IdentifiedByLock(t, ch, id, ok); }
    else if ch.sender.Start? { IdentifiedByWrite(t, ch, id, ok); }
    else { RestKeepsIds(t, ch, id, ok); IdentifiedByOthers(ch, SendStep(t, ch, id, ok)); }
  }

  /** What the sender leaves alone after the packet has been read. */
  lemma RestKeepsIds<T, P>(t: MC.Timing, ch: Channel<T, P>, id: nat, ok: bool)
    requires !ch.sender.Rest? && !ch.sender.Retry? && !ch.sender.Lock? && !ch.sender.Start?
    ensures var ch' := SendStep(t, ch, id, ok);
            && ch'.h.wire == ch.h.wire && ch'.h.ids == ch.h.ids && ch'.h.submitted == ch.h.submitted
            && ch'.session == ch.session
            && (JobWaits(ch') ==> JobWaits(ch) && ch'.c.publishToken == ch.c.publishToken)
            && ch'.c.activeToken == ch.c.activeToken && ch'.c.activeGeneration == ch.c.activeGeneration
            && (ch'.c.activeId == ch.c.activeId || ch'.c.activeId == 0) && !ch'.sender.Retry? && !ch'.sender.Start?
            && (WritingOut(ch') ==>
                  && WritingOut(ch) && ch'.sender.token == ch.sender.token
                  && ch'.sender.id == ch.sender.id && ch'.sender.job == ch.sender.job)
  {
    match ch.sender {
      case Stale => case Writing(_, _, _) => case Written(_, _, _, _) => case Failing(_) => case Finish =>
    }
  }

  lemma IdentifiedByRetry<T, P>(t: MC.Timing, ch: Channel<T, P>)
    requires ch.sender.Retry? && RetryReads(ch) && Identified(ch)
    ensures Identified(RetryStep(t, ch))
  {
    var ch' := RetryStep(t, ch);
    forall k | 0 <= k < |ch'.h.wire|
      ensures GoodPacket(ch', ch'.h.wire[k])
    {
      assert GoodPacket(ch, ch.h.wire[k]);
    }
  }

  lemma IdentifiedByOthers<T, P>(ch: Channel<T, P>, ch': Channel<T, P>)
    requires Identified(ch) && ch'.h.wire == ch.h.wire && ch'.h.ids == ch.h.ids && ch'.h.submitted == ch.h.submitted
    requires ch'.session >= ch.session && (JobWaits(ch') ==> JobWaits(ch) && ch'.c.publishToken == ch.c.publishToken)
    requires ch'.c.activeToken == ch.c.activeToken && ch'.c.activeGeneration == ch.c.activeGeneration
    requires ch'.c.activeId == ch.c.activeId || ch'.c.activeId == 0
    requires WritingOut(ch') ==>
               && WritingOut(ch) && ch'.sender.token == ch.sender.token
               && ch'.sender.id == ch.sender.id && ch'.sender.job == ch.sender.job
    requires RetryId(ch') != 0 ==> ch'.sender == ch.sender
    ensures Identified(ch')
  {
    forall k | 0 <= k < |ch'.h.wire|
      ensures GoodPacket(ch', ch'.h.wire[k])
    {
      assert GoodPacket(ch, ch.h.wire[k]);
    }
  }

  /** Within a session an identifier belongs to one token. */
  ghost predicate Claimed<T, P>(ch: Channel<T, P>, id: nat, token: nat) {
    forall k :: 0 <= k < |ch.h.wire| && ch.h.wire[k].session == ch.session && ch.h.wire[k].id == id ==>
      ch.h.wire[k].token == token
  }

  predicate SameId<T, P>(p: Packet<T, P>, q: Packet<T, P>) {
    p.session == q.session && p.id == q.id
  }

  ghost predicate UniqueIds<T, P>(ch: Channel<T, P>) {
    && (forall j, k :: 0 <= j < k < |ch.h.wire| && SameId(ch.h.wire[j], ch.h.wire[k]) ==>
       ch.h.wire[j].token == ch.h.wire[k].token)
    && (ch.c.activeId != 0 ==> Claimed(ch, ch.c.activeId, ch.c.activeToken))
    && (ch.sender.Start? ==> Claimed(ch, ch.sender.id, ch.sender.token))
    && (RetryId(ch) != 0 ==> Claimed(ch, RetryId(ch), ch.c.activeToken))
  }

  lemma UniqueByLock<T, P>(t: MC.Timing, ch: Channel<T, P>, id: nat, ok: bool)
    requires ch.sender.Lock? && UniqueIds(ch) && FreshId(ch, id)
    ensures UniqueIds(SendStep(t, ch, id, ok))
  {
    assert Claimed(ch, id, ch.c.publishToken);
  }

  lemma ClaimKept<T, P>(ch: Channel<T, P>, ch': Channel<T, P>, id: nat, token: nat)
    requires Claimed(ch, id, token) && ch'.session == ch.session && |ch'.h.wire| == |ch.h.wire| + 1
    requires ch.h.wire <= ch'.h.wire && (ch'.h.wire[|ch.h.wire|].id == id ==> ch'.h.wire[|ch.h.wire|].token == token)
    ensures Claimed(ch', id, token)
  {
  }

  lemma UniqueByWrite<T, P>(t: MC.Timing, ch: Channel<T, P>, id: nat, ok: bool)
    requires ch.sender.Start? && Identified(ch) && UniqueIds(ch)
    ensures UniqueIds(SendStep(t, ch, id, ok))
  {
    var ch' := SendStep(t, ch, id, ok);
    if ch.c.activeId != 0 {
      ClaimKept(ch, ch', ch.c.activeId, ch.c.activeToken);
    }
  }

  lemma UniqueBySend<T, P>(t: MC.Timing, ch: Channel<T, P>, id: nat, ok: bool)
    requires !ch.sender.Rest? && !ch.sender.Retry? && Identified(ch) && UniqueIds(ch)
    requires ch.sender.Lock? ==> FreshId(ch, id)
    ensures UniqueIds(SendStep(t, ch, id, ok))
  {
    match ch.sender {
      case Lock(_) => UniqueByLock(t, ch, id, ok);
      case Start(_, _, _, _) => UniqueByWrite(t, ch, id, ok);
      case Stale => UniqueByOthers(ch, SendStep(t, ch, id, ok));
      case Writing(_, _, _) => UniqueByOthers(ch, SendStep(t, ch, id, ok));
      case Written(_, _, _, _) => UniqueByOthers(ch, SendStep(t, ch, id, ok));
      case Failing(_) => UniqueByOthers(ch, SendStep(t, ch, id, ok));
      case Finish => UniqueByOthers(ch, SendStep(t, ch, id, ok));
    }
  }

  lemma UniqueByRetry<T, P>(t: MC.Timing, ch: Channel<T, P>)
    requires ch.sender.Retry? && RetryReads(ch) && UniqueIds(ch)
    ensures UniqueIds(RetryStep(t, ch))
  {
  }

  lemma UniqueByOthers<T, P>(ch: Channel<T, P>, ch': Channel<T, P>)
    requires Identified(ch) && UniqueIds(ch) && ch'.h.wire == ch.h.wire && ch'.session >= ch.session
    requires ch'.c.activeToken == ch.c.activeToken && (ch'.c.activeId == ch.c.activeId || ch'.c.activeId == 0)
    requires (ch'.sender.Start? ==> ch'.sender == ch.sender) && (RetryId(ch') != 0 ==> ch'.sender == ch.sender)
    ensures UniqueIds(ch')
  {
    if ch'.session > ch.session {
      forall k | 0 <= k < |ch.h.wire|
        ensures ch.h.wire[k].session < ch'.session
      {
        assert GoodPacket(ch, ch.h.wire[k]);
      }
    }
  }
}

/** Who owns the payload buffer of the publish protocol, and what it holds. */
module PublishBuffer {
  import opened PublishProtocol
  import MC = MqttClient

  predicate CallerOwns<T, P>(ch: Channel<T, P>) {
    ch.caller.Call? && !ch.caller.at.Lte? && !ch.caller.at.Helper? && !ch.caller.at.Cas?
  }

  predicate SenderOwns<T, P>(ch: Channel<T, P>) {
    !ch.sender.Rest? && !(ch.sender.Retry? && ch.sender.at.Own?)
  }

  /** publish_pending is a lock: held by the caller, a queued job or the sender, never by two of them. */
  ghost predicate OneOwner<T, P>(ch: Channel<T, P>) {
    && (ch.c.publishPending <==> CallerOwns(ch) || ch.c.publishWork || SenderOwns(ch))
    && !(CallerOwns(ch) && ch.c.publishWork)
    && !(CallerOwns(ch) && SenderOwns(ch))
    && !(ch.c.publishWork && SenderOwns(ch))
  }

  // -------------------------------------------------- what the buffer holds

  predicate Overwriting<T, P>(ch: Channel<T, P>) {
    && ch.caller.Call?
    && (|| ch.caller.at.Payload? || ch.caller.at.Topic? || ch.caller.at.Generation?
        || ch.caller.at.Token? || ch.caller.at.Submit?)
  }

  /** A submitted job that has not been started. */
  predicate JobWaits<T, P>(ch: Channel<T, P>) {
    ch.c.publishWork || ch.sender.Lock? || (ch.caller.Call? && ch.caller.at.Submit?)
  }

  predicate WritingOut<T, P>(ch: Channel<T, P>) {
    ch.sender.Start? || ch.sender.Writing? || ch.sender.Written?
  }

  /** The buffer is what was handed over under this token. */
  ghost predicate BufferIs<T, P>(ch: Channel<T, P>, token: nat) {
    token in ch.h.submitted && Message(ch.c.topic, ch.c.payload) == ch.h.submitted[token]
  }

  /** The identifier the retransmission has read, or 0. */
  function RetryId<T, P>(ch: Channel<T, P>): nat {
    if ch.sender.Retry? && !ch.sender.at.Own? && !ch.sender.at.Id? then ch.sender.id else 0
  }

  /** The buffer is overwritten only while nothing is active, and holds the
      message of the job, of the active publish and of the running write. */
  ghost predicate Buffered<T, P>(ch: Channel<T, P>) {
    && (Overwriting(ch) || ch.c.publishWork || ch.sender.Lock? ==> ch.c.activeId == 0)
    && (ch.caller.Call? && ch.caller.at.Topic? ==> ch.c.payload == ch.caller.m.payload)
    && (ch.caller.Call? && (ch.caller.at.Generation? || ch.caller.at.Token? || ch.caller.at.Submit?) ==>
          Message(ch.c.topic, ch.c.payload) == ch.caller.m)
    && (JobWaits(ch) ==> BufferIs(ch, ch.c.publishToken))
    && (ch.c.activeId != 0 ==> BufferIs(ch, ch.c.activeToken))
    && (WritingOut(ch) ==> BufferIs(ch, ch.sender.token))
    && (RetryId(ch) != 0 ==> BufferIs(ch, ch.c.activeToken))
    && (forall t :: t in ch.h.submitted ==> 0 < t <= ch.c.nextToken)
  }

  /** What the retransmission has read is the active publish it started from. */
  ghost predicate RetryReads<T, P>(ch: Channel<T, P>) {
    ch.sender.Retry? ==>
      && (ch.sender.at.Stamp? || ch.sender.at.LteUp? || ch.sender.at.HelperUp? || ch.sender.at.Check? ==>
            ch.sender.job == ch.c.activeGeneration)
      && (ch.sender.at.LteUp? || ch.sender.at.HelperUp? || ch.sender.at.Check? ==> ch.sender.token == ch.c.activeToken)
      && (ch.sender.at.HelperUp? || ch.sender.at.Check? ==> ch.sender.id != 0)
      && (RetryId(ch) != 0 && ch.c.activeId != 0 ==> ch.sender.id == ch.c.activeId)
  }

  /** What the caller leaves alone. */
  ghost predicate CallerEffect<T, P>(ch: Channel<T, P>, ch': Channel<T, P>) {
    && ch'.sender == ch.sender && ch'.posting == ch.posting && ch'.session == ch.session
    && ch'.h.ids == ch.h.ids && ch'.h.wire == ch.h.wire && ch'.h.arrived == ch.h.arrived && ch'.h.done == ch.h.done
    && ch'.c.generation == ch.c.generation && ch'.c.lte == ch.c.lte && ch'.c.connected == ch.c.connected
    && ch'.c.activeId == ch.c.activeId && ch'.c.activeGeneration == ch.c.activeGeneration
    && ch'.c.activeToken == ch.c.activeToken && ch'.c.delay == ch.c.delay && ch'.c.timer == ch.c.timer
  }

  lemma CallerFrame<T, P>(ch: Channel<T, P>, ok: bool)
    requires ch.caller.Call?
    ensures CallerEffect(ch, CallerStep(ch, ok))
  {
    match ch.caller.at {
      case Lte => case Helper => case Cas => case Active => case Release =>
      case Payload => case Topic => case Generation => case Token => case Submit =>
    }
  }

  lemma OwnerByCaller<T, P>(ch: Channel<T, P>, ok: bool)
    requires ch.caller.Call? && OneOwner(ch)
    ensures OneOwner(CallerStep(ch, ok))
  {
  }

  lemma OwnerBySend<T, P>(t: MC.Timing, ch: Channel<T, P>, id: nat, ok: bool)
    requires !ch.sender.Rest? && !ch.sender.Retry? && OneOwner(ch)
    ensures OneOwner(SendStep(t, ch, id, ok))
  {
    match ch.sender {
      case Lock(_) => case Stale => case Start(_, _, _, _) => case Writing(_, _, _) => case Written(_, _, _, _) =>
      case Failing(_) => case Finish =>
    }
  }

  lemma OwnerByRetry<T, P>(t: MC.Timing, ch: Channel<T, P>)
    requires ch.sender.Retry? && OneOwner(ch)
    ensures OneOwner(RetryStep(t, ch))
  {
  }

  lemma OwnerByOthers<T, P>(ch: Channel<T, P>, ch': Channel<T, P>, id: nat, ok: bool)
    requires OneOwner(ch)
    ensures ch.sender.Rest? && ch.c.publishWork ==> OneOwner(StartJob(ch))
    ensures ch.sender.Rest? ==> OneOwner(StartRetry(ch))
    ensures OneOwner(PubackStep(ch, id, ok))
    ensures Outside(ch, ch') ==> OneOwner(ch')
  {
  }

  lemma BufferByCaller<T, P>(ch: Channel<T, P>, ok: bool)
    requires ch.caller.Call? && OneOwner(ch) && Buffered(ch)
    ensures Buffered(CallerStep(ch, ok))
  {
    match ch.caller.at {
      case Lte => case Helper => case Cas => case Active => case Release =>
      case Payload => case Topic => case Generation => case Token => case Submit =>
    }
  }

  /** The message in the buffer is still needed. */
  predicate InUse<T, P>(ch: Channel<T, P>) {
    ch.c.activeId != 0 || WritingOut(ch) || RetryId(ch) != 0 || ch.c.publishWork || ch.sender.Lock?
  }

  ghost predicate SameBuffer<T, P>(ch: Channel<T, P>, ch': Channel<T, P>) {
    ch'.c.payload == ch.c.payload && ch'.c.topic == ch.c.topic
  }

  lemma CallerSparesBuffer<T, P>(ch: Channel<T, P>, ok: bool)
    requires ch.caller.Call? && OneOwner(ch) && Buffered(ch) && InUse(ch)
    ensures SameBuffer(ch, CallerStep(ch, ok))
  {
    match ch.caller.at {
      case Lte => case Helper => case Cas => case Active => case Release =>
      case Payload => case Topic => case Generation => case Token => case Submit =>
    }
  }

  lemma SenderSparesBuffer<T, P>(t: MC.Timing, ch: Channel<T, P>, id: nat, ok: bool)
    ensures ch.sender.Retry? ==> SameBuffer(ch, RetryStep(t, ch))
    ensures !ch.sender.Rest? && !ch.sender.Retry? ==> SameBuffer(ch, SendStep(t, ch, id, ok))
  {
    match ch.sender {
      case Retry(_, _, _, _) => case Rest => case Lock(_) => case Stale => case Start(_, _, _, _) =>
      case Writing(_, _, _) => case Written(_, _, _, _) => case Failing(_) => case Finish =>
    }
  }

  lemma BufferByLock<T, P>(t: MC.Timing, ch: Channel<T, P>, id: nat, ok: bool)
    requires ch.sender.Lock? && OneOwner(ch) && Buffered(ch)
    ensures Buffered(SendStep(t, ch, id, ok))
  {
  }

  lemma BufferBySend<T, P>(t: MC.Timing, ch: Channel<T, P>, id: nat, ok: bool)
    requires !ch.sender.Rest? && !ch.sender.Retry? && !ch.sender.Lock? && OneOwner(ch) && Buffered(ch)
    ensures Buffered(SendStep(t, ch, id, ok))
  {
    match ch.sender {
      case Stale => case Start(_, _, _, _) => case Writing(_, _, _) => case Written(_, _, _, _) => case Failing(_) =>
      case Finish =>
    }
  }

  lemma BufferByRetry<T, P>(t: MC.Timing, ch: Channel<T, P>)
    requires ch.sender.Retry? && OneOwner(ch) && Buffered(ch) && RetryReads(ch)
    ensures Buffered(RetryStep(t, ch))
  {
    match ch.sender.at {
      case Own => case Id => case Job => case Stamp => case LteUp => case HelperUp => case Check =>
    }
  }

  lemma BufferByStart<T, P>(ch: Channel<T, P>)
    requires ch.sender.Rest? && OneOwner(ch) && Buffered(ch)
    ensures ch.c.publishWork ==> Buffered(StartJob(ch))
    ensures Buffered(StartRetry(ch))
  {
  }

  lemma BufferByOthers<T, P>(ch: Channel<T, P>, ch': Channel<T, P>, id: nat, ok: bool)
    requires OneOwner(ch) && Buffered(ch)
    ensures Buffered(PubackStep(ch, id, ok))
    ensures Outside(ch, ch') ==> Buffered(ch')
  {
  }

  lemma ReadsBySender<T, P>(t: MC.Timing, ch: Channel<T, P>, id: nat, ok: bool)
    requires OneOwner(ch) && RetryReads(ch)
    ensures ch.sender.Retry? ==> RetryReads(RetryStep(t, ch))
    ensures !ch.sender.Rest? && !ch.sender.Retry? ==> RetryReads(SendStep(t, ch, id, ok))
  {
  }

  lemma ReadsByCaller<T, P>(ch: Channel<T, P>, ch': Channel<T, P>)
    requires RetryReads(ch) && CallerEffect(ch, ch')
    ensures RetryReads(ch')
  {
  }

  lemma ReadsByOthers<T, P>(ch: Channel<T, P>, ch': Channel<T, P>, id: nat, ok: bool)
    requires RetryReads(ch)
    ensures RetryReads(PubackStep(ch, id, ok))
    ensures Outside(ch, ch') ==> RetryReads(ch')
  {
  }
}

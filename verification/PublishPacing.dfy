/** Resends of the publish protocol have DUP, and the waits between them double. */
module PublishPacing {
  import opened Common
  import opened PublishProtocol
  import opened PublishBuffer
  import opened PublishPackets
  import MC = MqttClient

  /** How many packets carry the token. */
  function Count<T, P>(wire: seq<Packet<T, P>>, token: nat): nat {
    if wire == [] then 0
    else Count(wire[..|wire| - 1], token) + if wire[|wire| - 1].token == token then 1 else 0
  }

  /** The wait after the (k+1)-th write: min(timeout * 2^k, max). */
  function Wait(t: MC.Timing, k: nat): nat {
    Min(t.timeout * Pow2(k), t.maxDelay)
  }

  lemma WaitDoubles(t: MC.Timing, k: nat)
    requires t.timeout <= t.maxDelay
    ensures Wait(t, 0) == t.timeout && Wait(t, k + 1) == MC.Lengthened(t, Wait(t, k))
  {
    assert Pow2(0) == 1;
    assert t.timeout * Pow2(k + 1) == 2 * (t.timeout * Pow2(k));
  }

  ghost predicate DupOk<T, P>(wire: seq<Packet<T, P>>, k: nat)
    requires k < |wire|
  {
    wire[k].dup <==> Count(wire[..k], wire[k].token) > 0
  }

  /** The first write of a message has no DUP, every later one has; after its
      n-th write the message waits Wait(n - 1); a timer belongs to the active
      publish of this generation. */
  ghost predicate Paced<T, P>(t: MC.Timing, ch: Channel<T, P>) {
    && (forall k :: 0 <= k < |ch.h.wire| ==> DupOk(ch.h.wire, k))
    && (ch.sender.Start? ==>
          && (ch.sender.dup <==> Count(ch.h.wire, ch.sender.token) > 0)
          && ch.c.delay == Wait(t, Count(ch.h.wire, ch.sender.token)))
    && (ch.sender.Writing? || ch.sender.Written? ==> PacedFor(t, ch, ch.sender.token))
    && (ch.c.timer.Some? ==>
          && ch.c.activeId != 0 && ch.c.activeGeneration == ch.c.generation
          && ch.c.timer.value == ch.c.delay && PacedFor(t, ch, ch.c.activeToken))
    && (WritingOut(ch) || ch.sender.Retry? ==> ch.c.timer == None)
    && (ch.sender.Retry? && (ch.c.activeId != 0 || RetryId(ch) != 0) ==> PacedFor(t, ch, ch.c.activeToken))
  }

  ghost predicate PacedFor<T, P>(t: MC.Timing, ch: Channel<T, P>, token: nat) {
    var n := Count(ch.h.wire, token);
    n > 0 && ch.c.delay == Wait(t, n - 1)
  }

  lemma TimerPaced<T, P>(t: MC.Timing, ch: Channel<T, P>)
    requires Paced(t, ch) && ch.c.timer.Some?
    ensures ch.c.activeId != 0 && ch.c.activeGeneration == ch.c.generation
    ensures var n := Count(ch.h.wire, ch.c.activeToken);
            n > 0 && ch.c.timer.value == Min(t.timeout * Pow2(n - 1), t.maxDelay)
  {
    assert PacedFor(t, ch, ch.c.activeToken);
  }

  lemma {:induction false} CountNone<T, P>(wire: seq<Packet<T, P>>, token: nat)
    requires forall k :: 0 <= k < |wire| ==> wire[k].token != token
    ensures Count(wire, token) == 0
  {
    if wire != [] { CountNone(wire[..|wire| - 1], token); }
  }

  lemma {:induction false} CountSome<T, P>(wire: seq<Packet<T, P>>, k: nat)
    requires k < |wire|
    ensures Count(wire, wire[k].token) > 0
  {
    if k < |wire| - 1 { CountSome(wire[..|wire| - 1], k); }
  }

  lemma CountAppend<T, P>(wire: seq<Packet<T, P>>, p: Packet<T, P>, token: nat)
    ensures Count(wire + [p], token) == Count(wire, token) + if p.token == token then 1 else 0
  {
    assert (wire + [p])[..|wire|] == wire;
  }

  lemma DupAppend<T, P>(wire: seq<Packet<T, P>>, p: Packet<T, P>)
    requires forall k :: 0 <= k < |wire| ==> DupOk(wire, k)
    requires p.dup <==> Count(wire, p.token) > 0
    ensures forall k :: 0 <= k < |wire + [p]| ==> DupOk(wire + [p], k)
    ensures Count(wire + [p], p.token) == Count(wire, p.token) + 1
  {
    CountAppend(wire, p, p.token);
    var wire' := wire + [p];
    forall k | 0 <= k < |wire'|
      ensures DupOk(wire', k)
    {
      assert wire'[..k] == wire[..k];
      if k < |wire| {
        assert DupOk(wire, k);
      } else {
        assert wire[..k] == wire;
      }
    }
  }

  lemma PacedByStart<T, P>(t: MC.Timing, ch: Channel<T, P>, id: nat, ok: bool)
    requires ch.sender.Start? && Paced(t, ch)
    ensures Paced(t, SendStep(t, ch, id, ok))
  {
    var m := Message(ch.c.topic, ch.c.payload);
    DupAppend(ch.h.wire, Packet(ch.session, ch.sender.id, ch.sender.token, m, ch.sender.dup));
  }

  lemma PacedByLock<T, P>(t: MC.Timing, ch: Channel<T, P>, id: nat, ok: bool)
    requires t.timeout <= t.maxDelay && ch.sender.Lock? && Buffered(ch) && Identified(ch) && Paced(t, ch)
    ensures Paced(t, SendStep(t, ch, id, ok))
  {
    forall k | 0 <= k < |ch.h.wire|
      ensures ch.h.wire[k].token != ch.c.publishToken
    {
      assert GoodPacket(ch, ch.h.wire[k]);
    }
    CountNone(ch.h.wire, ch.c.publishToken);
    WaitDoubles(t, 0);
  }

  lemma PacedByWritten<T, P>(t: MC.Timing, ch: Channel<T, P>, id: nat, ok: bool)
    requires ch.sender.Written? && Identified(ch) && Paced(t, ch)
    ensures Paced(t, SendStep(t, ch, id, ok))
  {
  }

  lemma PacedBySend<T, P>(t: MC.Timing, ch: Channel<T, P>, id: nat, ok: bool)
    requires t.timeout <= t.maxDelay
    requires !ch.sender.Rest? && !ch.sender.Retry? && !ch.sender.Start? && OneOwner(ch) && Buffered(ch)
    requires Identified(ch) && Paced(t, ch)
    ensures Paced(t, SendStep(t, ch, id, ok))
  {
    match ch.sender {
      case Lock(_) => PacedByLock(t, ch, id, ok);
      case Written(_, _, _, _) => PacedByWritten(t, ch, id, ok);
      case Stale => case Writing(_, _, _) => case Failing(_) => case Finish =>
    }
  }

  lemma PacedByRetry<T, P>(t: MC.Timing, ch: Channel<T, P>)
    requires t.timeout <= t.maxDelay && ch.sender.Retry? && RetryReads(ch) && Paced(t, ch)
    ensures Paced(t, RetryStep(t, ch))
  {
    if ch.sender.at.Check? && ch.sender.job == ch.c.generation {
      var n := Count(ch.h.wire, ch.c.activeToken);
      WaitDoubles(t, n - 1);
    }
  }

  lemma PacedByStartRetry<T, P>(t: MC.Timing, ch: Channel<T, P>)
    requires ch.sender.Rest? && ch.c.timer.Some? && Paced(t, ch)
    ensures Paced(t, StartRetry(ch))
  {
  }

  lemma PacedByOthers<T, P>(t: MC.Timing, ch: Channel<T, P>, ch': Channel<T, P>)
    requires Paced(t, ch) && ch'.h.wire == ch.h.wire && ch'.c.activeToken == ch.c.activeToken
    requires ch'.c.delay == ch.c.delay && ch'.c.activeGeneration == ch.c.activeGeneration
    requires (ch'.c.generation == ch.c.generation && ch'.c.activeId == ch.c.activeId && ch'.c.timer == ch.c.timer)
             || (ch'.c.activeId == 0 && ch'.c.timer == None)
    requires ch'.sender == ch.sender || ch'.sender.Lock?
    ensures Paced(t, ch')
  {
  }
}

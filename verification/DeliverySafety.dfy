/** What the acknowledgements of the ingest service mean, over every run. */
module DeliverySafety {
  import opened Delivery

  datatype Entry = Entry(index: nat, mid: nat)

  /** The item the writer holds, if it belongs to the current connection. */
  function WriterEntry<M, R, K>(s: State<M, R, K>): seq<Entry> {
    if HoldsItem(s.writer) && s.writer.item.connection == s.connection
    then [Entry(s.writer.item.index, s.writer.item.mid)] else []
  }

  function NetEntry<M, R, K>(s: State<M, R, K>): seq<Entry> {
    match s.net
    case Reading(index, mid) => [Entry(index, mid)]
    case Putting(item) => [Entry(item.index, item.mid)]
    case _ => []
  }

  function QueueEntries(queue: seq<Item>): (r: seq<Entry>)
    ensures |r| == |queue|
  {
    seq(|queue|, i requires 0 <= i < |queue| => Entry(queue[i].index, queue[i].mid))
  }

  /** The deliveries of this connection that are not acknowledged yet, oldest first. */
  function Pending<M, R, K>(s: State<M, R, K>): seq<Entry> {
    if s.net.Draining? then [] else WriterEntry(s) + QueueEntries(s.queue) + NetEntry(s)
  }

  /** Nothing more has to be done for message i: its rows were applied, or it
      has none, or it was rejected, by the parser or by the database. */
  ghost predicate Handled<M, R, K>(c: Config<M, R, K>, s: State<M, R, K>, i: nat) {
    i < |s.msgs| &&
    match c.parse(s.msgs[i])
    case Rejected => true
    case Crashes => false
    case Lines(rows) => rows == [] || c.refused(rows) || i in s.history
  }

  /** Connections are numbered, and between draining and reconnecting nothing of the old one is left. */
  ghost predicate Connections<M, R, K>(s: State<M, R, K>) {
    && (s.up ==> !s.lost && !s.net.Draining?)
    && (!s.up ==> s.acks == [])
    && (s.net.Putting? ==> s.net.item.connection == s.connection)
    && (!s.net.Draining? ==> forall i :: 0 <= i < |s.queue| ==> s.queue[i].connection == s.connection)
    && (s.net.Draining? ==> forall i :: 0 <= i < |s.queue| ==> s.queue[i].connection < s.connection)
    && (HoldsItem(s.writer) ==> s.writer.item.connection <= s.connection)
    && (!s.up && !s.lost ==>
          && (HoldsItem(s.writer) ==> s.writer.item.connection < s.connection)
          && (!s.net.Draining? ==> s.net.Idle? && s.queue == []))
    && (s.net.Draining? ==> !s.lost)
  }

  /** Everything in the ingest process refers to a message the broker has sent. */
  ghost predicate Bounded<M, R, K>(s: State<M, R, K>) {
    && s.cursor <= |s.msgs|
    && (forall i :: i in s.discarded ==> i < |s.msgs|)
    && (forall i :: 0 <= i < |s.queue| ==> s.queue[i].index < |s.msgs|)
    && (forall m :: m in s.inflight ==> s.inflight[m] < |s.msgs|)
    && (HoldsItem(s.writer) ==> s.writer.item.index < |s.msgs|)
    && (s.net.Reading? ==> s.net.index < |s.msgs|)
    && (s.net.Putting? ==> s.net.item.index < |s.msgs|)
    && Below(s.history, |s.msgs|)
  }

  /** Packet identifiers of pending deliveries and of PUBACKs on the wire are
      distinct and stand for their messages. */
  ghost predicate Matched(p: seq<Entry>, acks: seq<nat>, inflight: map<nat, nat>) {
    && (forall i :: 0 <= i < |p| ==> p[i].mid in inflight && inflight[p[i].mid] == p[i].index && p[i].mid !in acks)
    && (forall i, j :: 0 <= i < j < |p| ==> p[i].mid != p[j].mid)
    && (forall m :: m in acks ==> m in inflight)
    && (forall i, j :: 0 <= i < j < |acks| ==> acks[i] != acks[j])
  }

  ghost predicate Identifiers<M, R, K>(s: State<M, R, K>) {
    s.up ==> Matched(Pending(s), s.acks, s.inflight)
  }

  /** The writer acknowledges only what is handled. */
  ghost predicate AcksHandled<M, R, K>(c: Config<M, R, K>, s: State<M, R, K>) {
    && (forall i :: i in s.discarded ==> Handled(c, s, i))
    && (s.up ==> forall m :: m in s.acks && m in s.inflight ==> Handled(c, s, s.inflight[m]))
    && (s.writer.Acking? ==> Handled(c, s, s.writer.item.index))
    && (s.writer.Writing? && s.writer.applied ==> s.writer.item.index in s.history)
    && (s.writer.Writing? || s.writer.Sleeping? ==>
          s.writer.item.index < |s.msgs| && c.parse(s.msgs[s.writer.item.index]).Lines?)
  }

  ghost predicate Safe<M, R, K>(c: Config<M, R, K>, s: State<M, R, K>) {
    Connections(s) && Bounded(s) && Identifiers(s) && AcksHandled(c, s)
  }

  predicate BrokerAction<M>(a: Action<M>) {
    a.Accept? || a.Deliver? || a.Drop? || a.Reconnect? || a.ReceiveAck? || a.Restart?
  }

  predicate NetAction<M>(a: Action<M>) {
    a.NetRead? || a.NetPut? || a.NetLost? || a.NetDrain?
  }

  predicate WriterAction<M>(a: Action<M>) {
    a.Take? || a.ApplyRows? || a.Return? || a.Wake? || a.Ack?
  }

  lemma ConnectionsByBroker<M, R, K>(c: Config<M, R, K>, s: State<M, R, K>, a: Action<M>)
    requires Connections(s) && Enabled(c, s, a) && BrokerAction(a)
    ensures Connections(Step(c, s, a))
  {
  }

  lemma ConnectionsByNet<M, R, K>(c: Config<M, R, K>, s: State<M, R, K>, a: Action<M>)
    requires Connections(s) && Enabled(c, s, a) && NetAction(a)
    ensures Connections(Step(c, s, a))
  {
  }

  lemma ConnectionsByWriter<M, R, K>(c: Config<M, R, K>, s: State<M, R, K>, a: Action<M>)
    requires Connections(s) && Enabled(c, s, a) && WriterAction(a)
    ensures Connections(Step(c, s, a))
  {
  }

  lemma BoundedByBroker<M, R, K>(c: Config<M, R, K>, s: State<M, R, K>, a: Action<M>)
    requires Bounded(s) && Enabled(c, s, a) && BrokerAction(a)
    ensures Bounded(Step(c, s, a))
  {
  }

  lemma BoundedByNet<M, R, K>(c: Config<M, R, K>, s: State<M, R, K>, a: Action<M>)
    requires Bounded(s) && Enabled(c, s, a) && NetAction(a)
    ensures Bounded(Step(c, s, a))
  {
  }

  lemma BoundedByTake<M, R, K>(c: Config<M, R, K>, s: State<M, R, K>)
    requires Bounded(s) && Enabled(c, s, Take)
    ensures Bounded(Step(c, s, Take))
  {
    assert forall i :: 0 <= i < |s.queue[1..]| ==> s.queue[1..][i] == s.queue[i + 1];
  }

  lemma BoundedByApply<M, R, K>(c: Config<M, R, K>, s: State<M, R, K>)
    requires Bounded(s) && Enabled(c, s, ApplyRows)
    ensures Bounded(Step(c, s, ApplyRows))
  {
  }

  /** What the writer leaves alone after the write. */
  predicate SameStore<M(==), R, K>(s: State<M, R, K>, s': State<M, R, K>) {
    && s'.msgs == s.msgs && s'.discarded == s.discarded && s'.cursor == s.cursor && s'.inflight == s.inflight
    && s'.queue == s.queue && s'.net == s.net && s'.history == s.history
    && (HoldsItem(s'.writer) ==> HoldsItem(s.writer) && s'.writer.item == s.writer.item)
  }

  lemma WriterFinishes<M, R, K>(c: Config<M, R, K>, s: State<M, R, K>, a: Action<M>)
    requires Enabled(c, s, a) && (a.Return? || a.Wake? || a.Ack?)
    ensures SameStore(s, Step(c, s, a))
  {
    match a {
      case Return(_) => case Wake => case Ack =>
    }
  }

  lemma SameStoreBounded<M, R, K>(s: State<M, R, K>, s': State<M, R, K>)
    requires Bounded(s) && SameStore(s, s')
    ensures Bounded(s')
  {
  }

  lemma BoundedByWriter<M, R, K>(c: Config<M, R, K>, s: State<M, R, K>, a: Action<M>)
    requires Bounded(s) && Enabled(c, s, a) && WriterAction(a)
    ensures Bounded(Step(c, s, a))
  {
    if a.Take? {
      BoundedByTake(c, s);
    } else if a.ApplyRows? {
      BoundedByApply(c, s);
    } else {
      WriterFinishes(c, s, a);
      SameStoreBounded(s, Step(c, s, a));
    }
  }

  lemma ConnectionsKept<M, R, K>(c: Config<M, R, K>, s: State<M, R, K>, a: Action<M>)
    requires Connections(s) && Enabled(c, s, a)
    ensures Connections(Step(c, s, a))
  {
    if BrokerAction(a) { ConnectionsByBroker(c, s, a); } else if NetAction(a) { ConnectionsByNet(c, s, a); }
    else { ConnectionsByWriter(c, s, a); }
  }

  lemma BoundedKept<M, R, K>(c: Config<M, R, K>, s: State<M, R, K>, a: Action<M>)
    requires Bounded(s) && Enabled(c, s, a)
    ensures Bounded(Step(c, s, a))
  {
    if BrokerAction(a) { BoundedByBroker(c, s, a); } else if NetAction(a) { BoundedByNet(c, s, a); }
    else { BoundedByWriter(c, s, a); }
  }

  // ------------------------------- how a step changes the pending deliveries

  lemma PendingKept<M, R, K>(c: Config<M, R, K>, s: State<M, R, K>, a: Action<M>)
    requires Connections(s) && Enabled(c, s, a)
    requires !a.Deliver? && !a.NetPut? && !a.Ack? && !a.Take? && !a.NetLost? && !a.Restart?
    ensures Pending(Step(c, s, a)) == Pending(s)
  {
  }

  lemma Glue(e: seq<Entry>, q: seq<Entry>, n: seq<Entry>)
    ensures [] + (e + q) + n == e + q + n
    ensures e + q + n == e + ([] + q + n)
  {
  }

  lemma PendingTake<M, R, K>(c: Config<M, R, K>, s: State<M, R, K>, a: Action<M>)
    requires Connections(s) && Enabled(c, s, a) && a.Take?
    ensures Pending(Step(c, s, a)) == Pending(s)
  {
    if !s.net.Draining? {
      var e := [Entry(s.queue[0].index, s.queue[0].mid)];
      assert QueueEntries(s.queue) == e + QueueEntries(s.queue[1..]);
      assert WriterEntry(Step(c, s, a)) == e;
      Glue(e, QueueEntries(s.queue[1..]), NetEntry(s));
    }
  }

  lemma PendingPut<M, R, K>(c: Config<M, R, K>, s: State<M, R, K>, a: Action<M>)
    requires Connections(s) && Enabled(c, s, a) && a.NetPut?
    ensures var p, q := Pending(s), Pending(Step(c, s, a));
            q == (if |s.queue| < ReceiveMaximum then p else p[..|p| - 1])
  {
    assert QueueEntries(s.queue + [s.net.item]) == QueueEntries(s.queue) + [Entry(s.net.item.index, s.net.item.mid)];
  }

  lemma PendingDeliver<M, R, K>(c: Config<M, R, K>, s: State<M, R, K>, a: Action<M>)
    requires Connections(s) && Enabled(c, s, a) && a.Deliver?
    ensures Pending(Step(c, s, a)) == Pending(s) + [Entry(a.index, a.mid)]
  {
  }

  lemma PendingAck<M, R, K>(c: Config<M, R, K>, s: State<M, R, K>, a: Action<M>)
    requires Connections(s) && Enabled(c, s, a) && a.Ack?
    ensures var p, q, item := Pending(s), Pending(Step(c, s, a)), s.writer.item;
            if item.connection == s.connection then p == [Entry(item.index, item.mid)] + q else q == p
  {
    var item := s.writer.item;
    Glue([Entry(item.index, item.mid)], QueueEntries(s.queue), NetEntry(s));
    Glue([], QueueEntries(s.queue), NetEntry(s));
  }

  lemma PendingNone<M, R, K>(c: Config<M, R, K>, s: State<M, R, K>, a: Action<M>)
    requires Connections(s) && Enabled(c, s, a) && (a.Reconnect? || a.NetLost? || a.Restart?)
    ensures Pending(Step(c, s, a)) == []
  {
  }

  // -------------------------------------------------- packet identifiers

  lemma MatchedDeliver(p: seq<Entry>, acks: seq<nat>, inflight: map<nat, nat>, index: nat, mid: nat)
    requires Matched(p, acks, inflight) && mid !in inflight
    ensures Matched(p + [Entry(index, mid)], acks, inflight[mid := index])
  {
  }

  lemma MatchedAck(p: seq<Entry>, acks: seq<nat>, inflight: map<nat, nat>)
    requires p != [] && Matched(p, acks, inflight)
    ensures Matched(p[1..], acks + [p[0].mid], inflight)
  {
  }

  lemma MatchedReceive(p: seq<Entry>, acks: seq<nat>, inflight: map<nat, nat>)
    requires acks != [] && Matched(p, acks, inflight)
    ensures Matched(p, acks[1..], inflight - {acks[0]})
  {
  }

  lemma IdentifiersByDeliver<M, R, K>(c: Config<M, R, K>, s: State<M, R, K>, a: Action<M>)
    requires Connections(s) && Identifiers(s) && Enabled(c, s, a) && a.Deliver?
    ensures Identifiers(Step(c, s, a))
  {
    PendingDeliver(c, s, a);
    MatchedDeliver(Pending(s), s.acks, s.inflight, a.index, a.mid);
  }

  lemma IdentifiersByPut<M, R, K>(c: Config<M, R, K>, s: State<M, R, K>, a: Action<M>)
    requires Connections(s) && Identifiers(s) && Enabled(c, s, a) && a.NetPut?
    ensures Identifiers(Step(c, s, a))
  {
    PendingPut(c, s, a);
    if s.up { MatchedShorter(Pending(s), Pending(Step(c, s, a)), s.acks, s.inflight); }
  }

  lemma MatchedShorter(p: seq<Entry>, q: seq<Entry>, acks: seq<nat>, inflight: map<nat, nat>)
    requires Matched(p, acks, inflight) && q <= p
    ensures Matched(q, acks, inflight)
  {
  }

  lemma IdentifiersByReconnect<M, R, K>(c: Config<M, R, K>, s: State<M, R, K>, a: Action<M>)
    requires Connections(s) && Identifiers(s) && Enabled(c, s, a) && a.Reconnect?
    ensures Identifiers(Step(c, s, a))
  {
    PendingNone(c, s, a);
  }

  lemma IdentifiersByReceive<M, R, K>(c: Config<M, R, K>, s: State<M, R, K>, a: Action<M>)
    requires Connections(s) && Identifiers(s) && Enabled(c, s, a) && a.ReceiveAck?
    ensures Identifiers(Step(c, s, a))
  {
    PendingKept(c, s, a);
    MatchedReceive(Pending(s), s.acks, s.inflight);
  }

  lemma IdentifiersByAck<M, R, K>(c: Config<M, R, K>, s: State<M, R, K>, a: Action<M>)
    requires Connections(s) && Identifiers(s) && Enabled(c, s, a) && a.Ack?
    ensures Identifiers(Step(c, s, a))
  {
    PendingAck(c, s, a);
    if s.up && s.writer.item.connection == s.connection {
      MatchedAck(Pending(s), s.acks, s.inflight);
      assert Pending(s)[1..] == Pending(Step(c, s, a));
    }
  }

  lemma IdentifiersKept<M, R, K>(c: Config<M, R, K>, s: State<M, R, K>, a: Action<M>)
    requires Connections(s) && Identifiers(s) && Enabled(c, s, a)
    ensures Identifiers(Step(c, s, a))
  {
    if a.Deliver? {
      IdentifiersByDeliver(c, s, a);
    } else if a.NetPut? {
      IdentifiersByPut(c, s, a);
    } else if a.Reconnect? {
      IdentifiersByReconnect(c, s, a);
    } else if a.ReceiveAck? {
      IdentifiersByReceive(c, s, a);
    } else if a.Ack? {
      IdentifiersByAck(c, s, a);
    } else if a.Take? {
      PendingTake(c, s, a);
    } else if Step(c, s, a).up {
      PendingKept(c, s, a);
    }
  }

  // ------------------------------------------------------- handled messages

  /** Messages keep their position and what was handled stays handled. */
  lemma HandledKept<M, R, K>(c: Config<M, R, K>, s: State<M, R, K>, a: Action<M>, i: nat)
    requires Enabled(c, s, a) && Handled(c, s, i)
    ensures Handled(c, Step(c, s, a), i)
  {
  }

  lemma HandledByWriter<M, R, K>(c: Config<M, R, K>, s: State<M, R, K>, a: Action<M>)
    requires AcksHandled(c, s) && Bounded(s) && Enabled(c, s, a) && Step(c, s, a).writer.Acking?
    ensures Handled(c, Step(c, s, a), Step(c, s, a).writer.item.index)
  {
    if a.Take? {
      TakenIsHandled(c, s);
    } else if a.Return? {
      ReturnedIsHandled(c, s, a.outcome);
    } else {
      WriterStays(c, s, a);
      HandledKept(c, s, a, s.writer.item.index);
    }
  }

  /** Only taking a message and finishing a write make the writer acknowledge. */
  lemma WriterStays<M, R, K>(c: Config<M, R, K>, s: State<M, R, K>, a: Action<M>)
    requires Enabled(c, s, a) && !a.Take? && !a.Return? && Step(c, s, a).writer.Acking?
    ensures Step(c, s, a).writer == s.writer
  {
    match a {
      case Accept(_) => case Deliver(_, _) => case NetRead => case NetPut => case Drop => case NetLost =>
      case NetDrain => case Reconnect =>
      case ReceiveAck => case ApplyRows => case Wake => case Ack => case Restart =>
    }
  }

  lemma TakenIsHandled<M, R, K>(c: Config<M, R, K>, s: State<M, R, K>)
    requires Enabled(c, s, Take) && Step(c, s, Take).writer.Acking?
    ensures Handled(c, Step(c, s, Take), Step(c, s, Take).writer.item.index)
  {
  }

  lemma ReturnedIsHandled<M, R, K>(c: Config<M, R, K>, s: State<M, R, K>, outcome: Outcome)
    requires AcksHandled(c, s) && Enabled(c, s, Return(outcome)) && Step(c, s, Return(outcome)).writer.Acking?
    ensures Handled(c, Step(c, s, Return(outcome)), Step(c, s, Return(outcome)).writer.item.index)
  {
    assert s.writer.Writing? && s.writer.item.index < |s.msgs|;
  }

  lemma DiscardedIsHandled<M, R, K>(c: Config<M, R, K>, s: State<M, R, K>, a: Action<M>, i: nat)
    requires Identifiers(s) && Connections(s) && AcksHandled(c, s) && Enabled(c, s, a) && i in Step(c, s, a).discarded
    ensures Handled(c, Step(c, s, a), i)
  {
    if i in s.discarded {
      HandledKept(c, s, a, i);
    } else {
      assert a.ReceiveAck? && Handled(c, s, s.inflight[s.acks[0]]);
    }
  }

  /** What the writer knows about the message it is writing. */
  lemma WriterKept<M, R, K>(c: Config<M, R, K>, s: State<M, R, K>, a: Action<M>)
    requires Bounded(s) && AcksHandled(c, s) && Enabled(c, s, a)
    ensures var s' := Step(c, s, a);
            && (s'.writer.Writing? && s'.writer.applied ==> s'.writer.item.index in s'.history)
            && (s'.writer.Writing? || s'.writer.Sleeping? ==>
                  s'.writer.item.index < |s'.msgs| && c.parse(s'.msgs[s'.writer.item.index]).Lines?)
  {
    match a {
      case Accept(_) => case Deliver(_, _) => case NetRead => case NetPut => case Drop => case NetLost =>
      case NetDrain => case Reconnect =>
      case ReceiveAck => case Take => case ApplyRows => case Return(_) => case Wake => case Ack => case Restart =>
    }
  }

  lemma AcksHandledKept<M, R, K>(c: Config<M, R, K>, s: State<M, R, K>, a: Action<M>)
    requires Safe(c, s) && Enabled(c, s, a)
    ensures AcksHandled(c, Step(c, s, a))
  {
    var s' := Step(c, s, a);
    forall i | i in s'.discarded
      ensures Handled(c, s', i)
    {
      DiscardedIsHandled(c, s, a, i);
    }
    forall m | s'.up && m in s'.acks && m in s'.inflight
      ensures Handled(c, s', s'.inflight[m])
    {
      AckOnWire(c, s, a, m);
    }
    WriterKept(c, s, a);
    if s'.writer.Acking? { HandledByWriter(c, s, a); }
  }

  /** A PUBACK on the wire stands for the same message after a step, unless it is the one just sent. */
  lemma WireKept<M, R, K>(c: Config<M, R, K>, s: State<M, R, K>, a: Action<M>, m: nat)
    requires Identifiers(s) && Connections(s) && Enabled(c, s, a) && !a.Ack?
    requires Step(c, s, a).up && m in Step(c, s, a).acks && m in Step(c, s, a).inflight
    ensures s.up && m in s.acks && m in s.inflight && Step(c, s, a).inflight[m] == s.inflight[m]
  {
    if a.Deliver? {
      assert m in s.acks && s.up;
    } else if a.ReceiveAck? {
      WireByReceive(c, s, m);
    } else {
      WireIsSame(c, s, a);
    }
  }

  lemma WireByReceive<M, R, K>(c: Config<M, R, K>, s: State<M, R, K>, m: nat)
    requires Enabled(c, s, ReceiveAck) && m in Step(c, s, ReceiveAck).acks && m in Step(c, s, ReceiveAck).inflight
    ensures s.up && m in s.acks && m in s.inflight && Step(c, s, ReceiveAck).inflight[m] == s.inflight[m]
  {
  }

  lemma WireIsSame<M, R, K>(c: Config<M, R, K>, s: State<M, R, K>, a: Action<M>)
    requires Connections(s) && Enabled(c, s, a) && !a.Ack? && !a.Deliver? && !a.ReceiveAck? && Step(c, s, a).up
    ensures Step(c, s, a).acks == s.acks && Step(c, s, a).inflight == s.inflight && (s.acks != [] ==> s.up)
  {
    match a {
      case Accept(_) => case NetRead => case NetPut => case Drop => case NetLost => case NetDrain => case Reconnect =>
      case Take => case ApplyRows => case Return(_) => case Wake => case Restart =>
    }
  }

  lemma WireGrows<M, R, K>(c: Config<M, R, K>, s: State<M, R, K>, m: nat)
    requires Enabled(c, s, Ack) && s.up && m in Step(c, s, Ack).acks && m !in s.acks
    ensures s.writer.Acking? && s.writer.item.connection == s.connection && m == s.writer.item.mid
    ensures Step(c, s, Ack).inflight == s.inflight
  {
  }

  lemma WriterIsPending<M, R, K>(s: State<M, R, K>)
    requires Connections(s) && s.up && s.writer.Acking? && s.writer.item.connection == s.connection
    ensures Pending(s) != [] && Pending(s)[0] == Entry(s.writer.item.index, s.writer.item.mid)
  {
  }

  lemma AckOnWire<M, R, K>(c: Config<M, R, K>, s: State<M, R, K>, a: Action<M>, m: nat)
    requires Identifiers(s) && Connections(s) && AcksHandled(c, s) && Enabled(c, s, a)
    requires Step(c, s, a).up && m in Step(c, s, a).acks && m in Step(c, s, a).inflight
    ensures Handled(c, Step(c, s, a), Step(c, s, a).inflight[m])
  {
    if !a.Ack? {
      WireKept(c, s, a, m);
      HandledKept(c, s, a, s.inflight[m]);
    } else {
      SentIsHandled(c, s, a, m);
    }
  }

  lemma SentIsHandled<M, R, K>(c: Config<M, R, K>, s: State<M, R, K>, a: Action<M>, m: nat)
    requires Identifiers(s) && Connections(s) && AcksHandled(c, s) && Enabled(c, s, a) && a.Ack?
    requires s.up && m in Step(c, s, a).acks && m in s.inflight
    ensures Handled(c, Step(c, s, a), s.inflight[m])
  {
    if m in s.acks {
      HandledKept(c, s, a, s.inflight[m]);
    } else {
      WireGrows(c, s, m);
      WriterIsPending(s);
      HandledKept(c, s, a, s.writer.item.index);
    }
  }

  lemma SafeKept<M, R, K>(c: Config<M, R, K>, s: State<M, R, K>, a: Action<M>)
    requires Safe(c, s) && Enabled(c, s, a)
    ensures Safe(c, Step(c, s, a))
  {
    ConnectionsKept(c, s, a);
    BoundedKept(c, s, a);
    IdentifiersKept(c, s, a);
    AcksHandledKept(c, s, a);
  }

  lemma {:induction false} AlwaysSafe<M, R, K>(c: Config<M, R, K>, run: seq<Action<M>>)
    requires After(c, run).Some?
    ensures Safe(c, After(c, run).value)
    decreases |run|
  {
    if run != [] {
      var before := run[..|run| - 1];
      AlwaysSafe(c, before);
      SafeKept(c, After(c, before).value, run[|run| - 1]);
    }
  }

  /** Whatever the connections, restarts, packet identifiers and failing
      writes: the broker has discarded a message only if its rows were applied,
      or it has none, or it was rejected for good. */
  lemma AcknowledgedIsHandled<M, R, K>(c: Config<M, R, K>, run: seq<Action<M>>, i: nat)
    requires After(c, run).Some? && i in After(c, run).value.discarded
    ensures Handled(c, After(c, run).value, i)
  {
    AlwaysSafe(c, run);
  }

  // --------------------------------------------- each delivery acked once

  /** p holds distinct messages below the cursor, none of them acknowledged in
      this connection; no call is repeated; before the connection is up again
      there are no calls in it. */
  ghost predicate OnceOn(log: seq<AckCall>, process: nat, connection: nat, cursor: nat, p: seq<Entry>, closed: bool) {
    && (forall i :: 0 <= i < |log| ==>
       Before(log[i], process, connection) || (!closed && InConnection(log[i], process, connection)))
    && (forall i :: 0 <= i < |log| && InConnection(log[i], process, connection) ==> log[i].index < cursor)
    && (forall i :: 0 <= i < |p| ==> p[i].index < cursor && AckCall(process, connection, p[i].index) !in log)
    && (forall i, j :: 0 <= i < j < |p| ==> p[i].index != p[j].index)
    && (forall i, j :: 0 <= i < j < |log| ==> log[i] != log[j])
  }

  ghost predicate InConnection(call: AckCall, process: nat, connection: nat) {
    call.process == process && call.connection == connection
  }

  ghost predicate Before(call: AckCall, process: nat, connection: nat) {
    call.process < process || (call.process == process && call.connection < connection)
  }

  ghost predicate Once<M, R, K>(s: State<M, R, K>) {
    OnceOn(s.ackLog, s.process, s.connection, s.cursor, Pending(s), !s.up && !s.lost)
  }

  lemma OnceAcked(log: seq<AckCall>, process: nat, connection: nat, cursor: nat, e: Entry, rest: seq<Entry>)
    requires OnceOn(log, process, connection, cursor, [e] + rest, false)
    ensures OnceOn(log + [AckCall(process, connection, e.index)], process, connection, cursor, rest, false)
  {
    var p := [e] + rest;
    assert p[0] == e;
    forall i | 0 <= i < |rest|
      ensures rest[i].index < cursor && rest[i].index != e.index && AckCall(process, connection, rest[i].index) !in log
    {
      assert rest[i] == p[i + 1];
    }
    forall i, j | 0 <= i < j < |rest|
      ensures rest[i].index != rest[j].index
    {
      assert rest[i] == p[i + 1] && rest[j] == p[j + 1];
    }
  }

  lemma OnceDelivered(log: seq<AckCall>, process: nat, connection: nat, cursor: nat, p: seq<Entry>, e: Entry)
    requires OnceOn(log, process, connection, cursor, p, false) && e.index >= cursor
    ensures OnceOn(log, process, connection, e.index + 1, p + [e], false)
  {
  }

  lemma OnceClosed(log: seq<AckCall>, process: nat, connection: nat, cursor: nat, p: seq<Entry>, closed: bool,
                   process': nat, connection': nat)
    requires OnceOn(log, process, connection, cursor, p, closed)
    requires || process < process'
             || (process == process' && connection < connection')
             || (closed && process == process' && connection == connection')
    ensures forall cursor', closed' :: OnceOn(log, process', connection', cursor', [], closed')
  {
  }

  lemma OnceShorter(log: seq<AckCall>, process: nat, connection: nat, cursor: nat, p: seq<Entry>, q: seq<Entry>,
                    closed: bool, closed': bool)
    requires OnceOn(log, process, connection, cursor, p, closed) && q <= p && (closed' ==> closed)
    ensures OnceOn(log, process, connection, cursor, q, closed')
  {
  }

  lemma OnceByAck<M, R, K>(c: Config<M, R, K>, s: State<M, R, K>, a: Action<M>)
    requires Connections(s) && Once(s) && Enabled(c, s, a) && a.Ack?
    ensures Once(Step(c, s, a))
  {
    PendingAck(c, s, a);
    if s.writer.item.connection == s.connection {
      OnceAcked(s.ackLog, s.process, s.connection, s.cursor, Entry(s.writer.item.index, s.writer.item.mid),
        Pending(Step(c, s, a)));
    }
  }

  lemma OnceByReset<M, R, K>(c: Config<M, R, K>, s: State<M, R, K>, a: Action<M>)
    requires Connections(s) && Once(s) && Enabled(c, s, a) && (a.Reconnect? || a.NetLost? || a.Restart?)
    ensures Once(Step(c, s, a))
  {
    var s' := Step(c, s, a);
    PendingNone(c, s, a);
    OnceClosed(s.ackLog, s.process, s.connection, s.cursor, Pending(s), !s.up && !s.lost, s'.process, s'.connection);
  }

  lemma OnceKept<M, R, K>(c: Config<M, R, K>, s: State<M, R, K>, a: Action<M>)
    requires Connections(s) && Once(s) && Enabled(c, s, a)
    ensures Once(Step(c, s, a))
  {
    if a.Ack? {
      OnceByAck(c, s, a);
    } else if a.Reconnect? || a.NetLost? || a.Restart? {
      OnceByReset(c, s, a);
    } else if a.Deliver? {
      OnceByDeliver(c, s, a);
    } else {
      PendingShorter(c, s, a);
      OnceByMove(c, s, a);
    }
  }

  lemma OnceByDeliver<M, R, K>(c: Config<M, R, K>, s: State<M, R, K>, a: Action<M>)
    requires Connections(s) && Once(s) && Enabled(c, s, a) && a.Deliver?
    ensures Once(Step(c, s, a))
  {
    PendingDeliver(c, s, a);
    OnceDelivered(s.ackLog, s.process, s.connection, s.cursor, Pending(s), Entry(a.index, a.mid));
  }

  lemma PendingShorter<M, R, K>(c: Config<M, R, K>, s: State<M, R, K>, a: Action<M>)
    requires Connections(s) && Enabled(c, s, a)
    requires !a.Ack? && !a.Reconnect? && !a.NetLost? && !a.Restart? && !a.Deliver?
    ensures Pending(Step(c, s, a)) <= Pending(s)
  {
    if a.NetPut? { PendingPut(c, s, a); } else if a.Take? { PendingTake(c, s, a); } else { PendingKept(c, s, a); }
  }

  lemma OnceByMove<M, R, K>(c: Config<M, R, K>, s: State<M, R, K>, a: Action<M>)
    requires Once(s) && Enabled(c, s, a) && Pending(Step(c, s, a)) <= Pending(s)
    requires !a.Ack? && !a.Reconnect? && !a.NetLost? && !a.Restart? && !a.Deliver?
    ensures Once(Step(c, s, a))
  {
    var s' := Step(c, s, a);
    var closed, closed' := !s.up && !s.lost, !s'.up && !s'.lost;
    OnceShorter(s.ackLog, s.process, s.connection, s.cursor, Pending(s), Pending(s'), closed, closed');
  }

  /** client.ack is called at most once for a delivery, counting a delivery as
      a message in one connection of one process. */
  lemma {:induction false} AckedOnce<M, R, K>(c: Config<M, R, K>, run: seq<Action<M>>)
    requires After(c, run).Some?
    ensures var log := After(c, run).value.ackLog; forall i, j :: 0 <= i < j < |log| ==> log[i] != log[j]
    ensures Once(After(c, run).value)
    decreases |run|
  {
    if run != [] {
      var before := run[..|run| - 1];
      AckedOnce(c, before);
      AlwaysSafe(c, before);
      OnceKept(c, After(c, before).value, run[|run| - 1]);
    }
  }
}

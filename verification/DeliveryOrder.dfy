/** Redelivery is invisible: when the broker respects Receive Maximum, messages
    leave the session in order and the deduplicated table ends up as if each
    message had been applied once, in the broker's order. */
module DeliveryOrder {
  import opened Common
  import opened Delivery
  import opened DeliverySafety

  /** The rows of message i that the database accepts. */
  function Effective<M, R, K>(c: Config<M, R, K>, msgs: seq<M>, i: nat): seq<R>
    requires i < |msgs|
  {
    match c.parse(msgs[i]) case Lines(rows) => (if c.refused(rows) then [] else rows) case _ => []
  }

  /** The table after applying these messages one after another. */
  function Replay<M, R, K>(c: Config<M, R, K>, msgs: seq<M>, order: seq<nat>): map<K, R>
    requires Below(order, |msgs|)
    decreases |order|
  {
    if order == [] then map[]
    else
      var last := order[|order| - 1];
      Upsert(c.key, Replay(c, msgs, order[..|order| - 1]), Effective(c, msgs, last))
  }

  /** j was applied, and everything applied after it comes later in the broker's order. */
  ghost predicate Settled(history: seq<nat>, j: nat) {
    exists p :: 0 <= p < |history| && history[p] == j && forall q :: p < q < |history| ==> history[q] >= j
  }

  ghost predicate Writes<M, R, K>(c: Config<M, R, K>, msgs: seq<M>, i: nat) {
    i < |msgs| && Effective(c, msgs, i) != []
  }

  function Floor<M, R, K>(s: State<M, R, K>, n: nat): nat {
    n + |s.acks|
  }

  /** After n discarded messages come, in order, those whose PUBACK is on the
      wire and those still pending (p) in this connection, and no others are in flight. */
  ghost predicate InLine(n: nat, cursor: nat, acks: seq<nat>, inflight: map<nat, nat>, p: seq<Entry>) {
    && |inflight| == |acks| + |p|
    && (if cursor < n then n else cursor) == n + |acks| + |p|
    && (forall k :: 0 <= k < |acks| ==> acks[k] in inflight && inflight[acks[k]] == n + k)
    && (forall k :: 0 <= k < |p| ==> p[k].index == n + |acks| + k)
  }

  ghost predicate IsPrefix(discarded: set<nat>, n: nat) {
    forall i: nat :: i in discarded <==> i < n
  }

  ghost predicate Aligned<M, R, K>(s: State<M, R, K>, n: nat) {
    && n <= |s.msgs|
    && IsPrefix(s.discarded, n)
    && (!s.up ==> s.inflight == map[])
    && (s.up ==> InLine(n, s.cursor, s.acks, s.inflight, Pending(s)))
  }

  /** What the queue and the writer hold is not discarded yet, and a delivery of
      an old connection keeps the writer from acknowledging new ones. */
  ghost predicate Undiscarded<M, R, K>(s: State<M, R, K>, n: nat) {
    && (HoldsItem(s.writer) ==> s.writer.item.index >= Floor(s, n))
    && (forall i :: 0 <= i < |s.queue| ==> s.queue[i].index >= n)
    && (s.net.Reading? ==> s.net.index >= n)
    && (s.net.Putting? ==> s.net.item.index >= n)
  }

  ghost predicate Room<M, R, K>(s: State<M, R, K>) {
    |s.queue| + |NetEntry(s)| <= ReceiveMaximum
  }

  /** The message the writer has just finished is the last one applied. */
  ghost predicate JustApplied<M, R, K>(c: Config<M, R, K>, s: State<M, R, K>) {
    && (s.writer.Writing? && s.writer.applied ==> s.history != [] && s.history[|s.history| - 1] == s.writer.item.index)
    && (s.writer.Acking? && Writes(c, s.msgs, s.writer.item.index) ==>
          s.history != [] && s.history[|s.history| - 1] == s.writer.item.index)
  }

  ghost predicate Table<M, R, K>(c: Config<M, R, K>, s: State<M, R, K>, n: nat) {
    && Below(s.history, |s.msgs|)
    && s.db == Replay(c, s.msgs, s.history)
    && (forall j :: 0 <= j < Floor(s, n) && Writes(c, s.msgs, j) ==> Settled(s.history, j))
  }

  ghost predicate Ordered<M, R, K>(c: Config<M, R, K>, s: State<M, R, K>, n: nat) {
    Safe(c, s) && Aligned(s, n) && Undiscarded(s, n) && Room(s) && JustApplied(c, s) && Table(c, s, n)
  }

  // ------------------------------------------------------- the table, by key

  ghost function LastWith<R, K>(key: R -> K, rows: seq<R>, k: K): (r: Option<R>)
    decreases |rows|
  {
    if rows == [] then None
    else if key(rows[|rows| - 1]) == k then Some(rows[|rows| - 1]) else LastWith(key, rows[..|rows| - 1], k)
  }

  function Lookup<K, R>(db: map<K, R>, k: K): Option<R> {
    if k in db then Some(db[k]) else None
  }

  lemma {:induction false} UpsertAppend<R, K>(key: R -> K, db: map<K, R>, rows: seq<R>, row: R)
    ensures Upsert(key, db, rows + [row]) == Upsert(key, db, rows)[key(row) := row]
    decreases |rows|
  {
    if rows == [] {
      assert [row][1..] == [];
    } else {
      assert (rows + [row])[1..] == rows[1..] + [row];
      UpsertAppend(key, db[key(rows[0]) := rows[0]], rows[1..], row);
    }
  }

  /** After an upsert a key shows the last row that has it, else what it showed before. */
  lemma {:induction false} UpsertLookup<R, K>(key: R -> K, db: map<K, R>, rows: seq<R>, k: K)
    ensures var l := LastWith(key, rows, k); Lookup(Upsert(key, db, rows), k) == (if l.Some? then l else Lookup(db, k))
    decreases |rows|
  {
    if rows != [] {
      var front, row := rows[..|rows| - 1], rows[|rows| - 1];
      assert rows == front + [row];
      UpsertAppend(key, db, front, row);
      UpsertLookup(key, db, front, k);
    }
  }

  ghost function Shows<M, R, K>(c: Config<M, R, K>, msgs: seq<M>, i: nat, k: K): Option<R>
    requires i < |msgs|
  {
    LastWith(c.key, Effective(c, msgs, i), k)
  }

  lemma SettledBefore(history: seq<nat>, j: nat)
    requires Settled(history, j) && history[|history| - 1] != j
    ensures history[|history| - 1] > j && Settled(history[..|history| - 1], j)
  {
    var p :| 0 <= p < |history| && history[p] == j && forall q :: p < q < |history| ==> history[q] >= j;
    assert history[..|history| - 1][p] == j;
  }

  /** If j is settled and nothing applied after j's place in the broker's order
      has the key, the table shows what j wrote. */
  lemma {:induction false} ReplayShows<M, R, K>(c: Config<M, R, K>, msgs: seq<M>, history: seq<nat>, j: nat, k: K)
    requires Below(history, |msgs|)
    requires j < |msgs| && Settled(history, j) && Shows(c, msgs, j, k).Some?
    requires forall q :: 0 <= q < |history| && history[q] > j ==> Shows(c, msgs, history[q], k) == None
    ensures Lookup(Replay(c, msgs, history), k) == Shows(c, msgs, j, k)
    decreases |history|
  {
    var last := history[|history| - 1];
    var front := history[..|history| - 1];
    UpsertLookup(c.key, Replay(c, msgs, front), Effective(c, msgs, last), k);
    if last != j {
      SettledBefore(history, j);
      ReplayShows(c, msgs, front, j, k);
    }
  }

  lemma {:induction false} ReplayShowsNothing<M, R, K>(c: Config<M, R, K>, msgs: seq<M>, history: seq<nat>, k: K)
    requires Below(history, |msgs|) && forall q :: 0 <= q < |history| ==> Shows(c, msgs, history[q], k) == None
    ensures k !in Replay(c, msgs, history)
    decreases |history|
  {
    if history != [] {
      var last := history[|history| - 1];
      UpsertLookup(c.key, Replay(c, msgs, history[..|history| - 1]), Effective(c, msgs, last), k);
      ReplayShowsNothing(c, msgs, history[..|history| - 1], k);
    }
  }

  function Upto(n: nat): (r: seq<nat>)
    ensures |r| == n && forall i :: 0 <= i < n ==> r[i] == i
  {
    seq(n, i => i)
  }

  /** The last message below n that has the key, if any. */
  lemma {:induction false} LastWriter<M, R, K>(c: Config<M, R, K>, msgs: seq<M>, n: nat, k: K) returns (j: Option<nat>)
    requires n <= |msgs|
    ensures j.Some? ==> j.value < n && Shows(c, msgs, j.value, k).Some?
    ensures j.Some? ==> forall i :: j.value < i < n ==> Shows(c, msgs, i, k) == None
    ensures j.None? ==> forall i :: 0 <= i < n ==> Shows(c, msgs, i, k) == None
  {
    if n == 0 {
      j := None;
    } else if Shows(c, msgs, n - 1, k).Some? {
      j := Some(n - 1);
    } else {
      j := LastWriter(c, msgs, n - 1, k);
    }
  }

  /** A history in which every message is settled shows the same at every key
      as applying each message once, in order. */
  lemma SameAtKey<M, R, K>(c: Config<M, R, K>, msgs: seq<M>, history: seq<nat>, k: K)
    requires Below(history, |msgs|)
    requires forall j :: 0 <= j < |msgs| && Writes(c, msgs, j) ==> Settled(history, j)
    ensures Lookup(Replay(c, msgs, history), k) == Lookup(Replay(c, msgs, Upto(|msgs|)), k)
  {
    var j := LastWriter(c, msgs, |msgs|, k);
    if j.Some? {
      assert Writes(c, msgs, j.value);
      ReplayShows(c, msgs, history, j.value, k);
      assert Upto(|msgs|)[j.value] == j.value;
      ReplayShows(c, msgs, Upto(|msgs|), j.value, k);
    } else {
      ReplayShowsNothing(c, msgs, history, k);
      ReplayShowsNothing(c, msgs, Upto(|msgs|), k);
    }
  }

  lemma SameTable<M, R, K(!new)>(c: Config<M, R, K>, msgs: seq<M>, history: seq<nat>)
    requires Below(history, |msgs|)
    requires forall j :: 0 <= j < |msgs| && Writes(c, msgs, j) ==> Settled(history, j)
    ensures Replay(c, msgs, history) == Replay(c, msgs, Upto(|msgs|))
  {
    var a, b := Replay(c, msgs, history), Replay(c, msgs, Upto(|msgs|));
    forall k
      ensures k in a <==> k in b
      ensures k in a ==> a[k] == b[k]
    {
      SameAtKey(c, msgs, history, k);
      assert Lookup(a, k) == Lookup(b, k);
    }
  }

  // -------------------------------------------------------- the invariant

  /** The number of discarded messages after a step. */
  function NextFloor<M, R, K>(s: State<M, R, K>, a: Action<M>, n: nat): nat {
    if a.ReceiveAck? && s.acks != [] && s.acks[0] in s.inflight then n + 1 else n
  }

  lemma RemoveKey(m: map<nat, nat>, k: nat)
    requires k in m
    ensures |m - {k}| == |m| - 1
  {
    assert (m - {k}).Keys == m.Keys - {k};
    assert |m.Keys - {k}| == |m.Keys| - 1;
  }

  lemma InLineDeliver(n: nat, cursor: nat, acks: seq<nat>, inflight: map<nat, nat>, p: seq<Entry>, mid: nat)
    requires InLine(n, cursor, acks, inflight, p) && mid !in inflight
    ensures var index := if cursor < n then n else cursor;
            InLine(n, index + 1, acks, inflight[mid := index], p + [Entry(index, mid)])
  {
    assert inflight[mid := 0].Keys == inflight.Keys + {mid};
  }

  lemma InLineAck(n: nat, cursor: nat, acks: seq<nat>, inflight: map<nat, nat>, e: Entry, q: seq<Entry>)
    requires InLine(n, cursor, acks, inflight, [e] + q) && Matched([e] + q, acks, inflight)
    ensures InLine(n, cursor, acks + [e.mid], inflight, q)
  {
    var p := [e] + q;
    assert p[0] == e && inflight[e.mid] == n + |acks|;
    forall k | 0 <= k < |q|
      ensures q[k].index == n + |acks| + 1 + k
    {
      assert q[k] == p[k + 1];
    }
  }

  lemma InLineReceive(n: nat, cursor: nat, acks: seq<nat>, inflight: map<nat, nat>, p: seq<Entry>)
    requires InLine(n, cursor, acks, inflight, p) && acks != [] && Matched(p, acks, inflight)
    ensures InLine(n + 1, cursor, acks[1..], inflight - {acks[0]}, p)
  {
    RemoveKey(inflight, acks[0]);
    var rest := acks[1..];
    forall k | 0 <= k < |rest|
      ensures rest[k] in inflight - {acks[0]} && (inflight - {acks[0]})[rest[k]] == n + 1 + k
    {
      assert rest[k] == acks[k + 1];
    }
  }

  lemma NextIndex(discarded: set<nat>, n: nat, cursor: nat, index: nat)
    requires IsPrefix(discarded, n) && cursor <= index && index !in discarded
    requires forall j :: cursor <= j < index ==> j in discarded
    ensures index == if cursor < n then n else cursor
  {
    var next := if cursor < n then n else cursor;
    assert next < index ==> next in discarded;
  }

  lemma AlignedByDeliver<M, R, K>(c: Config<M, R, K>, s: State<M, R, K>, a: Action<M>, n: nat)
    requires Connections(s) && Aligned(s, n) && Enabled(c, s, a) && a.Deliver?
    ensures Aligned(Step(c, s, a), n)
  {
    PendingDeliver(c, s, a);
    NextIndex(s.discarded, n, s.cursor, a.index);
    InLineDeliver(n, s.cursor, s.acks, s.inflight, Pending(s), a.mid);
  }

  lemma AlignedByReceive<M, R, K>(c: Config<M, R, K>, s: State<M, R, K>, a: Action<M>, n: nat)
    requires Connections(s) && Identifiers(s) && Aligned(s, n) && s.cursor <= |s.msgs| && Enabled(c, s, a)
    requires a.ReceiveAck?
    ensures Aligned(Step(c, s, a), NextFloor(s, a, n))
  {
    PendingKept(c, s, a);
    InLineReceive(n, s.cursor, s.acks, s.inflight, Pending(s));
    assert s.acks[0] in s.inflight && s.inflight[s.acks[0]] == n;
  }

  lemma AlignedByAck<M, R, K>(c: Config<M, R, K>, s: State<M, R, K>, a: Action<M>, n: nat)
    requires Connections(s) && Identifiers(s) && Aligned(s, n) && Enabled(c, s, a) && a.Ack?
    ensures Aligned(Step(c, s, a), n)
  {
    PendingAck(c, s, a);
    if s.up && s.writer.item.connection == s.connection {
      InLineAck(n, s.cursor, s.acks, s.inflight, Entry(s.writer.item.index, s.writer.item.mid), Pending(Step(c, s, a)));
    }
  }

  /** The steps that move no delivery, discard nothing and acknowledge nothing. */
  predicate Resting<M>(a: Action<M>) {
    !a.Deliver? && !a.ReceiveAck? && !a.Ack? && !a.Reconnect?
  }

  lemma PendingByRest<M, R, K>(c: Config<M, R, K>, s: State<M, R, K>, a: Action<M>)
    requires Connections(s) && Room(s) && Enabled(c, s, a) && Resting(a) && Step(c, s, a).up
    ensures Pending(Step(c, s, a)) == Pending(s)
  {
    if a.NetPut? { PendingPut(c, s, a); } else if a.Take? { PendingTake(c, s, a); } else { PendingKept(c, s, a); }
  }

  lemma FloorByRest<M, R, K>(c: Config<M, R, K>, s: State<M, R, K>, a: Action<M>)
    requires Enabled(c, s, a) && Resting(a)
    ensures var s' := Step(c, s, a);
            && s.msgs <= s'.msgs && s'.discarded == s.discarded && s'.cursor == s.cursor
            && (s'.up ==> s.up && s'.acks == s.acks && s'.inflight == s.inflight)
            && (!s'.up ==> s'.inflight == s.inflight || s'.inflight == map[])
  {
    match a {
      case Accept(_) => case NetRead => case NetPut => case Drop => case NetLost => case NetDrain => case Take =>
      case ApplyRows => case Return(_) => case Wake => case Restart =>
    }
  }

  lemma AlignedByReconnect<M, R, K>(c: Config<M, R, K>, s: State<M, R, K>, n: nat)
    requires Connections(s) && Aligned(s, n) && Enabled(c, s, Reconnect)
    ensures Aligned(Step(c, s, Reconnect), n)
  {
    PendingNone(c, s, Reconnect);
  }

  lemma AlignedByRest<M, R, K>(c: Config<M, R, K>, s: State<M, R, K>, a: Action<M>, n: nat)
    requires Connections(s) && Aligned(s, n) && Room(s) && Enabled(c, s, a) && Resting(a)
    ensures Aligned(Step(c, s, a), n)
  {
    FloorByRest(c, s, a);
    if Step(c, s, a).up { PendingByRest(c, s, a); }
  }

  lemma AlignedKept<M, R, K>(c: Config<M, R, K>, s: State<M, R, K>, a: Action<M>, n: nat)
    requires Connections(s) && Identifiers(s) && Aligned(s, n) && Room(s) && s.cursor <= |s.msgs| && Enabled(c, s, a)
    ensures Aligned(Step(c, s, a), NextFloor(s, a, n))
  {
    if a.Deliver? { AlignedByDeliver(c, s, a, n); }
    else if a.ReceiveAck? { AlignedByReceive(c, s, a, n); }
    else if a.Ack? { AlignedByAck(c, s, a, n); }
    else if a.Reconnect? { AlignedByReconnect(c, s, n); }
    else { AlignedByRest(c, s, a, n); }
  }

  /** While the connection is up the queue and the network thread hold pending deliveries. */
  lemma QueueIsPending<M, R, K>(s: State<M, R, K>, n: nat)
    requires Connections(s) && Aligned(s, n) && s.up
    ensures |s.queue| + |NetEntry(s)| <= |Pending(s)| <= |s.inflight|
    ensures forall i :: 0 <= i < |s.queue| ==> s.queue[i].index >= Floor(s, n)
    ensures s.net.Reading? ==> s.net.index >= Floor(s, n)
    ensures s.net.Putting? ==> s.net.item.index >= Floor(s, n)
    ensures s.writer.Waiting? && s.queue != [] ==> s.queue[0].index == Floor(s, n)
  {
    var p, w, q := Pending(s), WriterEntry(s), QueueEntries(s.queue);
    forall i | 0 <= i < |s.queue|
      ensures p[|w| + i].index == s.queue[i].index
    {
      assert p[|w| + i] == q[i];
    }
    if NetEntry(s) != [] {
      assert p[|p| - 1] == NetEntry(s)[0];
    }
  }

  lemma UndiscardedByDeliver<M, R, K>(c: Config<M, R, K>, s: State<M, R, K>, a: Action<M>, n: nat)
    requires Connections(s) && Aligned(s, n) && Undiscarded(s, n) && Enabled(c, s, a) && a.Deliver?
    ensures Undiscarded(Step(c, s, a), n)
  {
    NextIndex(s.discarded, n, s.cursor, a.index);
  }

  lemma UndiscardedByReceive<M, R, K>(c: Config<M, R, K>, s: State<M, R, K>, a: Action<M>, n: nat)
    requires Connections(s) && Aligned(s, n) && Undiscarded(s, n) && Enabled(c, s, a) && a.ReceiveAck?
    ensures Undiscarded(Step(c, s, a), NextFloor(s, a, n))
  {
    QueueIsPending(s, n);
  }

  lemma UndiscardedByBroker<M, R, K>(c: Config<M, R, K>, s: State<M, R, K>, a: Action<M>, n: nat)
    requires Connections(s) && Aligned(s, n) && Undiscarded(s, n) && Enabled(c, s, a) && BrokerAction(a)
    ensures Undiscarded(Step(c, s, a), NextFloor(s, a, n))
  {
    if a.Deliver? { UndiscardedByDeliver(c, s, a, n); } else if a.ReceiveAck? { UndiscardedByReceive(c, s, a, n); }
  }

  lemma UndiscardedByNet<M, R, K>(c: Config<M, R, K>, s: State<M, R, K>, a: Action<M>, n: nat)
    requires Undiscarded(s, n) && Enabled(c, s, a) && NetAction(a)
    ensures Undiscarded(Step(c, s, a), n)
  {
  }

  lemma HeadAtFloor<M, R, K>(s: State<M, R, K>, n: nat)
    requires Connections(s) && Aligned(s, n) && Undiscarded(s, n) && s.writer.Waiting? && s.queue != []
    ensures s.queue[0].index >= Floor(s, n)
  {
    if s.up { QueueIsPending(s, n); }
  }

  lemma TakeKeepsUndiscarded<M, R, K>(s: State<M, R, K>, s': State<M, R, K>, n: nat)
    requires Undiscarded(s, n) && s.queue != [] && s.queue[0].index >= Floor(s, n) && s'.queue == s.queue[1..]
    requires HoldsItem(s'.writer) && s'.writer.item == s.queue[0] && s'.net == s.net && s'.acks == s.acks
    ensures Undiscarded(s', n)
  {
    forall i | 0 <= i < |s'.queue|
      ensures s'.queue[i].index >= n
    {
      assert s'.queue[i] == s.queue[i + 1];
    }
  }

  lemma UndiscardedByTake<M, R, K>(c: Config<M, R, K>, s: State<M, R, K>, a: Action<M>, n: nat)
    requires Connections(s) && Aligned(s, n) && Undiscarded(s, n) && Enabled(c, s, a) && a.Take?
    ensures Undiscarded(Step(c, s, a), n)
  {
    HeadAtFloor(s, n);
    TakeKeepsUndiscarded(s, Step(c, s, a), n);
  }

  lemma UndiscardedByWriter<M, R, K>(c: Config<M, R, K>, s: State<M, R, K>, a: Action<M>, n: nat)
    requires Undiscarded(s, n) && Enabled(c, s, a) && WriterAction(a) && !a.Take?
    ensures Undiscarded(Step(c, s, a), n)
  {
  }

  lemma UndiscardedKept<M, R, K>(c: Config<M, R, K>, s: State<M, R, K>, a: Action<M>, n: nat)
    requires Connections(s) && Aligned(s, n) && Undiscarded(s, n) && Enabled(c, s, a)
    ensures Undiscarded(Step(c, s, a), NextFloor(s, a, n))
  {
    if BrokerAction(a) { UndiscardedByBroker(c, s, a, n); }
    else if NetAction(a) { UndiscardedByNet(c, s, a, n); }
    else if a.Take? { UndiscardedByTake(c, s, a, n); }
    else { UndiscardedByWriter(c, s, a, n); }
  }

  lemma RoomByDeliver<M, R, K>(c: Config<M, R, K>, s: State<M, R, K>, a: Action<M>, n: nat)
    requires Connections(s) && Aligned(s, n) && Enabled(c, s, a) && a.Deliver? && c.window <= ReceiveMaximum
    ensures Room(Step(c, s, a))
  {
    QueueIsPending(s, n);
  }

  lemma RoomByRest<M, R, K>(c: Config<M, R, K>, s: State<M, R, K>, a: Action<M>)
    requires Room(s) && Enabled(c, s, a) && !a.Deliver?
    ensures Room(Step(c, s, a))
  {
  }

  lemma JustAppliedLonger<M, R, K>(c: Config<M, R, K>, s: State<M, R, K>, m: M)
    requires JustApplied(c, s) && (HoldsItem(s.writer) ==> s.writer.item.index < |s.msgs|)
    ensures JustApplied(c, s.(msgs := s.msgs + [m]))
  {
    if HoldsItem(s.writer) { assert (s.msgs + [m])[s.writer.item.index] == s.msgs[s.writer.item.index]; }
  }

  lemma JustAppliedByOthers<M, R, K>(c: Config<M, R, K>, s: State<M, R, K>, a: Action<M>)
    requires JustApplied(c, s) && Enabled(c, s, a) && (BrokerAction(a) || NetAction(a))
    requires HoldsItem(s.writer) ==> s.writer.item.index < |s.msgs|
    ensures JustApplied(c, Step(c, s, a))
  {
    match a {
      case Accept(m) => JustAppliedLonger(c, s, m);
      case Deliver(_, _) => case NetRead => case NetPut => case Drop => case NetLost => case NetDrain =>
      case Reconnect => case ReceiveAck => case Restart =>
    }
  }

  lemma JustAppliedKept<M, R, K>(c: Config<M, R, K>, s: State<M, R, K>, a: Action<M>)
    requires JustApplied(c, s) && Enabled(c, s, a)
    requires HoldsItem(s.writer) ==> s.writer.item.index < |s.msgs|
    ensures JustApplied(c, Step(c, s, a))
  {
    if BrokerAction(a) || NetAction(a) {
      JustAppliedByOthers(c, s, a);
    } else {
      match a {
        case Take => case ApplyRows => case Return(_) => case Wake => case Ack =>
      }
    }
  }

  lemma {:induction false} ReplayLonger<M, R, K>(c: Config<M, R, K>, msgs: seq<M>, m: M, history: seq<nat>)
    requires Below(history, |msgs|)
    ensures Replay(c, msgs + [m], history) == Replay(c, msgs, history)
    decreases |history|
  {
    if history != [] { ReplayLonger(c, msgs, m, history[..|history| - 1]); }
  }

  lemma SettledLonger(history: seq<nat>, i: nat, j: nat)
    requires Settled(history, j) && i >= j
    ensures Settled(history + [i], j)
  {
    var p :| 0 <= p < |history| && history[p] == j && forall q :: p < q < |history| ==> history[q] >= j;
    assert (history + [i])[p] == j;
  }

  lemma TableByApply<M, R, K>(c: Config<M, R, K>, s: State<M, R, K>, a: Action<M>, n: nat)
    requires Undiscarded(s, n) && Table(c, s, n) && Enabled(c, s, a) && a.ApplyRows?
    ensures Table(c, Step(c, s, a), n)
  {
    var i := s.writer.item.index;
    assert (s.history + [i])[..|s.history|] == s.history;
    forall j | 0 <= j < Floor(s, n) && Writes(c, s.msgs, j)
      ensures Settled(s.history + [i], j)
    {
      SettledLonger(s.history, i, j);
    }
  }

  lemma TableByAck<M, R, K>(c: Config<M, R, K>, s: State<M, R, K>, a: Action<M>, n: nat)
    requires Connections(s) && Aligned(s, n) && JustApplied(c, s) && Table(c, s, n) && Enabled(c, s, a) && a.Ack?
    ensures Table(c, Step(c, s, a), n)
  {
    if s.up && s.writer.item.connection == s.connection {
      PendingAck(c, s, a);
      var j := s.writer.item.index;
      assert Pending(s)[0].index == j;
      if Writes(c, s.msgs, j) { LastIsSettled(s.history); }
      TableGrows(c, s, Step(c, s, a), n, j);
    } else {
      TableGrows(c, s, Step(c, s, a), n, 0);
    }
  }

  lemma LastIsSettled(history: seq<nat>)
    requires history != []
    ensures Settled(history, history[|history| - 1])
  {
    var p := |history| - 1;
    assert history[p] == history[p];
  }

  /** Message j, next after the floor, is settled now, or the floor does not move up. */
  lemma TableGrows<M, R, K>(c: Config<M, R, K>, s: State<M, R, K>, s': State<M, R, K>, n: nat, j: nat)
    requires Table(c, s, n) && s'.history == s.history && s'.db == s.db && s'.msgs == s.msgs
    requires Floor(s', n) > Floor(s, n) ==>
               && Floor(s', n) == Floor(s, n) + 1
               && j == Floor(s, n)
               && (Writes(c, s.msgs, j) ==> Settled(s.history, j))
    ensures Table(c, s', n)
  {
  }

  lemma TableByAccept<M, R, K>(c: Config<M, R, K>, s: State<M, R, K>, a: Action<M>, n: nat)
    requires Aligned(s, n) && s.cursor <= |s.msgs| && Table(c, s, n) && Enabled(c, s, a) && a.Accept?
    requires !s.up ==> s.acks == []
    ensures Table(c, Step(c, s, a), n)
  {
    ReplayLonger(c, s.msgs, a.m, s.history);
    forall j | 0 <= j < Floor(s, n) && Writes(c, s.msgs + [a.m], j)
      ensures Settled(s.history, j)
    {
      assert (s.msgs + [a.m])[j] == s.msgs[j];
      assert Writes(c, s.msgs, j);
    }
  }

  lemma TableByRest<M, R, K>(c: Config<M, R, K>, s: State<M, R, K>, a: Action<M>, n: nat)
    requires Table(c, s, n) && Enabled(c, s, a) && !a.ApplyRows? && !a.Ack? && !a.Accept?
    requires a.ReceiveAck? ==> s.acks[0] in s.inflight
    ensures Table(c, Step(c, s, a), NextFloor(s, a, n))
  {
    var s' := Step(c, s, a);
    assert Floor(s', NextFloor(s, a, n)) <= Floor(s, n);
  }

  lemma TableKept<M, R, K>(c: Config<M, R, K>, s: State<M, R, K>, a: Action<M>, n: nat)
    requires Connections(s) && Identifiers(s) && Bounded(s)
    requires Aligned(s, n) && Undiscarded(s, n) && JustApplied(c, s) && Table(c, s, n) && Enabled(c, s, a)
    ensures Table(c, Step(c, s, a), NextFloor(s, a, n))
  {
    if a.ApplyRows? {
      TableByApply(c, s, a, n);
    } else if a.Ack? {
      TableByAck(c, s, a, n);
    } else if a.Accept? {
      TableByAccept(c, s, a, n);
    } else {
      TableByRest(c, s, a, n);
    }
  }

  lemma OrderedKept<M, R, K>(c: Config<M, R, K>, s: State<M, R, K>, a: Action<M>, n: nat)
    requires Ordered(c, s, n) && Enabled(c, s, a) && c.window <= ReceiveMaximum
    ensures Ordered(c, Step(c, s, a), NextFloor(s, a, n))
  {
    SafeKept(c, s, a);
    AlignedKept(c, s, a, n);
    UndiscardedKept(c, s, a, n);
    if a.Deliver? { RoomByDeliver(c, s, a, n); } else { RoomByRest(c, s, a); }
    JustAppliedKept(c, s, a);
    TableKept(c, s, a, n);
  }

  lemma {:induction false} AlwaysOrdered<M, R, K>(c: Config<M, R, K>, run: seq<Action<M>>) returns (n: nat)
    requires After(c, run).Some? && c.window <= ReceiveMaximum
    ensures Ordered(c, After(c, run).value, n)
    decreases |run|
  {
    if run == [] {
      n := 0;
    } else {
      var before := run[..|run| - 1];
      var m := AlwaysOrdered(c, before);
      OrderedKept(c, After(c, before).value, run[|run| - 1], m);
      n := NextFloor(After(c, before).value, run[|run| - 1], m);
    }
  }

  // ------------------------------------------------------------ main results

  /** Redelivery is invisible: whatever disconnections, restarts and failing
      writes the run contains, once every message is acknowledged the table is
      what applying each message once, in the broker's order, gives. */
  lemma RedeliveryIsInvisible<M, R, K(!new)>(c: Config<M, R, K>, run: seq<Action<M>>)
    requires After(c, run).Some? && c.window <= ReceiveMaximum
    requires var s := After(c, run).value; forall i :: 0 <= i < |s.msgs| ==> i in s.discarded
    ensures var s := After(c, run).value; s.db == Replay(c, s.msgs, Upto(|s.msgs|))
  {
    var n := AlwaysOrdered(c, run);
    var s := After(c, run).value;
    assert n < |s.msgs| ==> n in s.discarded;
    SameTable(c, s.msgs, s.history);
  }

  lemma {:induction false} ReplayAtLeast<M, R, K>(c: Config<M, R, K>, msgs: seq<M>, history: seq<nat>, j: nat, k: K)
    returns (i: nat)
    requires Below(history, |msgs|)
    requires j < |msgs| && Settled(history, j) && Shows(c, msgs, j, k).Some?
    ensures j <= i < |msgs| && Shows(c, msgs, i, k).Some? && Lookup(Replay(c, msgs, history), k) == Shows(c, msgs, i, k)
    decreases |history|
  {
    var last, front := history[|history| - 1], history[..|history| - 1];
    UpsertLookup(c.key, Replay(c, msgs, front), Effective(c, msgs, last), k);
    var p :| 0 <= p < |history| && history[p] == j && forall q :: p < q < |history| ==> history[q] >= j;
    if Shows(c, msgs, last, k).Some? {
      i := last;
    } else {
      assert front[p] == j && forall q :: p < q < |front| ==> front[q] >= j;
      i := ReplayAtLeast(c, msgs, front, j, k);
    }
  }

  /** At any time: every key that an acknowledged message wrote is in the
      table, with the value of that message or of a later one. */
  lemma AcknowledgedRowsAreStored<M, R, K>(c: Config<M, R, K>, run: seq<Action<M>>, j: nat, k: K) returns (i: nat)
    requires After(c, run).Some? && c.window <= ReceiveMaximum && j in After(c, run).value.discarded
    requires j < |After(c, run).value.msgs| && Shows(c, After(c, run).value.msgs, j, k).Some?
    ensures var s := After(c, run).value;
            j <= i < |s.msgs| && Shows(c, s.msgs, i, k).Some? && Lookup(s.db, k) == Shows(c, s.msgs, i, k)
  {
    var n := AlwaysOrdered(c, run);
    var s := After(c, run).value;
    assert Writes(c, s.msgs, j);
    i := ReplayAtLeast(c, s.msgs, s.history, j, k);
  }

  /** Flow control: a broker that respects Receive Maximum never finds the
      delivery queue full, and messages leave its session in order. */
  lemma QueueNeverFull<M, R, K>(c: Config<M, R, K>, run: seq<Action<M>>)
    requires After(c, run).Some? && c.window <= ReceiveMaximum
    ensures var s := After(c, run).value; s.net.Putting? ==> |s.queue| < ReceiveMaximum
    ensures var s := After(c, run).value; forall i, j :: j in s.discarded && 0 <= i < j ==> i in s.discarded
  {
    var n := AlwaysOrdered(c, run);
  }
}

/** When the ingest service can go on. A message on which the writer thread dies,
    because parsing it raises an exception that process does not catch, stops
    delivery for good: neither it nor any later message is ever acknowledged,
    whatever is reconnected or restarted. It is the only such obstacle: from every
    reachable state without such a message there is a way to acknowledge all. */
module DeliveryProgress {
  import opened Common
  import opened Delivery
  import opened DeliverySafety
  import opened DeliveryOrder

  ghost predicate CrashesAt<M, R, K>(c: Config<M, R, K>, msgs: seq<M>, j: nat) {
    j < |msgs| && c.parse(msgs[j]).Crashes?
  }

  /** Nothing at or after a message that ends the writer is ever discarded by the broker. */
  lemma CrashStopsDelivery<M, R, K>(c: Config<M, R, K>, run: seq<Action<M>>, j: nat)
    requires After(c, run).Some? && c.window <= ReceiveMaximum && CrashesAt(c, After(c, run).value.msgs, j)
    ensures forall i :: i in After(c, run).value.discarded ==> i < j
  {
    var n := AlwaysOrdered(c, run);
    if j < n { AcknowledgedIsHandled(c, run, j); }
  }

  // ---------------------------------------------------- a way to acknowledge all

  ghost predicate Reaches<M, R, K>(c: Config<M, R, K>, base: seq<Action<M>>, run: seq<Action<M>>, s: State<M, R, K>) {
    base <= run && After(c, run) == Some(s)
  }

  lemma Then<M, R, K>(c: Config<M, R, K>, base: seq<Action<M>>, run: seq<Action<M>>, s: State<M, R, K>, a: Action<M>)
    returns (run': seq<Action<M>>, s': State<M, R, K>)
    requires Reaches(c, base, run, s) && Enabled(c, s, a)
    ensures run' == run + [a] && s' == Step(c, s, a) && Reaches(c, base, run', s')
  {
    run', s' := run + [a], Step(c, s, a);
    assert run'[..|run'| - 1] == run;
  }

  /** Connected, with nothing under way, and exactly the first n messages discarded. */
  ghost predicate Rested<M, R, K>(s: State<M, R, K>, n: nat) {
    && s.up && !s.lost && s.net.Idle? && s.writer.Waiting? && s.queue == [] && s.inflight == map[] && s.acks == []
    && s.cursor <= n <= |s.msgs| && IsPrefix(s.discarded, n)
  }

  /** The service restarts and connects. */
  lemma Rests<M, R, K>(c: Config<M, R, K>, base: seq<Action<M>>, s: State<M, R, K>, n: nat)
    returns (run: seq<Action<M>>, s': State<M, R, K>)
    requires After(c, base) == Some(s) && n <= |s.msgs| && IsPrefix(s.discarded, n)
    ensures Reaches(c, base, run, s') && Rested(s', n) && s'.msgs == s.msgs
  {
    run, s' := Then(c, base, base, s, Restart);
    run, s' := Then(c, base, run, s', Reconnect);
  }

  /** The next message reaches the writer. */
  lemma Hands<M, R, K>(c: Config<M, R, K>, base: seq<Action<M>>, run: seq<Action<M>>, s: State<M, R, K>, n: nat)
    returns (run': seq<Action<M>>, s': State<M, R, K>)
    requires Reaches(c, base, run, s) && Rested(s, n) && n < |s.msgs| && c.window > 0
    ensures Reaches(c, base, run', s')
    ensures s' == s.(cursor := n + 1, inflight := map[0 := n], queue := [Item(s.connection, n, 0)])
  {
    run', s' := Then(c, base, run, s, Deliver(n, 0));
    run', s' := Then(c, base, run', s', NetRead);
    run', s' := Then(c, base, run', s', NetPut);
  }

  /** The writer handles it. */
  lemma Handles<M, R, K>(c: Config<M, R, K>, base: seq<Action<M>>, run: seq<Action<M>>, s: State<M, R, K>, item: Item)
    returns (run': seq<Action<M>>, s': State<M, R, K>)
    requires Reaches(c, base, run, s) && s.writer.Waiting? && s.queue == [item]
    requires item.index < |s.msgs| && !CrashesAt(c, s.msgs, item.index)
    ensures Reaches(c, base, run', s')
    ensures s' == s.(queue := [], writer := Acking(item), db := s'.db, history := s'.history)
  {
    run', s' := Then(c, base, run, s, Take);
    if s'.writer.Writing? {
      if c.refused(Rows(c, s', item.index)) {
        run', s' := Then(c, base, run', s', Return(Refused));
      } else {
        run', s' := Then(c, base, run', s', ApplyRows);
        run', s' := Then(c, base, run', s', Return(Stored));
      }
    }
  }

  /** Its PUBACK reaches the broker. */
  lemma Acknowledges<M, R, K>(c: Config<M, R, K>, base: seq<Action<M>>, run: seq<Action<M>>, s: State<M, R, K>, n: nat)
    returns (run': seq<Action<M>>, s': State<M, R, K>)
    requires Reaches(c, base, run, s) && s.up && s.writer == Acking(Item(s.connection, n, 0)) && s.acks == []
    requires s.inflight == map[0 := n]
    ensures Reaches(c, base, run', s')
    ensures s' == s.(writer := Waiting, inflight := map[], discarded := s.discarded + {n}, ackLog := s'.ackLog)
  {
    run', s' := Then(c, base, run, s, Ack);
    run', s' := Then(c, base, run', s', ReceiveAck);
    assert s'.acks == [] && s'.inflight == map[];
  }

  lemma Delivers<M, R, K>(c: Config<M, R, K>, base: seq<Action<M>>, run: seq<Action<M>>, s: State<M, R, K>, n: nat)
    returns (run': seq<Action<M>>, s': State<M, R, K>)
    requires Reaches(c, base, run, s) && Rested(s, n) && n < |s.msgs| && c.window > 0 && !CrashesAt(c, s.msgs, n)
    ensures Reaches(c, base, run', s') && Rested(s', n + 1) && s'.msgs == s.msgs
  {
    var t: State<M, R, K>;
    run', t := Hands(c, base, run, s, n);
    run', t := Handles(c, base, run', t, Item(s.connection, n, 0));
    run', s' := Acknowledges(c, base, run', t, n);
    PrefixGrows(s.discarded, n);
  }

  lemma PrefixGrows(discarded: set<nat>, n: nat)
    requires IsPrefix(discarded, n)
    ensures IsPrefix(discarded + {n}, n + 1)
  {
  }

  lemma {:induction false} DeliversAll<M, R, K>(c: Config<M, R, K>, base: seq<Action<M>>, run: seq<Action<M>>,
                                                s: State<M, R, K>, n: nat)
    returns (run': seq<Action<M>>, s': State<M, R, K>)
    requires Reaches(c, base, run, s) && Rested(s, n) && c.window > 0
    requires forall j :: n <= j < |s.msgs| ==> !CrashesAt(c, s.msgs, j)
    ensures Reaches(c, base, run', s') && Rested(s', |s.msgs|) && s'.msgs == s.msgs
    decreases |s.msgs| - n
  {
    run', s' := run, s;
    if n < |s.msgs| {
      run', s' := Delivers(c, base, run, s, n);
      run', s' := DeliversAll(c, base, run', s', n + 1);
    }
  }

  // ------------------------------------------------------ the exact condition

  /** A continuation after which every message of the state is discarded. */
  ghost predicate Clears<M, R, K>(c: Config<M, R, K>, base: seq<Action<M>>, longer: seq<Action<M>>, count: nat) {
    base <= longer && After(c, longer).Some? && forall i: nat :: i < count ==> i in After(c, longer).value.discarded
  }

  lemma {:induction false} MessagesStay<M, R, K>(c: Config<M, R, K>, base: seq<Action<M>>, longer: seq<Action<M>>)
    requires base <= longer && After(c, longer).Some?
    ensures After(c, base).Some? && After(c, base).value.msgs <= After(c, longer).value.msgs
    decreases |longer|
  {
    if |longer| > |base| {
      MessagesStay(c, base, longer[..|longer| - 1]);
      MessagesGrow(c, After(c, longer[..|longer| - 1]).value, longer[|longer| - 1]);
    } else {
      assert longer == base;
    }
  }

  lemma MessagesGrow<M, R, K>(c: Config<M, R, K>, s: State<M, R, K>, a: Action<M>)
    requires Enabled(c, s, a)
    ensures s.msgs <= Step(c, s, a).msgs
  {
    match a {
      case Accept(_) => case Deliver(_, _) => case NetRead => case NetPut => case Drop => case NetLost =>
      case NetDrain => case Reconnect => case ReceiveAck => case Take => case ApplyRows => case Return(_) =>
      case Wake => case Ack => case Restart =>
    }
  }

  lemma ClearedHasNoCrash<M, R, K>(c: Config<M, R, K>, run: seq<Action<M>>, longer: seq<Action<M>>, j: nat)
    requires After(c, run).Some? && c.window <= ReceiveMaximum && j < |After(c, run).value.msgs|
    requires Clears(c, run, longer, |After(c, run).value.msgs|)
    ensures !CrashesAt(c, After(c, run).value.msgs, j)
  {
    MessagesStay(c, run, longer);
    assert j in After(c, longer).value.discarded;
    if CrashesAt(c, After(c, run).value.msgs, j) {
      assert CrashesAt(c, After(c, longer).value.msgs, j);
      CrashStopsDelivery(c, longer, j);
    }
  }

  /** From any reachable state all messages accepted so far can still be
      acknowledged, if and only if none of them ends the writer thread. */
  lemma DeliverableIffNoCrash<M, R, K>(c: Config<M, R, K>, run: seq<Action<M>>)
    requires After(c, run).Some? && 0 < c.window <= ReceiveMaximum
    ensures (exists longer :: Clears(c, run, longer, |After(c, run).value.msgs|))
       <==> (forall j: nat :: !CrashesAt(c, After(c, run).value.msgs, j))
  {
    var s := After(c, run).value;
    if longer :| Clears(c, run, longer, |s.msgs|) {
      forall j: nat
        ensures !CrashesAt(c, s.msgs, j)
      {
        if CrashesAt(c, s.msgs, j) { ClearedHasNoCrash(c, run, longer, j); }
      }
    }
    if forall j: nat :: !CrashesAt(c, s.msgs, j) {
      var n := AlwaysOrdered(c, run);
      var longer, s' := Rests(c, run, s, n);
      longer, s' := DeliversAll(c, run, longer, s', n);
      assert Clears(c, run, longer, |s.msgs|);
    }
  }

  // ---------------------------------------------------------- the retry waits

  /** The writes of the message in hand that have failed. */
  ghost function Failures<M, R, K>(c: Config<M, R, K>, run: seq<Action<M>>): nat
    requires After(c, run).Some?
    decreases |run|
  {
    if run == [] || run[|run| - 1].Take? then 0
    else Failures(c, run[..|run| - 1]) + if run[|run| - 1] == Return(Failed) then 1 else 0
  }

  /** 1, 2, 4, 8, 16 and then 30 seconds. */
  ghost predicate Paced(w: Writer, failures: nat) {
    && (w.Writing? ==> w.delay == Min(Pow2(failures), 30))
    && (w.Sleeping? ==> failures > 0 && w.delay == Min(Pow2(failures - 1), 30))
  }

  lemma StepPaced<M, R, K>(c: Config<M, R, K>, s: State<M, R, K>, a: Action<M>, failures: nat)
    requires Paced(s.writer, failures) && Enabled(c, s, a)
    ensures Paced(Step(c, s, a).writer, if a.Take? then 0 else if a == Return(Failed) then failures + 1 else failures)
  {
    assert Pow2(0) == 1;
    match a {
      case Accept(_) => case Deliver(_, _) => case NetRead => case NetPut => case Drop => case NetLost =>
      case NetDrain => case Reconnect => case ReceiveAck => case Take => case ApplyRows => case Return(_) =>
      case Wake => case Ack => case Restart =>
    }
  }

  /** Over every run, the wait after the n-th failed write of a message is
      min(2^(n - 1), 30) seconds. */
  lemma {:induction false} AlwaysPaced<M, R, K>(c: Config<M, R, K>, run: seq<Action<M>>)
    requires After(c, run).Some?
    ensures Paced(After(c, run).value.writer, Failures(c, run))
    decreases |run|
  {
    if run != [] {
      AlwaysPaced(c, run[..|run| - 1]);
      StepPaced(c, After(c, run[..|run| - 1]).value, run[|run| - 1], Failures(c, run[..|run| - 1]));
    }
  }

  // ------------------------------------------------------ after a lost connection

  /** The failed writes of the message in hand that ended when its connection was
      already known to be lost. */
  ghost function LateFailures<M, R, K>(c: Config<M, R, K>, run: seq<Action<M>>): nat
    requires After(c, run).Some?
    decreases |run|
  {
    if run == [] then 0
    else NextLate(After(c, run[..|run| - 1]).value, run[|run| - 1], LateFailures(c, run[..|run| - 1]))
  }

  ghost function NextLate<M, R, K>(s: State<M, R, K>, a: Action<M>, n: nat): nat {
    if a.Take? then 0
    else if a == Return(Failed) && s.writer.Writing? && s.writer.item.connection < s.connection then n + 1 else n
  }

  ghost predicate Yields<M, R, K>(s: State<M, R, K>, late: nat) {
    && late <= 1 && (s.writer.Writing? ==> late == 0)
    && (s.writer.Sleeping? && late == 1 ==> s.writer.item.connection < s.connection)
  }

  lemma StepYields<M, R, K>(c: Config<M, R, K>, s: State<M, R, K>, a: Action<M>, late: nat)
    requires Yields(s, late) && Enabled(c, s, a)
    ensures Yields(Step(c, s, a), NextLate(s, a, late))
  {
    match a {
      case Accept(_) => case Deliver(_, _) => case NetRead => case NetPut => case Drop => case NetLost =>
      case NetDrain => case Reconnect => case ReceiveAck => case Take => case ApplyRows => case Return(_) =>
      case Wake => case Ack => case Restart =>
    }
  }

  /** Over every run, the writer makes way for the redelivery: at most one write of
      a message fails after its connection was counted as lost, whatever the database
      does. */
  lemma {:induction false} AlwaysYields<M, R, K>(c: Config<M, R, K>, run: seq<Action<M>>)
    requires After(c, run).Some?
    ensures Yields(After(c, run).value, LateFailures(c, run))
    decreases |run|
  {
    if run != [] {
      AlwaysYields(c, run[..|run| - 1]);
      StepYields(c, After(c, run[..|run| - 1]).value, run[|run| - 1], LateFailures(c, run[..|run| - 1]));
    }
  }

  // ------------------------------------------------------------ nothing to write

  /** The writer writes only messages that have rows. */
  ghost predicate WritesRows<M, R, K>(c: Config<M, R, K>, s: State<M, R, K>) {
    s.writer.Writing? || s.writer.Sleeping? ==>
      s.writer.item.index < |s.msgs| && Rows(c, s, s.writer.item.index) != []
  }

  lemma StepWritesRows<M, R, K>(c: Config<M, R, K>, s: State<M, R, K>, a: Action<M>)
    requires WritesRows(c, s) && Enabled(c, s, a)
    ensures WritesRows(c, Step(c, s, a))
  {
    match a {
      case Accept(_) => case Deliver(_, _) => case NetRead => case NetPut => case Drop => case NetLost =>
      case NetDrain => case Reconnect => case ReceiveAck => case Take => case ApplyRows => case Return(_) =>
      case Wake => case Ack => case Restart =>
    }
  }

  /** Over every run, a message without rows, such as an NBIRTH, is acknowledged
      without a write. */
  lemma {:induction false} AlwaysWritesRows<M, R, K>(c: Config<M, R, K>, run: seq<Action<M>>)
    requires After(c, run).Some?
    ensures WritesRows(c, After(c, run).value)
    decreases |run|
  {
    if run != [] {
      AlwaysWritesRows(c, run[..|run| - 1]);
      StepWritesRows(c, After(c, run[..|run| - 1]).value, run[|run| - 1]);
    }
  }
}

/** The delivery protocol of the ingest service: the network thread, the writer
    thread, the broker's persistent session and the database, as one state
    machine. Every critical section and every queue operation is one step. */
module Delivery {
  import opened Common

  /** What parse_message does with a message: an exception `process` catches, an
      exception it does not catch, or the rows to write. */
  datatype Parsed<R> = Rejected | Crashes | Lines(rows: seq<R>)

  /** The message format is a parameter, and so is which rows the database
      refuses for good (HTTP 400). `window` is how many deliveries the broker
      leaves unacknowledged; `key` is the database's (timestamp, device_id). */
  datatype Config<!M, !R, !K> = Config(parse: M -> Parsed<R>, refused: seq<R> -> bool, key: R -> K, window: nat)

  const ReceiveMaximum: nat := 10
  const RetryInitial: nat := 1
  const RetryMax: nat := 30

  /** A delivery: the connection it was submitted in, the position of its
      message in the broker's order, and its packet identifier. */
  datatype Item = Item(connection: nat, index: nat, mid: nat)

  datatype Net = Idle | Reading(index: nat, mid: nat) | Putting(item: Item) | Draining

  datatype Writer =
    | Waiting
    | Writing(item: Item, delay: nat, applied: bool)
    | Sleeping(item: Item, delay: nat)
    | Acking(item: Item)
    | Dead(item: Item)

  /** A call of client.ack: process start, connection, message. */
  datatype AckCall = AckCall(process: nat, connection: nat, index: nat)

  datatype State<M, R, !K> = State(
    // broker session
    msgs: seq<M>, discarded: set<nat>, up: bool, cursor: nat, inflight: map<nat, nat>, acks: seq<nat>,
    // ingest process
    process: nat, lost: bool, connection: nat, queue: seq<Item>, net: Net, writer: Writer,
    // database
    db: map<K, R>,
    // ghost history: messages in the order their rows were applied, and all calls of client.ack
    history: seq<nat>, ackLog: seq<AckCall>)

  datatype Outcome = Stored | Refused | Failed

  datatype Action<M> =
    | Accept(m: M) | Deliver(index: nat, mid: nat) | NetRead | NetPut
    | Drop | NetLost | NetDrain | Reconnect | ReceiveAck
    | Take | ApplyRows | Return(outcome: Outcome) | Wake | Ack | Restart

  // ------------------------------------------------------------- the database

  /** Rows are upserted one by one: the last row with a key wins. */
  function Upsert<R, K>(key: R -> K, db: map<K, R>, rows: seq<R>): map<K, R>
    decreases |rows|
  {
    if rows == [] then db else Upsert(key, db[key(rows[0]) := rows[0]], rows[1..])
  }

  // ---------------------------------------------------------------- the steps

  function Rows<M, R, K>(c: Config<M, R, K>, s: State<M, R, K>, i: nat): seq<R>
    requires i < |s.msgs|
  {
    match c.parse(s.msgs[i]) case Lines(rows) => rows case _ => []
  }

  ghost predicate Below(order: seq<nat>, n: nat) {
    forall i :: 0 <= i < |order| ==> order[i] < n
  }

  predicate HoldsItem(w: Writer) {
    !w.Waiting?
  }

  /** When a step can be taken. */
  predicate Enabled<M, R, K>(c: Config<M, R, K>, s: State<M, R, K>, a: Action<M>) {
    match a
    case Accept(_) => true
    // In the broker's order, every undiscarded message once per connection,
    // under a packet identifier that is not in use (sections 4.4 and 4.6 of MQTT 5.0).
    case Deliver(index, mid) =>
      && s.up && s.net.Idle? && |s.inflight| < c.window && mid !in s.inflight
      && s.cursor <= index < |s.msgs| && index !in s.discarded
      && forall j :: s.cursor <= j < index ==> j in s.discarded
    case NetRead => s.net.Reading?
    case NetPut => s.net.Putting?
    case Drop => s.up
    case NetLost => s.net.Idle? && s.lost
    case NetDrain => s.net.Draining?
    case Reconnect => !s.up && !s.lost && s.net.Idle?
    case ReceiveAck => s.up && s.acks != []
    case Take => s.writer.Waiting? && s.queue != [] && s.queue[0].index < |s.msgs|
    case ApplyRows =>
      && s.writer.Writing? && !s.writer.applied && s.writer.item.index < |s.msgs|
      && !c.refused(Rows(c, s, s.writer.item.index))
    case Return(Stored) => s.writer.Writing? && s.writer.applied
    case Return(Refused) =>
      && s.writer.Writing? && s.writer.item.index < |s.msgs|
      && c.refused(Rows(c, s, s.writer.item.index))
    case Return(Failed) => s.writer.Writing?
    case Wake => s.writer.Sleeping?
    case Ack => s.writer.Acking?
    case Restart => true
  }

  function Step<M, R, K>(c: Config<M, R, K>, s: State<M, R, K>, a: Action<M>): State<M, R, K>
    requires Enabled(c, s, a)
  {
    match a
    case Accept(m) => s.(msgs := s.msgs + [m])
    case Deliver(index, mid) =>
      s.(cursor := index + 1, inflight := s.inflight[mid := index], net := Reading(index, mid))
    // submit: read the connection under the lock, then put_nowait.
    case NetRead => s.(net := Putting(Item(s.connection, s.net.index, s.net.mid)))
    case NetPut =>
      s.(net := Idle, queue := if |s.queue| < ReceiveMaximum then s.queue + [s.net.item] else s.queue)
    // The connection breaks: PUBACKs not yet received are lost with it.
    case Drop => s.(up := false, lost := true, inflight := map[], acks := [])
    // connection_lost: count under the lock, then empty the queue.
    case NetLost => s.(lost := false, connection := s.connection + 1, net := Draining)
    case NetDrain => if s.queue == [] then s.(net := Idle) else s.(queue := s.queue[1..])
    case Reconnect => s.(up := true, cursor := 0)
    case ReceiveAck =>
      var mid := s.acks[0];
      if mid in s.inflight then
        s.(acks := s.acks[1..], inflight := s.inflight - {mid}, discarded := s.discarded + {s.inflight[mid]})
      else s.(acks := s.acks[1..])
    case Take =>
      var item := s.queue[0];
      s.(queue := s.queue[1..],
         writer := match c.parse(s.msgs[item.index])
                   case Rejected => Acking(item)
                   case Crashes => Dead(item)
                   case Lines(rows) => if rows == [] then Acking(item) else Writing(item, RetryInitial, false))
    case ApplyRows =>
      var i := s.writer.item.index;
      s.(db := Upsert(c.key, s.db, Rows(c, s, i)), history := s.history + [i], writer := s.writer.(applied := true))
    case Return(Stored) => s.(writer := Acking(s.writer.item))
    case Return(Refused) => s.(writer := Acking(s.writer.item))
    case Return(Failed) => s.(writer := Sleeping(s.writer.item, s.writer.delay))
    // After the sleep: give up if the connection changed, else try again.
    case Wake =>
      if s.writer.item.connection == s.connection
      then s.(writer := Writing(s.writer.item, Min(s.writer.delay * 2, RetryMax), false))
      else s.(writer := Waiting)
    // ack, under the lock. On a broken connection the PUBACK goes nowhere.
    case Ack =>
      var item := s.writer.item;
      if item.connection == s.connection then
        s.(writer := Waiting, acks := if s.up then s.acks + [item.mid] else s.acks,
           ackLog := s.ackLog + [AckCall(s.process, item.connection, item.index)])
      else s.(writer := Waiting)
    case Restart =>
      s.(up := false, lost := false, inflight := map[], acks := [],
         process := s.process + 1, connection := 0, queue := [], net := Idle, writer := Waiting)
  }

  function Initial<M, R, K>(): State<M, R, K> {
    State([], {}, false, 0, map[], [], 0, false, 0, [], Idle, Waiting, map[], [], [])
  }

  /** The state after a run; None when some action of the run is not possible. */
  function After<M, R, K>(c: Config<M, R, K>, run: seq<Action<M>>): Option<State<M, R, K>>
    decreases |run|
  {
    if run == [] then Some(Initial())
    else
      var before := After(c, run[..|run| - 1]);
      if before.Some? && Enabled(c, before.value, run[|run| - 1])
      then Some(Step(c, before.value, run[|run| - 1])) else None
  }
}

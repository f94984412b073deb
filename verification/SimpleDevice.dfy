/** The simple firmware as interleaved steps: the application thread, the
    measurement thread, and the callbacks of the MQTT helper, which only set bits
    and the pending message identifier. Each atomic operation, queue operation
    and helper call is one step. */
module SimpleDevice {
  import opened Common
  import MS = MeasurementService
  import SB = SimpleBatch
  import SA = SimpleApp
  import O = Outbox

  /** The application thread's next operation; `events` are the bits it woke up with. */
  datatype At =
    | Waiting
    | Collecting(events: set<SA.Bit>)
    | Acking(events: set<SA.Bit>)
    | Checking(events: set<SA.Bit>)
    | Closing(events: set<SA.Bit>)
    | Reposting(events: set<SA.Bit>)
    | Updating(events: set<SA.Bit>)
    | Opening
    | Publishing
    | Claiming(b: MS.Body)
    | Writing(id: nat, b: MS.Body)
    | Written(id: nat, b: MS.Body, ok: bool)

  /** The next operation of the running callback. */
  datatype Callback = NoCallback | UpPost | AckPost | DownClear | DownPost

  datatype Link = Down | Coming | Up

  /** A PUBLISH packet that left the device; `session` counts the helper's connections. */
  datatype Packet = Packet(session: nat, id: nat, b: MS.Body)

  /** Ghost history: readings buffered and removed, the packets whose PUBACKs were
      acted on, the messages acknowledged in this session, the packets written
      and those that have reached the broker. */
  datatype History = History(
    accepted: seq<Measurement>, removed: seq<Measurement>, acked: seq<nat>, acks: seq<MS.Body>,
    wire: seq<Packet>, arrived: seq<nat>)

  datatype State = State(
    app: SA.App, at: At, bits: set<SA.Bit>, queue: seq<Measurement>, measured: bool,
    pending: nat, call: Callback, link: Link, session: nat, h: History)

  datatype Action =
    | Measure(m: Measurement) | PostMeasured | NetworkEvent | Arrive(packet: nat)
    | Wake | Collect | Proceed
    | Check(now: int) | Close(ok: bool) | Repost
    | Update(updatedAt: int, network: bool, connectAt: int) | Open(ok: bool, now: int)
    | Publish(utcMs: uint64) | Claim(id: nat, topicFits: bool) | Write(ok: bool, sent: bool) | Return(now: int)
    | Connack | Disconnected | Puback(id: nat, ok: bool) | CallNext

  const Initial: State :=
    State(SA.Start, Waiting, {}, [], false, 0, NoCallback, Down, 0, History([], [], [], [], [], []))

  ghost predicate Used(s: State, id: nat) {
    exists k :: 0 <= k < |s.h.wire| && SameId(s, k, id)
  }

  ghost predicate SameId(s: State, k: nat, id: nat) {
    k < |s.h.wire| && s.h.wire[k].session == s.session && s.h.wire[k].id == id
  }

  /** A packet of this connection with this identifier has reached the broker. */
  ghost predicate BrokerHas(s: State, id: nat) {
    exists k :: 0 <= k < |s.h.arrived| && SameId(s, s.h.arrived[k], id)
  }

  ghost predicate Enabled(s: State, a: Action) {
    match a
    case Measure(_) => !s.measured
    case PostMeasured => s.measured
    case NetworkEvent => true
    case Arrive(k) => k < |s.h.wire|
    case Wake => s.at.Waiting?
    case Collect => s.at.Collecting? && s.queue != []
    case Proceed => (s.at.Collecting? && s.queue == []) || s.at.Acking?
    case Check(_) => s.at.Checking?
    case Close(_) => s.at.Closing?
    case Repost => s.at.Reposting?
    case Update(_, _, _) => s.at.Updating?
    // The helper accepts a connection request only while it has no connection.
    case Open(ok, _) => s.at.Opening? && (ok ==> s.link.Down?)
    case Publish(_) => s.at.Publishing?
    // Identifiers are non-zero and fresh within a connection (section 2.3.1 of MQTT 3.1.1).
    case Claim(id, _) => s.at.Claiming? && id != 0 && !Used(s, id)
    // A packet leaves only on an open connection; a write may fail although it left.
    case Write(ok, sent) => s.at.Writing? && (ok ==> sent) && (sent ==> s.link.Up?)
    case Return(_) => s.at.Written?
    case Connack => s.call.NoCallback? && s.link.Coming?
    case Disconnected => s.call.NoCallback?
    case Puback(id, _) => s.call.NoCallback? && s.link.Up? && BrokerHas(s, id)
    case CallNext => !s.call.NoCallback?
  }

  // ------------------------------------------------------ application thread

  function Collected(g: SB.Settings, s: State): State
    requires s.queue != []
  {
    var m := s.queue[0];
    s.(queue := s.queue[1..], app := SA.Collected(g, s.app, m),
       h := if |s.app.buffer| < g.capacity then s.h.(accepted := s.h.accepted + [m]) else s.h)
  }

  /** The message whose PUBACK the application waits for. */
  function Outstanding(s: State): MS.Body {
    if s.h.wire == [] then MS.Birth(0, 0) else s.h.wire[|s.h.wire| - 1].b
  }

  /** handle_puback, when the bit was set. */
  function Acked(s: State): State {
    var app := SA.PubackHandled(s.app);
    var n := if s.app.awaiting && s.app.birthAcked then Min(s.app.sentCount, |s.app.buffer|) else 0;
    s.(app := app,
       h := s.h.(removed := s.h.removed + s.app.buffer[..n],
                 acked := if s.app.awaiting && s.h.wire != [] then s.h.acked + [|s.h.wire| - 1] else s.h.acked,
                 acks := if s.app.awaiting then s.h.acks + [Outstanding(s)] else s.h.acks))
  }

  function Updated(s: State, events: set<SA.Bit>, updatedAt: int, network: bool, connectAt: int): State {
    var app := SA.Updated(s.app, events, updatedAt);
    s.(app := app, at := if SA.MayConnect(app, network, connectAt) then Opening else Publishing,
       h := s.h.(acks := if s.app.birthAcked && !app.birthAcked then [] else s.h.acks))
  }

  function Offered(g: SB.Settings, s: State, utcMs: uint64): State {
    match SA.Next(g, s.app, utcMs)
    case None => s.(at := Waiting)
    case Some(b) => s.(app := SA.Counted(s.app, b), at := Claiming(b))
  }

  function Claimed(s: State, id: nat, topicFits: bool): State
    requires s.at.Claiming?
  {
    if topicFits && s.pending == 0 then s.(pending := id, at := Writing(id, s.at.b)) else s.(at := Waiting)
  }

  function WriteStep(s: State, ok: bool, sent: bool): State
    requires s.at.Writing?
  {
    s.(at := Written(s.at.id, s.at.b, ok),
       h := if sent then s.h.(wire := s.h.wire + [Packet(s.session, s.at.id, s.at.b)]) else s.h)
  }

  function Returned(s: State, now: int): State
    requires s.at.Written?
  {
    if s.at.ok then s.(app := SA.Sent(s.app, now), at := Waiting) else s.(pending := 0, at := Waiting)
  }

  function Proceeded(s: State): State {
    match s.at
    case Collecting(events) => s.(at := Acking(events))
    case Acking(events) => (if SA.GotPuback in events then Acked(s) else s).(at := Checking(events))
    case _ => s
  }

  function Checked(s: State, now: int): State
    requires s.at.Checking?
  {
    if SA.Overdue(s.app, now) then s.(app := SA.TimedOut(s.app), at := Closing(s.at.events))
      else s.(at := Updating(s.at.events))
  }

  // --------------------------------------------------------------- callbacks

  function PubackStep(s: State, id: nat, ok: bool): State {
    if ok && s.pending == id then s.(pending := 0, call := AckPost) else s
  }

  function CallStep(s: State): State {
    match s.call
    case NoCallback => s
    case UpPost => s.(bits := s.bits + {SA.WentUp}, call := NoCallback)
    case AckPost => s.(bits := s.bits + {SA.GotPuback}, call := NoCallback)
    case DownClear => s.(pending := 0, call := DownPost)
    case DownPost => s.(bits := s.bits + {SA.WentDown}, call := NoCallback)
  }

  function Step(g: SB.Settings, s: State, a: Action): State
    requires Enabled(s, a)
  {
    match a
    case Measure(m) => if |s.queue| < SA.QueueLength then s.(queue := s.queue + [m], measured := true) else s
    case PostMeasured => s.(bits := s.bits + {SA.NewMeasurement}, measured := false)
    case NetworkEvent => s.(bits := s.bits + {SA.NetworkChanged})
    case Arrive(k) => s.(h := s.h.(arrived := s.h.arrived + [k]))
    case Wake => s.(at := Collecting(s.bits), bits := {})
    case Collect => Collected(g, s)
    case Proceed => Proceeded(s)
    case Check(now) => Checked(s, now)
    case Close(ok) => s.(at := if ok then Updating(s.at.events) else Reposting(s.at.events))
    case Repost => s.(bits := s.bits + {SA.WentDown}, at := Updating(s.at.events))
    case Update(updatedAt, network, connectAt) => Updated(s, s.at.events, updatedAt, network, connectAt)
    case Open(ok, now) =>
      s.(app := SA.Attempted(s.app, ok, now), link := if ok then Coming else s.link, at := Publishing)
    case Publish(utcMs) => Offered(g, s, utcMs)
    case Claim(id, topicFits) => Claimed(s, id, topicFits)
    case Write(ok, sent) => WriteStep(s, ok, sent)
    case Return(now) => Returned(s, now)
    case Connack => s.(link := Up, call := UpPost)
    case Disconnected => s.(link := Down, session := s.session + 1, call := DownClear)
    case Puback(id, ok) => PubackStep(s, id, ok)
    case CallNext => CallStep(s)
  }

  ghost function After(g: SB.Settings, run: seq<Action>): Option<State>
    decreases |run|
  {
    if run == [] then Some(Initial)
    else
      var before := After(g, run[..|run| - 1]);
      if before.Some? && Enabled(before.value, run[|run| - 1])
      then Some(Step(g, before.value, run[|run| - 1])) else None
  }

  // --------------------------------------------------------- harmful PUBACKs

  /** A PUBACK of a packet whose write reports failure, taken before the failed
      call clears the pending identifier. */
  predicate Premature(s: State, a: Action) {
    a.Puback? && a.ok && s.at.Written? && !s.at.ok && s.pending == a.id
  }

  /** It does harm unless the loop is about to learn of a disconnect. */
  predicate Harmful(s: State, a: Action) {
    Premature(s, a) && SA.WentDown !in s.bits
  }

  /** No step after the first n does harm. */
  ghost predicate HarmlessFrom(g: SB.Settings, n: nat, run: seq<Action>)
    requires After(g, run).Some?
    decreases |run|
  {
    |run| <= n || (&& HarmlessFrom(g, n, run[..|run| - 1])
                   && !Harmful(After(g, run[..|run| - 1]).value, run[|run| - 1]))
  }

  ghost predicate Harmless(g: SB.Settings, run: seq<Action>)
    requires After(g, run).Some?
  {
    HarmlessFrom(g, 0, run)
  }

  // ---------------------------------------------------------- the invariant

  /** A PUBACK the application has not acted on. */
  predicate Evidence(s: State) {
    SA.GotPuback in s.bits || s.call.AckPost? || InEvents(s)
  }

  predicate InEvents(s: State) {
    (s.at.Collecting? || s.at.Acking?) && SA.GotPuback in s.at.events
  }

  /** The application has handed a message over and not given it up. */
  predicate Awaited(s: State) {
    s.app.awaiting || (s.at.Written? && s.at.ok)
  }

  /** The last packet written. */
  ghost predicate LastIs(s: State, id: nat) {
    s.h.wire != [] && s.h.wire[|s.h.wire| - 1].id == id && s.h.wire[|s.h.wire| - 1].session == s.session
  }

  ghost predicate LastArrived(s: State) {
    s.h.wire != [] && exists k :: 0 <= k < |s.h.arrived| && s.h.arrived[k] == |s.h.wire| - 1
  }

  /** What a message is while the application waits for it. */
  ghost predicate Carries(app: SA.App, b: MS.Body) {
    if app.birthAcked then 0 < app.sentCount <= |app.buffer| && b == MS.Data(app.current, app.buffer[..app.sentCount])
    else b.Birth? && b.bdSeq == app.bdSeq
  }

  /** The thread is between waking up and update_connection. */
  predicate BeforeUpdate(at: At) {
    at.Collecting? || at.Acking? || at.Checking? || at.Closing? || at.Reposting? || at.Updating?
  }

  predicate Offering(at: At) {
    at.Claiming? || at.Writing? || at.Written?
  }

  ghost predicate Thread(s: State) {
    && (s.app.awaiting ==> s.app.mqtt.Connected? && !Offering(s.at))
    && (Offering(s.at) ==> s.app.mqtt.Connected? && Carries(s.app, s.at.b))
    && (s.at.Opening? ==> s.app.mqtt.Idle?)
    && (s.at.Closing? || s.at.Reposting? ==> s.app.mqtt.Disconnecting?)
    && (Awaited(s) ==> s.h.wire != [] && Carries(s.app, Outstanding(s)))
  }

  /** The pending identifier is not yet known to be that of the last packet. */
  predicate Unsent(at: At) {
    at.Writing? || (at.Written? && !at.ok)
  }

  ghost predicate Ids(s: State) {
    && (forall k :: 0 <= k < |s.h.wire| ==> s.h.wire[k].session <= s.session && s.h.wire[k].id != 0)
    && (forall j, k :: 0 <= j < k < |s.h.wire| && s.h.wire[j].session == s.h.wire[k].session ==>
       s.h.wire[j].id != s.h.wire[k].id)
    && (s.at.Writing? ==> s.at.id != 0 && !Used(s, s.at.id))
  }

  /** No packet belongs to the present connection. */
  ghost predicate FreshSession(s: State) {
    forall k :: 0 <= k < |s.h.wire| ==> s.h.wire[k].session < s.session
  }

  /** The pending identifier is that of the message being written, or of the
      last packet, and a connected application waits for that one. */
  ghost predicate Pending(s: State) {
    && (Unsent(s.at) ==> s.pending == s.at.id || s.pending == 0)
    && (s.pending != 0 && !s.call.DownClear? && !Unsent(s.at) ==> LastIs(s, s.pending))
    && (s.pending != 0 && !s.call.DownClear? && !Unsent(s.at) && (s.app.mqtt.Connecting? || s.app.mqtt.Connected?) ==>
       Awaited(s))
  }

  ghost predicate Connections(s: State) {
    && (s.call.DownClear? || s.call.DownPost? ==> !s.link.Up?)
    && (s.call.AckPost? ==> s.link.Up?)
    && (!s.link.Up? ==> FreshSession(s))
    && (s.app.mqtt.Connecting? ==>
       FreshSession(s) && !s.call.AckPost? && (BeforeUpdate(s.at) ==> SA.GotPuback !in s.bits))
  }

  /** At most one PUBACK is not acted on; it is for the awaited message, or nothing
      is awaited and nothing can be published before it has been seen, or before
      the disconnect has. */
  ghost predicate Acks(s: State) {
    && (Evidence(s) ==> s.pending == 0)
    && (SA.GotPuback in s.bits ==> !s.call.AckPost? && !InEvents(s)) && (s.call.AckPost? ==> !InEvents(s))
    && (Evidence(s) && Awaited(s) ==> LastArrived(s))
    && (Evidence(s) && s.app.mqtt.Connected? ==> Awaited(s) || Ending(s))
  }

  /** The loop will see a disconnect before it publishes anything. */
  predicate Ending(s: State) {
    || ((s.at.Waiting? || s.at.Written?) && SA.WentDown in s.bits)
    || (BeforeUpdate(s.at) && SA.WentDown in s.at.events)
  }

  ghost predicate Sound(s: State) {
    Thread(s) && Ids(s) && Pending(s) && Connections(s) && Acks(s)
  }

  // ------------------------------------------------------------- the steps

  /** The callbacks and the other threads. */
  predicate Elsewhere(a: Action) {
    || a.Measure? || a.PostMeasured? || a.NetworkEvent? || a.Arrive?
    || a.Connack? || a.Disconnected? || a.Puback? || a.CallNext?
  }

  lemma ThreadElsewhere(g: SB.Settings, s: State, a: Action)
    requires Thread(s) && Enabled(s, a) && Elsewhere(a)
    ensures Thread(Step(g, s, a))
  {
  }

  /** The steps of publish_next. */
  predicate Publishes(a: Action) {
    a.Publish? || a.Claim? || a.Write? || a.Return?
  }

  lemma ThreadPublishes(g: SB.Settings, s: State, a: Action)
    requires SB.ValidSettings(g) && Thread(s) && Enabled(s, a) && Publishes(a)
    ensures Thread(Step(g, s, a))
  {
    match a {
      case Publish(_) => case Claim(_, _) => case Write(_, _) => case Return(_) =>
    }
  }

  lemma ThreadHere(g: SB.Settings, s: State, a: Action)
    requires SB.ValidSettings(g) && Thread(s) && Enabled(s, a) && !Elsewhere(a)
    ensures Thread(Step(g, s, a))
  {
    if Publishes(a) {
      ThreadPublishes(g, s, a);
    } else {
      match a {
        case Wake => case Collect => case Proceed => case Check(_) => case Close(_) => case Repost =>
        case Update(_, _, _) => case Open(_, _) =>
      }
    }
  }

  lemma IdsStay(g: SB.Settings, s: State, a: Action)
    requires Sound(s) && Enabled(s, a)
    ensures Ids(Step(g, s, a))
  {
    match a {
      case Write(ok, sent) => WriteIds(s, ok, sent);
      case Disconnected => NoneUsed(s, Step(g, s, a));
      case Claim(id, topicFits) => ClaimIds(s, id, topicFits);
      case _ => SameWire(s, Step(g, s, a));
    }
  }

  lemma WriteIds(s: State, ok: bool, sent: bool)
    requires Ids(s) && s.at.Writing?
    ensures Ids(WriteStep(s, ok, sent))
  {
    var s' := WriteStep(s, ok, sent);
    forall k | 0 <= k < |s.h.wire| && s.h.wire[k].session == s.session
      ensures s.h.wire[k].id != s.at.id
    {
      assert !SameId(s, k, s.at.id);
    }
    if !sent { SameWire(s, s'); }
  }

  lemma SameWire(s: State, s': State)
    requires Ids(s) && s'.h.wire == s.h.wire && s'.session == s.session
    requires (s'.at.Writing? ==> s.at.Writing? && s'.at.id == s.at.id)
    ensures Ids(s')
  {
    forall k, id | SameId(s', k, id)
      ensures SameId(s, k, id)
    {
    }
  }

  lemma ClaimIds(s: State, id: nat, topicFits: bool)
    requires Ids(s) && s.at.Claiming? && id != 0 && !Used(s, id)
    ensures Ids(Claimed(s, id, topicFits))
  {
    forall k | SameId(Claimed(s, id, topicFits), k, id)
      ensures SameId(s, k, id)
    {
    }
  }

  lemma NoneUsed(s: State, s': State)
    requires Ids(s) && s'.h.wire == s.h.wire && s'.session == s.session + 1 && s'.at == s.at
    ensures Ids(s') && FreshSession(s')
  {
  }

  lemma PendingElsewhere(g: SB.Settings, s: State, a: Action)
    requires Sound(s) && Enabled(s, a) && Elsewhere(a)
    ensures Pending(Step(g, s, a))
  {
  }

  lemma PendingHere(g: SB.Settings, s: State, a: Action)
    requires Sound(s) && Enabled(s, a) && !Elsewhere(a)
    ensures Pending(Step(g, s, a))
  {
  }

  lemma ConnectionsElsewhere(g: SB.Settings, s: State, a: Action)
    requires Sound(s) && Enabled(s, a) && Elsewhere(a)
    ensures Connections(Step(g, s, a))
  {
  }

  lemma ConnectionsHere(g: SB.Settings, s: State, a: Action)
    requires Sound(s) && Enabled(s, a) && !Elsewhere(a)
    ensures Connections(Step(g, s, a))
  {
  }

  lemma ArriveAcks(s: State, k: nat)
    requires Acks(s)
    ensures Acks(s.(h := s.h.(arrived := s.h.arrived + [k])))
  {
    var s' := s.(h := s.h.(arrived := s.h.arrived + [k]));
    if LastArrived(s) {
      var n :| 0 <= n < |s.h.arrived| && s.h.arrived[n] == |s.h.wire| - 1;
      assert s'.h.arrived[n] == |s'.h.wire| - 1;
    }
  }

  /** The packet whose PUBACK is taken is the last one written. */
  lemma PubackAcks(s: State, id: nat, ok: bool)
    requires Thread(s) && Ids(s) && Pending(s) && Acks(s) && s.call.NoCallback? && BrokerHas(s, id)
    requires !Harmful(s, Puback(id, ok))
    ensures Acks(PubackStep(s, id, ok))
  {
    var n :| 0 <= n < |s.h.arrived| && SameId(s, s.h.arrived[n], id);
    var k := s.h.arrived[n];
    assert id != 0 && SameId(s, k, id) && Used(s, id);
    if ok && s.pending == id && !Premature(s, Puback(id, ok)) {
      assert LastIs(s, id) && k == |s.h.wire| - 1;
    }
  }

  lemma AcksElsewhere(g: SB.Settings, s: State, a: Action)
    requires Sound(s) && Enabled(s, a) && !Harmful(s, a) && Elsewhere(a)
    ensures Acks(Step(g, s, a))
  {
    match a {
      case Arrive(k) => ArriveAcks(s, k);
      case Puback(id, ok) => PubackAcks(s, id, ok);
      case Measure(_) => case PostMeasured => case NetworkEvent => case Connack => case Disconnected => case CallNext =>
    }
  }

  predicate Offers(a: Action) {
    a.Open? || a.Publish? || a.Claim? || a.Write? || a.Return?
  }

  lemma AcksOffering(g: SB.Settings, s: State, a: Action)
    requires Sound(s) && Enabled(s, a) && Offers(a)
    ensures Acks(Step(g, s, a))
  {
    match a {
      case Open(_, _) => case Publish(_) => case Claim(_, _) => case Write(_, _) => case Return(_) =>
    }
  }

  lemma AcksHere(g: SB.Settings, s: State, a: Action)
    requires Sound(s) && Enabled(s, a) && !Elsewhere(a) && !Offers(a)
    ensures Acks(Step(g, s, a))
  {
    match a {
      case Wake => case Collect => case Proceed => case Check(_) => case Close(_) => case Repost =>
      case Update(_, _, _) =>
    }
  }

  lemma StepKeepsSound(g: SB.Settings, s: State, a: Action)
    requires SB.ValidSettings(g) && Sound(s) && Enabled(s, a) && !Harmful(s, a)
    ensures Sound(Step(g, s, a))
  {
    IdsStay(g, s, a);
    if Elsewhere(a) {
      ThreadElsewhere(g, s, a);
      PendingElsewhere(g, s, a);
      ConnectionsElsewhere(g, s, a);
      AcksElsewhere(g, s, a);
    } else {
      ThreadHere(g, s, a);
      PendingHere(g, s, a);
      ConnectionsHere(g, s, a);
      if Offers(a) { AcksOffering(g, s, a); } else { AcksHere(g, s, a); }
    }
  }

  lemma {:induction false} AlwaysSound(g: SB.Settings, run: seq<Action>)
    requires SB.ValidSettings(g) && After(g, run).Some? && Harmless(g, run)
    ensures Sound(After(g, run).value)
    decreases |run|
  {
    if run != [] {
      AlwaysSound(g, run[..|run| - 1]);
      StepKeepsSound(g, After(g, run[..|run| - 1]).value, run[|run| - 1]);
    }
  }

  // ------------------------------------------------------------ conservation

  function ReadingsOf(wire: seq<Packet>, k: nat): seq<Measurement> {
    if k < |wire| && wire[k].b.Data? then wire[k].b.readings else []
  }

  /** The readings of these packets, in order. */
  function Readings(wire: seq<Packet>, packets: seq<nat>): seq<Measurement> {
    if packets == [] then [] else Readings(wire, packets[..|packets| - 1]) + ReadingsOf(wire, packets[|packets| - 1])
  }

  lemma {:induction false} ReadingsKept(wire: seq<Packet>, wire': seq<Packet>, packets: seq<nat>)
    requires wire <= wire' && forall i :: 0 <= i < |packets| ==> packets[i] < |wire|
    ensures Readings(wire', packets) == Readings(wire, packets)
  {
    if packets != [] { ReadingsKept(wire, wire', packets[..|packets| - 1]); }
  }

  ghost predicate Arrived(arrived: seq<nat>, k: nat) {
    exists n :: 0 <= n < |arrived| && arrived[n] == k
  }

  ghost predicate AllArrived(h: History) {
    forall i :: 0 <= i < |h.acked| ==> h.acked[i] < |h.wire| && Arrived(h.arrived, h.acked[i])
  }

  ghost predicate Conserved(g: SB.Settings, s: State) {
    && s.h.accepted == s.h.removed + s.app.buffer && |s.app.buffer| <= g.capacity
    && s.h.removed == Readings(s.h.wire, s.h.acked)
    && AllArrived(s.h)
  }

  ghost predicate Session(s: State) {
    && O.Numbered(s.h.acks) && (s.app.birthAcked <==> s.h.acks != [])
    && (s.h.acks != [] ==> s.app.current == |s.h.acks| % 256)
  }

  lemma AckedSession(s: State, b: MS.Body)
    requires Session(s) && s.app.awaiting && b == Outstanding(s) && Carries(s.app, b)
    ensures Session(Acked(s))
  {
    var s' := Acked(s);
    assert s'.h.acks == s.h.acks + [b];
    if s.app.birthAcked { assert b.current == |s.h.acks| % 256; }
  }

  /** Acting on a PUBACK removes exactly the readings of the packet it acknowledges. */
  lemma AckedRemoves(s: State, b: MS.Body)
    requires s.app.awaiting && s.h.wire != [] && b == Outstanding(s) && Carries(s.app, b)
    ensures s.app.buffer == ReadingsOf(s.h.wire, |s.h.wire| - 1) + Acked(s).app.buffer
    ensures Acked(s).h.removed == s.h.removed + ReadingsOf(s.h.wire, |s.h.wire| - 1)
    ensures Acked(s).h.acked == s.h.acked + [|s.h.wire| - 1]
  {
    if s.app.birthAcked { assert s.app.buffer == s.app.buffer[..s.app.sentCount] + s.app.buffer[s.app.sentCount..]; }
  }

  lemma ReadingsAppend(wire: seq<Packet>, packets: seq<nat>, k: nat)
    ensures Readings(wire, packets + [k]) == Readings(wire, packets) + ReadingsOf(wire, k)
  {
    assert (packets + [k])[..|packets|] == packets;
  }

  lemma ArrivedAppend(h: History, h': History, k: nat)
    requires AllArrived(h) && k < |h.wire| && Arrived(h.arrived, k)
    requires h'.wire == h.wire && h'.arrived == h.arrived && h'.acked == h.acked + [k]
    ensures AllArrived(h')
  {
  }

  lemma RemovalConserves(g: SB.Settings, s: State, s': State, k: nat)
    requires Conserved(g, s) && k < |s.h.wire| && Arrived(s.h.arrived, k)
    requires s'.h.wire == s.h.wire && s'.h.arrived == s.h.arrived && s'.h.accepted == s.h.accepted
    requires s.app.buffer == ReadingsOf(s.h.wire, k) + s'.app.buffer
    requires s'.h.removed == s.h.removed + ReadingsOf(s.h.wire, k) && s'.h.acked == s.h.acked + [k]
    ensures Conserved(g, s')
  {
    var gone := ReadingsOf(s.h.wire, k);
    ReadingsAppend(s.h.wire, s.h.acked, k);
    ArrivedAppend(s.h, s'.h, k);
    assert s.h.removed + (gone + s'.app.buffer) == (s.h.removed + gone) + s'.app.buffer;
  }

  lemma AckedConserves(g: SB.Settings, s: State)
    requires Thread(s) && Acks(s) && Evidence(s) && Conserved(g, s) && Session(s)
    ensures Conserved(g, Acked(s)) && Session(Acked(s))
  {
    if s.app.awaiting {
      var b := Outstanding(s);
      AckedSession(s, b);
      AckedRemoves(s, b);
      assert Arrived(s.h.arrived, |s.h.wire| - 1);
      RemovalConserves(g, s, Acked(s), |s.h.wire| - 1);
    } else {
      assert s.h.removed + [] == s.h.removed;
      HistoryStays(g, s, Acked(s));
    }
  }

  lemma HistoryStays(g: SB.Settings, s: State, s': State)
    requires Conserved(g, s) && s'.app.buffer == s.app.buffer && s'.h.accepted == s.h.accepted
    requires s'.h.removed == s.h.removed
    requires s'.h.acked == s.h.acked && s.h.wire <= s'.h.wire && s.h.arrived <= s'.h.arrived
    ensures Conserved(g, s')
  {
    ReadingsKept(s.h.wire, s'.h.wire, s.h.acked);
    forall i | 0 <= i < |s.h.acked|
      ensures Arrived(s'.h.arrived, s'.h.acked[i])
    {
      var n :| 0 <= n < |s.h.arrived| && s.h.arrived[n] == s.h.acked[i];
      assert s'.h.arrived[n] == s.h.acked[i];
    }
  }

  lemma StepConserves(g: SB.Settings, s: State, a: Action)
    requires Sound(s) && Conserved(g, s) && Session(s) && Enabled(s, a)
    ensures Conserved(g, Step(g, s, a)) && Session(Step(g, s, a))
  {
    match a {
      case Collect => CollectConserves(g, s);
      case Proceed => ProceedConserves(g, s);
      case _ => OthersConserve(g, s, a);
    }
  }

  lemma CollectConserves(g: SB.Settings, s: State)
    requires Conserved(g, s) && Session(s) && s.queue != []
    ensures Conserved(g, Collected(g, s)) && Session(Collected(g, s))
  {
  }

  lemma ProceedConserves(g: SB.Settings, s: State)
    requires Thread(s) && Acks(s) && Conserved(g, s) && Session(s)
    ensures Conserved(g, Proceeded(s)) && Session(Proceeded(s))
  {
    match s.at {
      case Acking(events) =>
        if SA.GotPuback in events {
          AckedConserves(g, s);
          HistoryStays(g, Acked(s), Acked(s).(at := Checking(events)));
        } else {
          HistoryStays(g, s, s.(at := Checking(events)));
        }
      case _ => HistoryStays(g, s, Proceeded(s));
    }
  }

  lemma OthersConserve(g: SB.Settings, s: State, a: Action)
    requires Conserved(g, s) && Session(s) && Enabled(s, a) && !a.Collect? && !a.Proceed?
    ensures Conserved(g, Step(g, s, a)) && Session(Step(g, s, a))
  {
    HistoryStays(g, s, Step(g, s, a));
  }

  lemma {:induction false} AlwaysConserved(g: SB.Settings, run: seq<Action>)
    requires SB.ValidSettings(g) && After(g, run).Some? && Harmless(g, run)
    ensures Conserved(g, After(g, run).value) && Session(After(g, run).value)
    decreases |run|
  {
    if run != [] {
      AlwaysConserved(g, run[..|run| - 1]);
      AlwaysSound(g, run[..|run| - 1]);
      StepConserves(g, After(g, run[..|run| - 1]).value, run[|run| - 1]);
    }
  }

  // ------------------------------------------------------- what this means

  /** The last packet written is what the application waits for: once the NBIRTH is
      acknowledged the NDATA of the first sentCount readings, before that the NBIRTH. */
  ghost predicate WaitsForLast(s: State) {
    && s.h.wire != []
    && if s.app.birthAcked
       then 0 < s.app.sentCount <= |s.app.buffer|
            && s.h.wire[|s.h.wire| - 1].b == MS.Data(s.app.current, s.app.buffer[..s.app.sentCount])
       else s.h.wire[|s.h.wire| - 1].b.Birth?
  }

  lemma WaitsForItsMessage(g: SB.Settings, run: seq<Action>)
    requires SB.ValidSettings(g) && After(g, run).Some? && Harmless(g, run) && After(g, run).value.app.awaiting
    ensures WaitsForLast(After(g, run).value)
  {
    AlwaysSound(g, run);
    AwaitedIsLast(After(g, run).value);
  }

  lemma AwaitedIsLast(s: State)
    requires Thread(s) && s.app.awaiting
    ensures WaitsForLast(s)
  {
    assert Carries(s.app, Outstanding(s));
  }

  /** Every reading accepted is buffered, or was removed with an NDATA that has
      reached the broker, in order. */
  lemma Conservation(g: SB.Settings, run: seq<Action>)
    requires SB.ValidSettings(g) && After(g, run).Some? && Harmless(g, run)
    ensures var s := After(g, run).value;
            && s.h.accepted == Readings(s.h.wire, s.h.acked) + s.app.buffer && |s.app.buffer| <= g.capacity
            && forall i :: 0 <= i < |s.h.acked| ==> s.h.acked[i] < |s.h.wire| && Arrived(s.h.arrived, s.h.acked[i])
  {
    AlwaysConserved(g, run);
  }

  /** The buffer keeps all it has, or loses exactly the readings of the awaited
      NDATA, which has reached the broker. */
  ghost predicate RemovesOnlyAcked(s: State, s': State) {
    || s.app.buffer <= s'.app.buffer
    || (&& s.app.awaiting && s.app.birthAcked && s.h.wire != [] && Arrived(s.h.arrived, |s.h.wire| - 1)
        && s.app.buffer == ReadingsOf(s.h.wire, |s.h.wire| - 1) + s'.app.buffer)
  }

  /** Late, coalesced and duplicate bits remove nothing. */
  lemma OnlyItsPubackRemoves(g: SB.Settings, run: seq<Action>, a: Action)
    requires SB.ValidSettings(g) && After(g, run).Some? && Harmless(g, run) && Enabled(After(g, run).value, a)
    ensures RemovesOnlyAcked(After(g, run).value, Step(g, After(g, run).value, a))
  {
    AlwaysSound(g, run);
    if a == Proceed { ProceedRemoves(After(g, run).value); } else { OthersRemoveNothing(g, After(g, run).value, a); }
  }

  lemma OthersRemoveNothing(g: SB.Settings, s: State, a: Action)
    requires Enabled(s, a) && !a.Proceed?
    ensures s.app.buffer <= Step(g, s, a).app.buffer
  {
  }

  lemma ProceedRemoves(s: State)
    requires Thread(s) && Acks(s)
    ensures RemovesOnlyAcked(s, Proceeded(s))
  {
    if s.at.Acking? && SA.GotPuback in s.at.events && s.app.awaiting {
      AckedRemoves(s, Outstanding(s));
      assert Arrived(s.h.arrived, |s.h.wire| - 1);
    }
  }

  // ---------------------------------------------------------- the refinement

  function OutboxOf(s: State): O.Outbox {
    O.Outbox(s.h.accepted, |s.h.removed|, s.h.acks)
  }

  lemma ProceedRefines(g: SB.Settings, s: State)
    requires Thread(s) && Acks(s) && Conserved(g, s) && Session(s)
    ensures O.Next(OutboxOf(s), OutboxOf(Proceeded(s)))
  {
    if s.at.Acking? && SA.GotPuback in s.at.events && s.app.awaiting {
      var b := Outstanding(s);
      assert Carries(s.app, b);
      AckedRemoves(s, b);
      if s.app.birthAcked {
        assert s.app.buffer[..s.app.sentCount] == s.h.accepted[|s.h.removed|..|s.h.removed| + s.app.sentCount];
      }
      assert O.Acknowledges(OutboxOf(s), OutboxOf(Proceeded(s)), b);
    } else {
      assert s.h.removed + [] == s.h.removed;
    }
  }

  lemma OthersRefine(g: SB.Settings, s: State, a: Action)
    requires Enabled(s, a) && !a.Proceed?
    ensures O.Next(OutboxOf(s), OutboxOf(Step(g, s, a)))
  {
  }

  /** Every step of the simple firmware is a step of the same outbox. */
  lemma StepRefines(g: SB.Settings, run: seq<Action>, a: Action)
    requires SB.ValidSettings(g) && After(g, run).Some? && Harmless(g, run) && Enabled(After(g, run).value, a)
    ensures O.Next(OutboxOf(After(g, run).value), OutboxOf(Step(g, After(g, run).value, a)))
  {
    AlwaysSound(g, run);
    AlwaysConserved(g, run);
    if a == Proceed { ProceedRefines(g, After(g, run).value); } else { OthersRefine(g, After(g, run).value, a); }
  }

  ghost function OutboxRun(g: SB.Settings, run: seq<Action>): (states: seq<O.Outbox>)
    requires After(g, run).Some?
    ensures |states| == |run| + 1 && states[|run|] == OutboxOf(After(g, run).value)
    decreases |run|
  {
    if run == [] then [OutboxOf(Initial)] else OutboxRun(g, run[..|run| - 1]) + [OutboxOf(After(g, run).value)]
  }

  lemma {:induction false} RunRefines(g: SB.Settings, run: seq<Action>)
    requires SB.ValidSettings(g) && After(g, run).Some? && Harmless(g, run)
    ensures O.Run(OutboxRun(g, run))
    decreases |run|
  {
    if run != [] {
      RunRefines(g, run[..|run| - 1]);
      StepRefines(g, run[..|run| - 1], run[|run| - 1]);
    }
  }
}

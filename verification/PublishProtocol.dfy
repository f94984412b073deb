/** The publish protocol of the full firmware's MQTT client, as interleaved
    steps of three threads: the caller of aitsm_mqtt_publish_payload on the
    system work queue, the sender on the MQTT work queue (first write,
    retransmission, completion of the write), and the PUBACK callback. Each
    atomic operation and each lock region is one step. The rest of the firmware
    may at any moment change LTE, the connection or the generation. */
module PublishProtocol {
  import opened Common
  import MC = MqttClient

  datatype Message<T, P> = Message(topic: T, payload: P)

  /** aitsm_mqtt_publish_payload: the operation it is about to do. */
  datatype CallerAt = Lte | Helper | Cas | Active | Release | Payload | Topic | Generation | Token | Submit

  datatype Caller<T, P> = NoCall | Call(at: CallerAt, m: Message<T, P>)

  datatype RetryAt = Own | Id | Job | Stamp | LteUp | HelperUp | Check

  /** mqtt_publish_work_handler, mqtt_puback_timeout_handler, send_copied_payload and publish_sent. */
  datatype Sender =
    | Rest
    | Lock(job: nat)
    | Stale
    | Start(id: nat, job: nat, token: nat, dup: bool)
    | Writing(id: nat, job: nat, token: nat)
    | Written(id: nat, job: nat, token: nat, ok: bool)
    | Failing(token: nat)
    | Finish
    | Retry(at: RetryAt, id: nat, job: nat, token: nat)

  /** A PUBLISH packet as the socket write reads it; `session` counts on_disconnect callbacks. */
  datatype Packet<T, P> = Packet(session: nat, id: nat, token: nat, m: Message<T, P>, dup: bool)

  /** A decided completion; for a PUBACK, of which packet in which session. */
  datatype Done = Done(token: nat, ok: bool, session: nat, id: nat)

  /** Ghost history: what was handed over under each token, the identifier it
      got, the packets written, those that reached the broker, the completions. */
  datatype Log<T, P> = Log(
    submitted: map<nat, Message<T, P>>, ids: map<nat, nat>,
    wire: seq<Packet<T, P>>, arrived: seq<nat>, done: seq<Done>)

  datatype Channel<T, P> = Channel(
    c: MC.Client<T, P>, caller: Caller<T, P>, sender: Sender, posting: Option<(nat, bool)>, session: nat, h: Log<T, P>)
  // ------------------------------------------------------------------- steps

  /** One operation of the caller. */
  function CallerStep<T, P>(ch: Channel<T, P>, ok: bool): Channel<T, P>
    requires ch.caller.Call?
  {
    var c, m := ch.c, ch.caller.m;
    match ch.caller.at
    case Lte => ch.(caller := if c.lte then Call(Helper, m) else NoCall)
    case Helper => ch.(caller := if c.connected then Call(Cas, m) else NoCall)
    case Cas => if c.publishPending then ch.(caller := NoCall)
      else ch.(c := c.(publishPending := true), caller := Call(Active, m))
    case Active => ch.(caller := Call(if c.activeId != 0 then Release else Payload, m))
    case Release => ch.(c := c.(publishPending := false), caller := NoCall)
    case Payload => ch.(c := c.(payload := m.payload), caller := Call(Topic, m))
    case Topic => ch.(c := c.(topic := m.topic), caller := Call(Generation, m))
    case Generation => ch.(c := c.(publishGeneration := c.generation), caller := Call(Token, m))
    case Token =>
      ch.(c := c.(nextToken := c.nextToken + 1, publishToken := c.nextToken + 1),
          h := ch.h.(submitted := ch.h.submitted[c.nextToken + 1 := m]), caller := Call(Submit, m))
    case Submit =>
      if ok then ch.(c := c.(publishWork := true), caller := NoCall)
        else ch.(c := c.(publishPending := false), caller := NoCall)
  }

  function StartJob<T, P>(ch: Channel<T, P>): Channel<T, P> {
    ch.(c := ch.c.(publishWork := false), sender := Lock(ch.c.publishGeneration))
  }

  function StartRetry<T, P>(ch: Channel<T, P>): Channel<T, P> {
    ch.(c := ch.c.(timer := None), sender := Retry(Own, 0, 0, 0))
  }

  /** One operation of the sender outside the retransmission test. */
  function SendStep<T, P>(t: MC.Timing, ch: Channel<T, P>, id: nat, ok: bool): Channel<T, P>
    requires !ch.sender.Rest? && !ch.sender.Retry?
  {
    var c := ch.c;
    match ch.sender
    case Lock(job) =>
      if MC.MayStart(c, job)
      then ch.(c := MC.Start(t, c, job, id), sender := Start(id, job, c.publishToken, false),
               h := ch.h.(ids := ch.h.ids[c.publishToken := id]))
      else ch.(sender := Stale)
    case Stale => ch.(c := c.(publishPending := false), sender := Rest)
    case Start(i, job, token, dup) =>
      ch.(h := ch.h.(wire := ch.h.wire + [Packet(ch.session, i, token, Message(c.topic, c.payload), dup)]),
        sender := Writing(i, job, token))
    case Writing(i, job, token) => ch.(sender := Written(i, job, token, ok))
    case Written(i, job, token, written) =>
      if MC.SendFailed(c, i, job, written)
      then ch.(c := MC.Sent(c, i, job, written), sender := Failing(token),
        h := ch.h.(done := ch.h.done + [Done(token, false, ch.session, i)]))
      else ch.(c := MC.Sent(c, i, job, written), sender := Finish)
    case Failing(_) => ch.(sender := Finish)
    case Finish => ch.(c := c.(publishPending := false), sender := Rest)
  }

  /** One operation of the retransmission test. */
  function RetryStep<T, P>(t: MC.Timing, ch: Channel<T, P>): Channel<T, P>
    requires ch.sender.Retry?
  {
    var c, r := ch.c, ch.sender;
    match r.at
    case Own => if c.publishPending then ch.(sender := Rest)
      else ch.(c := c.(publishPending := true), sender := r.(at := Id))
    case Id => ch.(sender := r.(at := Job, id := c.activeId))
    case Job => ch.(sender := r.(at := Stamp, job := c.activeGeneration))
    case Stamp => ch.(sender := r.(at := LteUp, token := c.activeToken))
    case LteUp => ch.(sender := if r.id != 0 && c.lte then r.(at := HelperUp) else Stale)
    case HelperUp => ch.(sender := if c.connected then r.(at := Check) else Stale)
    case Check =>
      if r.job == c.generation then ch.(c := c.(delay := MC.Lengthened(t, c.delay)),
        sender := Start(r.id, r.job, r.token, true))
      else ch.(sender := Stale)
  }

  /** Up to n operations of the caller with nothing in between; `ok` is the result of the submit. */
  function Calls<T, P>(ch: Channel<T, P>, ok: bool, n: nat): Channel<T, P>
    decreases n
  {
    if n == 0 || ch.caller.NoCall? then ch else Calls(CallerStep(ch, ok), ok, n - 1)
  }

  /** Up to n operations of the sender with nothing in between; `id` is the next
      packet identifier and `ok` the result of the write. */
  function Sends<T, P>(t: MC.Timing, ch: Channel<T, P>, id: nat, ok: bool, n: nat): Channel<T, P>
    decreases n
  {
    if n == 0 || ch.sender.Rest? then ch
    else if ch.sender.Retry? then Sends(t, RetryStep(t, ch), id, ok, n - 1)
    else Sends(t, SendStep(t, ch, id, ok), id, ok, n - 1)
  }

  /** A PUBACK callback's lock region. */
  function PubackStep<T, P>(ch: Channel<T, P>, id: nat, ok: bool): Channel<T, P> {
    if MC.Acknowledges(ch.c, id)
    then ch.(c := MC.Puback(ch.c, id), posting := Some((ch.c.activeToken, ok)),
             h := ch.h.(done := ch.h.done + [Done(ch.c.activeToken, ok, ch.session, id)]))
    else ch
  }

  function Closed<T, P>(ch: Channel<T, P>): Channel<T, P> {
    ch.(c := MC.Closed(ch.c), session := ch.session + 1)
  }

  /** A packet with this identifier, written in this session, has reached the broker. */
  ghost predicate BrokerHas<T, P>(ch: Channel<T, P>, id: nat) {
    exists k :: 0 <= k < |ch.h.arrived| && ArrivedAs(ch, ch.h.arrived[k], id)
  }

  ghost predicate ArrivedAs<T, P>(ch: Channel<T, P>, k: nat, id: nat) {
    k < |ch.h.wire| && ch.h.wire[k].session == ch.session && ch.h.wire[k].id == id
  }

  /** A packet identifier is non-zero and not used before in the session (section 2.3.1 of MQTT 3.1.1). */
  ghost predicate FreshId<T, P>(ch: Channel<T, P>, id: nat) {
    id != 0 && forall k :: 0 <= k < |ch.h.wire| && ch.h.wire[k].session == ch.session ==> ch.h.wire[k].id != id
  }

  /** The steps of the other parts of the firmware: they may clear the active
      publish with a new generation, and set everything that is not the
      protocol's own. */
  ghost predicate Outside<T, P>(ch: Channel<T, P>, ch': Channel<T, P>) {
    && ch'.caller == ch.caller && ch'.sender == ch.sender && ch'.posting == ch.posting && ch'.h == ch.h
    && ch'.session >= ch.session
    && ch'.c.publishPending == ch.c.publishPending && ch'.c.topic == ch.c.topic && ch'.c.payload == ch.c.payload
    && ch'.c.publishGeneration == ch.c.publishGeneration && ch'.c.publishToken == ch.c.publishToken
    && ch'.c.activeGeneration == ch.c.activeGeneration && ch'.c.activeToken == ch.c.activeToken
    && ch'.c.nextToken == ch.c.nextToken && ch'.c.delay == ch.c.delay && ch'.c.publishWork == ch.c.publishWork
    && if ch'.c.generation == ch.c.generation
       then ch'.session == ch.session && ch'.c.activeId == ch.c.activeId && ch'.c.timer == ch.c.timer
       else ch'.c.generation > ch.c.generation && ch'.c.activeId == 0 && ch'.c.timer == None
  }
}

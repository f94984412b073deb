/** The MQTT client of the full firmware. The functions are its critical
    sections and atomic operations on the state as a value; the class runs them
    on its fields in the order of the C functions. A firmware-wide state machine
    (module Device) interleaves the same functions. */
module MqttClient {
  import opened Common

  /** T is the type of topics, P the type of payloads. The three work items and
      the retransmission timer belong to the MQTT work queue. */
  datatype Client<T, P> = Client(
    lte: bool, connected: bool, connectPending: bool,
    generation: nat, connectGeneration: nat,
    publishPending: bool, topic: T, payload: P, publishGeneration: nat, publishToken: nat,
    activeId: nat, activeGeneration: nat, activeToken: nat, nextToken: nat,
    delay: nat, timer: Option<nat>,
    publishWork: bool, connectWork: bool, disconnectWork: bool)

  /** CONFIG_AITSM_MQTT_PUBACK_TIMEOUT_SECONDS and _MAX_DELAY_SECONDS. */
  datatype Timing = Timing(timeout: nat, maxDelay: nat)

  /** The lock region of aitsm_mqtt_disconnect. */
  function Invalidate<T, P>(c: Client<T, P>): Client<T, P> {
    c.(generation := c.generation + 1, activeId := 0, timer := None)
  }

  /** The lock region of mqtt_on_disconnect. */
  function Closed<T, P>(c: Client<T, P>): Client<T, P> {
    c.(connected := false, connectPending := false, activeId := 0, timer := None, generation := c.generation + 1)
  }

  /** The test of mqtt_on_puback, with its compare-and-swap. */
  predicate Acknowledges<T, P>(c: Client<T, P>, id: nat) {
    c.lte && c.activeGeneration == c.generation && c.activeId == id
  }

  /** The lock region of mqtt_on_puback. */
  function Puback<T, P>(c: Client<T, P>, id: nat): Client<T, P> {
    if Acknowledges(c, id) then c.(activeId := 0, timer := None) else c
  }

  predicate MayStart<T, P>(c: Client<T, P>, job: nat) {
    c.lte && c.connected && job == c.generation
  }

  /** The lock region of mqtt_publish_work_handler. */
  function Start<T, P>(t: Timing, c: Client<T, P>, job: nat, id: nat): Client<T, P> {
    if MayStart(c, job)
    then c.(delay := t.timeout, activeGeneration := job, activeToken := c.publishToken, activeId := id)
    else c
  }

  /** publish_sent found the failed write still active: it completes it. */
  predicate SendFailed<T, P>(c: Client<T, P>, id: nat, job: nat, ok: bool) {
    !ok && job == c.generation && c.activeId == id
  }

  /** The lock region of publish_sent. */
  function Sent<T, P>(c: Client<T, P>, id: nat, job: nat, ok: bool): Client<T, P> {
    if SendFailed(c, id, job, ok) then c.(activeId := 0, timer := None)
    else if ok && job == c.generation && c.activeId == id then c.(timer := Some(c.delay))
    else c
  }

  /** MIN(puback_delay_seconds * 2U, max). */
  function Lengthened(t: Timing, delay: nat): nat {
    Min(delay * 2, t.maxDelay)
  }

  /** `publish_token = atomic_inc(&next_publish_token) + 1` with the generation read before it. */
  function Stamp<T, P>(c: Client<T, P>, generation: nat): Client<T, P> {
    c.(publishGeneration := generation, nextToken := c.nextToken + 1, publishToken := c.nextToken + 1)
  }

  /** aitsm_mqtt_publish_payload once the state allows a new publish: the copy is
      made and the token used up even when the work item cannot be submitted. */
  function Taken<T, P>(c: Client<T, P>, topic: T, payload: P, submits: bool): Client<T, P> {
    Stamp(c, c.generation).(
      topic := topic, payload := payload, publishPending := submits, publishWork := c.publishWork || submits)
  }

  /** Nothing is queued, written or waiting for its PUBACK, and there is a connection. */
  predicate MayTake<T, P>(c: Client<T, P>) {
    c.lte && c.connected && !c.publishPending && c.activeId == 0
  }

  /** The timeout handler writes the active publish again. */
  predicate Resends<T, P>(c: Client<T, P>) {
    !c.publishPending && c.activeId != 0 && c.lte && c.connected && c.activeGeneration == c.generation
  }

  /** What the client tells the application about a connection attempt. */
  datatype News = CameUp | Failed

  const TopicSize: nat := 64

  /** The statics of mqtt_client.c. Its functions run here without interference;
      what the application is told is appended to `posted`. */
  class MqttClient {
    const timing: Timing
    const payloadSize: nat
    var c: Client<string, seq<byte>>
    var initialized: bool
    /** Completions given to aitsm_app_post_publish_result. */
    var posted: seq<(nat, bool)>

    constructor (timing: Timing, payloadSize: nat)
      requires timing.timeout <= timing.maxDelay
      ensures this.timing == timing && this.payloadSize == payloadSize && !initialized && posted == []
      ensures c == Client(false, false, false, 0, 0, false, "", [], 0, 0, 0, 0, 0, 0, 0, None, false, false, false)
    {
      this.timing, this.payloadSize, initialized, posted := timing, payloadSize, false, [];
      c := Client(false, false, false, 0, 0, false, "", [], 0, 0, 0, 0, 0, 0, 0, None, false, false, false);
    }

    method Init(password: string, helperError: Option<Errno>) returns (err: Option<Errno>)
      modifies this`initialized
      ensures err == if old(initialized) then Some(EALREADY) else if password == "" then Some(EINVAL) else helperError
      ensures initialized == (old(initialized) || err == None)
    {
      if initialized {
        return Some(EALREADY);
      }
      if password == "" {
        return Some(EINVAL);
      }
      if helperError.Some? {
        return helperError;
      }
      initialized := true;
      return None;
    }

    /** A payload is copied in only while no other publish is queued, written or
        waiting for its PUBACK; a refused call leaves the copy and the token alone.
        `submits` is whether k_work_submit_to_queue succeeds, and EBUSY stands for
        its errors; `token` is what the call writes to its out-parameter. */
    method PublishPayload(topic: string, payload: seq<byte>, submits: bool)
      returns (err: Option<Errno>, token: Option<nat>)
      modifies this`c
      ensures token.Some? <==>
                && payload != [] && 0 < |topic| < 64 && |payload| <= payloadSize && initialized
                && old(c).lte && old(c).connected && !old(c).publishPending && old(c).activeId == 0
      ensures token.Some? ==> token.value == old(c).nextToken + 1 && c == Taken(old(c), topic, payload, submits)
      ensures token.Some? ==>
                c == old(c).(topic := topic, payload := payload, publishGeneration := old(c).generation,
                             nextToken := token.value, publishToken := token.value,
                             publishPending := submits, publishWork := old(c).publishWork || submits)
      ensures token.None? ==> c == old(c)
      ensures err == if payload == [] then Some(EINVAL)
                     else if |topic| == 0 || |topic| >= TopicSize || |payload| > payloadSize then Some(EMSGSIZE)
                     else if !initialized then Some(EAGAIN)
                     else if !old(c).lte || !old(c).connected then Some(ENOTCONN)
                     else if old(c).publishPending || old(c).activeId != 0 || !submits then Some(EBUSY) else None
    {
      token := None;
      if payload == [] {
        return Some(EINVAL), token;
      }
      if |topic| == 0 || |topic| >= TopicSize {
        return Some(EMSGSIZE), token;
      }
      if |payload| > payloadSize {
        return Some(EMSGSIZE), token;
      }
      if !initialized {
        return Some(EAGAIN), token;
      }
      if !c.lte || !c.connected {
        return Some(ENOTCONN), token;
      }
      if c.publishPending {
        return Some(EBUSY), token;
      }
      c := c.(publishPending := true);
      if c.activeId != 0 {
        c := c.(publishPending := false);
        return Some(EBUSY), token;
      }
      c := c.(payload := payload);
      c := c.(topic := topic);
      c := Stamp(c, c.generation);
      token := Some(c.publishToken);
      if !submits {
        c := c.(publishPending := false);
        return Some(EBUSY), token;
      }
      c := c.(publishWork := true);
      return None, token;
    }

    method PublishSent(id: nat, job: nat, token: nat, ok: bool)
      modifies this`c, this`posted
      ensures c == Sent(old(c), id, job, ok).(publishPending := false)
      ensures posted == old(posted) + if SendFailed(old(c), id, job, ok) then [(token, false)] else []
    {
      var failed := SendFailed(c, id, job, ok);
      c := Sent(c, id, job, ok);
      if failed {
        posted := posted + [(token, false)];
      }
      c := c.(publishPending := false);
    }

    /** mqtt_publish_work_handler: `write` is the result of the socket write.
        The packet carries the copied payload and a fresh identifier, and no DUP. */
    method PublishWork(id: nat, write: bool) returns (sent: Option<(nat, string, seq<byte>, bool)>)
      requires id != 0
      modifies this`c, this`posted
      ensures sent.Some? <==> old(c).lte && old(c).connected && old(c).publishGeneration == old(c).generation
      ensures sent.Some? ==> sent.value == (id, old(c).topic, old(c).payload, false)
      ensures c == if sent.None? then old(c).(publishPending := false)
                   else old(c).(publishPending := false, delay := timing.timeout,
                                activeGeneration := old(c).generation, activeToken := old(c).publishToken,
                                activeId := if write then id else 0,
                                timer := if write then Some(timing.timeout) else None)
      ensures posted == old(posted) + if sent.Some? && !write then [(old(c).publishToken, false)] else []
    {
      var job := c.publishGeneration;
      if !MayStart(c, job) {
        c := c.(publishPending := false);
        return None;
      }
      var token := c.publishToken;
      c := Start(timing, c, job, id);
      sent := Some((id, c.topic, c.payload, false));
      PublishSent(id, job, token, write);
    }

    /** mqtt_puback_timeout_handler: the same packet again with DUP, and twice the wait. */
    method PubackTimeout(write: bool) returns (sent: Option<(nat, string, seq<byte>, bool)>)
      modifies this`c, this`posted
      ensures sent.Some? <==>
                && !old(c).publishPending && old(c).activeId != 0 && old(c).lte && old(c).connected
                && old(c).activeGeneration == old(c).generation
      ensures sent.Some? ==> sent.value == (old(c).activeId, old(c).topic, old(c).payload, true)
      ensures var wait := if 2 * old(c).delay <= timing.maxDelay then 2 * old(c).delay else timing.maxDelay;
              c == if sent.None? then old(c)
                   else if write then old(c).(delay := wait, timer := Some(wait))
                   else old(c).(delay := wait, timer := None, activeId := 0)
      ensures posted == old(posted) + if sent.Some? && !write then [(old(c).activeToken, false)] else []
    {
      if c.publishPending {
        return None;
      }
      c := c.(publishPending := true);
      var id, job, token := c.activeId, c.activeGeneration, c.activeToken;
      if id == 0 || !c.lte || !c.connected || job != c.generation {
        c := c.(publishPending := false);
        return None;
      }
      c := c.(delay := Lengthened(timing, c.delay));
      sent := Some((id, c.topic, c.payload, true));
      PublishSent(id, job, token, write);
    }

    /** Only the PUBACK of the active publish of this generation completes it. */
    method OnPuback(id: nat, ok: bool)
      modifies this`c, this`posted
      ensures c == Puback(old(c), id)
      ensures var mine := old(c).lte && old(c).activeGeneration == old(c).generation && old(c).activeId == id;
              && c == (if mine then old(c).(activeId := 0, timer := None) else old(c))
              && posted == old(posted) + if mine then [(old(c).activeToken, ok)] else []
    {
      var token, mine := c.activeToken, Acknowledges(c, id);
      c := Puback(c, id);
      if mine {
        posted := posted + [(token, ok)];
      }
    }

    /** After a disconnect no earlier publish can complete, be resent or be acknowledged. */
    method OnDisconnect()
      modifies this`c
      ensures c == Closed(old(c))
      ensures c == old(c).(connected := false, connectPending := false, activeId := 0, timer := None,
                           generation := old(c).generation + 1)
      ensures forall id :: id != 0 ==> !Acknowledges(c, id)
    {
      c := Closed(c);
    }

    method Disconnect() returns (err: Option<Errno>)
      modifies this`c
      ensures err == if initialized then None else Some(EAGAIN)
      ensures c == if initialized then Invalidate(old(c)).(disconnectWork := true) else old(c)
      ensures initialized ==>
                c == old(c).(activeId := 0, timer := None, generation := old(c).generation + 1, disconnectWork := true)
    {
      if !initialized {
        return Some(EAGAIN);
      }
      c := Invalidate(c);
      c := c.(disconnectWork := true);
      return None;
    }

    method SetLteAvailable(available: bool)
      modifies this`c
      ensures c.lte == available
      ensures c == if available then old(c).(lte := true)
                   else if old(c).lte && initialized then Invalidate(old(c).(lte := false)).(disconnectWork := true)
                   else old(c).(lte := false)
    {
      if available {
        c := c.(lte := true);
      } else if c.lte {
        c := c.(lte := false);
        var err := Disconnect();
      }
    }

    /** At most one connection attempt at a time, and none while connected or
        without LTE; a failed submit lets the next attempt in. */
    method Connect(submits: bool) returns (err: Option<Errno>)
      modifies this`c
      ensures err == if !initialized then Some(EAGAIN) else if !old(c).lte then Some(ENETDOWN)
                     else if old(c).connected || old(c).connectPending then Some(EALREADY)
                     else if !submits then Some(EBUSY) else None
      ensures c == if err == None then old(c).(connectPending := true, connectWork := true) else old(c)
    {
      if !initialized {
        return Some(EAGAIN);
      }
      if !c.lte {
        return Some(ENETDOWN);
      }
      if c.connected || c.connectPending {
        return Some(EALREADY);
      }
      c := c.(connectPending := true);
      if !submits {
        c := c.(connectPending := false);
        return Some(EBUSY);
      }
      c := c.(connectWork := true);
      return None;
    }

    /** mqtt_connect_work_handler: `starts` is whether mqtt_helper_connect succeeds. */
    method ConnectWork(starts: bool) returns (asked: bool, news: Option<News>)
      modifies this`c
      ensures asked == old(c).lte
      ensures news == if asked && !starts then Some(Failed) else None
      ensures c == if !asked then old(c).(connectPending := false)
                   else old(c).(connectGeneration := old(c).generation,
                                connectPending := old(c).connectPending && starts)
    {
      if !c.lte {
        c := c.(connectPending := false);
        return false, None;
      }
      var attempt := c.generation;
      c := c.(connectGeneration := attempt);
      asked, news := true, None;
      if !starts {
        c := c.(connectPending := false);
        if c.lte && attempt == c.generation {
          news := Some(Failed);
        }
      }
    }

    /** mqtt_disconnect_work_handler: whether mqtt_helper_disconnect is called. */
    method DisconnectWork() returns (closes: bool)
      ensures closes == c.connected
    {
      closes := c.connected;
    }

    /** The application hears of a connection only with LTE and if nothing has made
        its attempt void; another one is closed again. */
    method OnConnack(accepted: bool) returns (news: Option<News>)
      requires initialized
      modifies this`c
      ensures var current := old(c).lte && old(c).connectGeneration == old(c).generation;
              && news == (if !current then None else if accepted then Some(CameUp) else Some(Failed))
              && c == if !accepted then old(c).(connectPending := false)
                      else if current then old(c).(connectPending := false, connected := true)
                      else old(c).(connectPending := false, connected := true, disconnectWork := true,
                                   generation := old(c).generation + 1, activeId := 0, timer := None)
    {
      c := c.(connectPending := false);
      if accepted {
        c := c.(connected := true);
        if !c.lte || c.connectGeneration != c.generation {
          var err := Disconnect();
          return None;
        }
        return Some(CameUp);
      }
      if c.lte && c.connectGeneration == c.generation {
        return Some(Failed);
      }
      return None;
    }
  }
}

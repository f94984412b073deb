/** The class DeliveryWorker of the ingest service, method by method. The
    outcomes of the database writes are a parameter; so is how often the network
    thread loses the connection while the writer parses, writes and sleeps. */
module DeliveryWorker {
  import opened Common
  import D = Delivery

  datatype Message<M> = Message(body: M, mid: nat)

  /** One write: how it ends, and how many connections are lost during it and
      during the sleep after a failure. */
  datatype Attempt = Attempt(outcome: D.Outcome, lostWriting: nat, lostAsleep: nat)

  datatype End = Finished | GaveUp | Unfinished

  /** The k-th wait: 1, 2, 4, ... seconds, at most 30. */
  function Backoff(k: nat): nat {
    Min(Pow2(k), 30)
  }

  lemma BackoffDoubles(k: nat)
    ensures Backoff(0) == D.RetryInitial
    ensures Backoff(k + 1) == Min(Backoff(k) * 2, D.RetryMax)
  {
    assert Pow2(0) == 1;
  }

  /** The connection after the first n attempts with their sleeps. */
  function Connection(start: nat, script: seq<Attempt>, n: nat): (r: nat)
    requires n <= |script|
    ensures r >= start
  {
    if n == 0 then start else Connection(start, script, n - 1) + script[n - 1].lostWriting + script[n - 1].lostAsleep
  }

  /** The first n attempts all failed, in the connection of the message. */
  ghost predicate Retried(mine: nat, start: nat, script: seq<Attempt>, n: nat) {
    && n <= |script|
    && (forall i :: 0 <= i < n ==> script[i].outcome == D.Failed)
    && (forall i :: 1 <= i <= n ==> Connection(start, script, i) == mine)
  }

  class Worker<M(!new), R(!new)> {
    const parse: M -> D.Parsed<R>
    var queue: seq<(nat, Message<M>)>
    var connection: nat
    /** The packet identifiers passed to client.ack, in order. */
    var acked: seq<nat>
    /** Set when an exception that process does not catch has ended the thread. */
    var dead: bool

    constructor (parse: M -> D.Parsed<R>)
      ensures this.parse == parse && queue == [] && connection == 0 && acked == [] && !dead
    {
      this.parse, queue, connection, acked, dead := parse, [], 0, [], false;
    }

    /** put_nowait: a full queue leaves the delivery unacknowledged. */
    method Submit(message: Message<M>)
      modifies this`queue
      ensures queue == if |old(queue)| < 10 then old(queue) + [(connection, message)] else old(queue)
    {
      if |queue| < D.ReceiveMaximum {
        queue := queue + [(connection, message)];
      }
    }

    method ConnectionLost()
      modifies this`queue, this`connection
      ensures connection == old(connection) + 1 && queue == []
    {
      connection := connection + 1;
      while queue != []
        invariant connection == old(connection) + 1
        decreases |queue|
      {
        queue := queue[1..];
      }
    }

    method IsCurrent(c: nat) returns (r: bool)
      ensures r <==> c == connection
    {
      r := c == connection;
    }

    method Ack(c: nat, message: Message<M>)
      modifies this`acked
      ensures acked == if c == connection then old(acked) + [message.mid] else old(acked)
    {
      if c == connection {
        acked := acked + [message.mid];
      }
    }

    /** The message is acknowledged only when it needs no write, or when a write
        has ended well or with HTTP 400, and only if its own connection is still
        the current one; the waits double up to the maximum; a changed
        connection ends the retries. `Unfinished` means the script is used up;
        `lostParsing` connections are lost before the first write. */
    method Process(c: nat, message: Message<M>, lostParsing: nat, script: seq<Attempt>)
      returns (end: End, writes: nat, sleeps: seq<nat>)
      modifies this`connection, this`acked, this`dead
      ensures |sleeps| <= writes <= |sleeps| + 1 && writes <= |script|
      ensures connection == Connection(old(connection) + lostParsing, script, |sleeps|)
                            + if writes > |sleeps| then script[writes - 1].lostWriting else 0
      ensures forall k :: 0 <= k < |sleeps| ==> sleeps[k] == Backoff(k)
      ensures dead == (old(dead) || parse(message.body).Crashes?)
      ensures acked == if end == Finished && c == connection then old(acked) + [message.mid] else old(acked)
      ensures parse(message.body).Crashes? ==> end == GaveUp && writes == 0 && sleeps == []
      ensures parse(message.body).Rejected? || parse(message.body) == D.Lines([]) ==>
                end == Finished && writes == 0 && sleeps == []
      ensures parse(message.body).Lines? && parse(message.body).rows != [] ==>
                match end
                case Finished =>
                  && writes == |sleeps| + 1
                  && Retried(c, old(connection) + lostParsing, script, writes - 1)
                  && script[writes - 1].outcome != D.Failed
                case GaveUp =>
                  && writes == |sleeps| > 0
                  && Retried(c, old(connection) + lostParsing, script, writes - 1)
                  && script[writes - 1].outcome == D.Failed && connection != c
                case Unfinished =>
                  && writes == |sleeps| == |script|
                  && Retried(c, old(connection) + lostParsing, script, writes)
    {
      writes, sleeps := 0, [];
      connection := connection + lostParsing;
      match parse(message.body) {
        case Rejected =>
          Ack(c, message);
          return Finished, writes, sleeps;
        case Crashes =>
          dead := true;
          return GaveUp, writes, sleeps;
        case Lines(rows) =>
          if rows == [] {
            Ack(c, message);
            return Finished, writes, sleeps;
          }
      }
      var delay := D.RetryInitial;
      BackoffDoubles(0);
      while writes < |script|
        invariant writes == |sleeps| <= |script| && delay == Backoff(writes)
        invariant connection == Connection(old(connection) + lostParsing, script, writes) && acked == old(acked)
        invariant dead == old(dead)
        invariant forall k :: 0 <= k < |sleeps| ==> sleeps[k] == Backoff(k)
        invariant Retried(c, old(connection) + lostParsing, script, writes)
      {
        var attempt := script[writes];
        writes := writes + 1;
        connection := connection + attempt.lostWriting;
        if attempt.outcome != D.Failed {
          Ack(c, message);
          return Finished, writes, sleeps;
        }
        sleeps := sleeps + [delay];
        connection := connection + attempt.lostAsleep;
        var current := IsCurrent(c);
        if !current {
          return GaveUp, writes, sleeps;
        }
        BackoffDoubles(writes - 1);
        delay := Min(delay * 2, D.RetryMax);
      }
      end := Unfinished;
    }
  }
}

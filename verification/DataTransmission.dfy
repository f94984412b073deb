/** The bounded measurement buffer of the full firmware: data_transmission.c. */
module DataTransmission {
  import opened Common
  import S = Sparkplug

  /** The Kconfig choices. Single mode is a buffer of one. */
  datatype Settings = Settings(batch: bool, maxSamples: nat, interval: nat, batchInterval: nat, payloadSize: nat)

  function Capacity(g: Settings): nat {
    if g.batch then g.maxSamples else 1
  }

  /** The Kconfig ranges and the build assertion on the payload size. */
  predicate ValidSettings(g: Settings) {
    && 1 <= g.maxSamples && 5 <= g.interval <= 15 && 1 <= g.batchInterval
    && g.payloadSize >= 16 + 70 * Capacity(g)
  }

  /** Whether the readings should be sent at time now. */
  predicate FlushDue(g: Settings, readings: seq<Measurement>, now: int) {
    && readings != []
    && (!g.batch || |readings| >= g.maxSamples ||
        (now >= readings[0].timestamp && now - readings[0].timestamp + g.interval >= g.batchInterval))
  }

  class Buffer {
    const settings: Settings
    var measurements: array<Measurement>
    var count: nat
    var firstTimestamp: int
    var nextSeq: uint8
    var initialized: bool

    ghost predicate Valid()
      reads this, measurements
    {
      && measurements.Length == Capacity(settings)
      && count <= measurements.Length
      && firstTimestamp == if count == 0 then 0 else measurements[0].timestamp
    }

    /** The buffered readings, oldest first. */
    ghost function Contents(): seq<Measurement>
      reads this, measurements
      requires Valid()
    {
      measurements[..count]
    }

    constructor (settings: Settings)
      requires ValidSettings(settings)
      ensures Valid() && fresh(measurements) && this.settings == settings && Contents() == [] && !initialized
    {
      this.settings := settings;
      measurements := new Measurement[Capacity(settings)](_ => Measurement(0, 0, 0));
      count, firstTimestamp, nextSeq, initialized := 0, 0, 1, false;
    }

    method Init()
      requires Valid()
      modifies this`count, this`firstTimestamp, this`nextSeq, this`initialized
      ensures Valid() && Contents() == [] && nextSeq == 1 && initialized
    {
      count, firstTimestamp, nextSeq, initialized := 0, 0, 1, true;
    }

    /** A full buffer keeps what it has. */
    method Add(m: Measurement) returns (err: Option<Errno>)
      requires Valid()
      modifies this`count, this`firstTimestamp, measurements
      ensures Valid()
      ensures err == if !initialized then Some(EAGAIN)
                     else if |old(Contents())| < Capacity(settings) then None
                     else if settings.batch then Some(ENOSPC) else Some(EBUSY)
      ensures Contents() == if err == None then old(Contents()) + [m] else old(Contents())
    {
      if !initialized {
        return Some(EAGAIN);
      }
      if !settings.batch && count != 0 {
        return Some(EBUSY);
      }
      if count >= measurements.Length {
        return Some(ENOSPC);
      }
      if count == 0 {
        firstTimestamp := m.timestamp;
      }
      measurements[count] := m;
      count := count + 1;
      return None;
    }

    method HasCapacity() returns (available: bool)
      requires Valid()
      ensures available <==> initialized && |Contents()| < Capacity(settings)
    {
      available := initialized && count < measurements.Length;
    }

    method ShouldFlush(now: int) returns (flush: bool)
      requires Valid()
      ensures flush <==> initialized && FlushDue(settings, Contents(), now)
    {
      if !initialized {
        return false;
      }
      if !settings.batch {
        return count > 0;
      }
      flush := count > 0 && (count >= measurements.Length ||
        (now >= firstTimestamp && now - firstTimestamp + settings.interval >= settings.batchInterval));
    }

    /** The readings as one NDATA; with the payload size the build requires,
        formatting succeeds whenever there is something to send. */
    method Format(capacity: nat) returns (r: Result<(seq<byte>, nat), Errno>)
      requires Valid()
      ensures r.Ok? ==>
                && Contents() != [] && |r.value.0| <= capacity
                && r.value == (S.NdataBytes(Contents(), nextSeq, settings.batch), |Contents()|)
      ensures r.Err? ==> r.error == if capacity == 0 then EINVAL else if !initialized then EAGAIN
                                    else if Contents() == [] then ENODATA else EMSGSIZE
      ensures initialized && Contents() != [] && capacity >= 16 + 70 * Capacity(settings) ==> r.Ok?
    {
      if capacity == 0 {
        return Err(EINVAL);
      }
      if !initialized {
        return Err(EAGAIN);
      }
      if count == 0 {
        return Err(ENODATA);
      }
      S.NdataSizeBound(measurements[..count], nextSeq, settings.batch);
      var bytes := S.EncodeNdata(measurements[..count], nextSeq, settings.batch, capacity);
      if bytes.Err? {
        return Err(bytes.error);
      }
      return Ok((bytes.value, count));
    }

    method StartSession()
      modifies this`nextSeq
      ensures nextSeq == 1
    {
      nextSeq := 1;
    }

    /** Removes exactly the n oldest readings; what was added after them moves to the front. */
    method Commit(n: nat) returns (err: Option<Errno>)
      requires Valid()
      modifies this`count, this`firstTimestamp, this`nextSeq, measurements
      ensures Valid()
      ensures err == if !initialized then Some(EAGAIN) else if n > |old(Contents())| then Some(EINVAL) else None
      ensures Contents() == if err == None then old(Contents())[n..] else old(Contents())
      ensures nextSeq == if err == None && n != 0 then NextSeq(old(nextSeq)) else old(nextSeq)
    {
      if !initialized {
        return Some(EAGAIN);
      }
      if n > count {
        return Some(EINVAL);
      }
      if n != 0 {
        MoveToFront(measurements, n, count - n);
        count := count - n;
        nextSeq := NextSeq(nextSeq);
        firstTimestamp := if count == 0 then 0 else measurements[0].timestamp;
      }
      return None;
    }
  }

  /** memmove(a, &a[from], length * sizeof(a[0])) */
  method MoveToFront(a: array<Measurement>, from: nat, length: nat)
    requires from + length <= a.Length
    modifies a
    ensures a[..length] == old(a[from..from + length])
  {
    for i := 0 to length
      invariant a[..i] == old(a[from..from + i])
      invariant a[i..] == old(a[i..])
    {
      assert a[i..][from] == a[i + from];
      a[i] := a[i + from];
    }
  }

  // ------------------------------------------------------------- flush rule

  /** Readings taken every `interval` seconds, without gaps. */
  ghost predicate Regular(g: Settings, readings: seq<Measurement>) {
    forall i :: 0 <= i < |readings| ==> readings[i].timestamp == readings[0].timestamp + i * g.interval
  }

  /** min(capacity, ceil(batchInterval / interval)) */
  function FlushCount(g: Settings): nat
    requires ValidSettings(g)
  {
    Min(g.maxSamples, (g.batchInterval + g.interval - 1) / g.interval)
  }

  /** With regular samples, at the moment of its n-th reading the buffer should
      be flushed exactly from the FlushCount-th reading on; this also holds for
      what a commit leaves behind. */
  lemma FlushesAtCount(g: Settings, readings: seq<Measurement>)
    requires ValidSettings(g) && g.batch && readings != [] && Regular(g, readings)
    ensures FlushDue(g, readings, readings[|readings| - 1].timestamp) <==> |readings| >= FlushCount(g)
  {
    var n := |readings|;
    assert readings[n - 1].timestamp - readings[0].timestamp + g.interval == n * g.interval by {
      assert (n - 1) * g.interval + g.interval == n * g.interval;
    }
    CeilingDivision(g.batchInterval, g.interval, n);
  }

  lemma CeilingDivision(b: nat, i: nat, n: nat)
    requires i > 0
    ensures n * i >= b <==> n >= (b + i - 1) / i
  {
    var q := (b + i - 1) / i;
    assert q * i <= b + i - 1 < q * i + i;
    if n >= q {
      assert n * i >= q * i;
    } else {
      assert (n + 1) * i <= q * i;
    }
  }

  lemma RemainderIsRegular(g: Settings, readings: seq<Measurement>, n: nat)
    requires Regular(g, readings) && n <= |readings|
    ensures Regular(g, readings[n..])
  {
    forall i | 0 <= i < |readings[n..]|
      ensures readings[n..][i].timestamp == readings[n..][0].timestamp + i * g.interval
    {
      assert (n + i) * g.interval == n * g.interval + i * g.interval;
      assert readings[n + i].timestamp == readings[0].timestamp + (n + i) * g.interval;
      assert readings[n].timestamp == readings[0].timestamp + n * g.interval;
    }
  }
}

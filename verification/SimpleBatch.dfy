/** The measurement buffer of the simple firmware: batch.c. */
module SimpleBatch {
  import opened Common
  import DT = DataTransmission

  /** CONFIG_AITSM_BATCH_SIZE and CONFIG_AITSM_BATCH_CAPACITY. */
  datatype Settings = Settings(size: nat, capacity: nat)

  predicate ValidSettings(g: Settings) {
    1 <= g.size <= g.capacity <= 28
  }

  /** What is left after aitsm_batch_remove. */
  function Rest(readings: seq<Measurement>, removed: nat): seq<Measurement> {
    readings[Min(removed, |readings|)..]
  }

  class Batch {
    const settings: Settings
    var buffer: array<Measurement>
    var count: nat

    ghost predicate Valid()
      reads this
    {
      buffer.Length == settings.capacity && count <= buffer.Length
    }

    ghost function Contents(): seq<Measurement>
      reads this, buffer
      requires Valid()
    {
      buffer[..count]
    }

    constructor (settings: Settings)
      ensures Valid() && fresh(buffer) && this.settings == settings && Contents() == []
    {
      this.settings := settings;
      buffer := new Measurement[settings.capacity](_ => Measurement(0, 0, 0));
      count := 0;
    }

    method Reset()
      requires Valid()
      modifies this`count
      ensures Valid() && Contents() == []
    {
      count := 0;
    }

    /** A full buffer overwrites nothing. */
    method Add(m: Measurement) returns (err: Option<Errno>)
      requires Valid()
      modifies this`count, buffer
      ensures Valid() && err == if |old(Contents())| < settings.capacity then None else Some(ENOSPC)
      ensures Contents() == if err == None then old(Contents()) + [m] else old(Contents())
    {
      if count >= buffer.Length {
        return Some(ENOSPC);
      }
      buffer[count] := m;
      count := count + 1;
      return None;
    }

    method IsReady() returns (ready: bool)
      requires Valid()
      ensures ready <==> |Contents()| >= settings.size
    {
      ready := count >= settings.size;
    }

    /** Exactly the oldest readings go, at most all; readings added since move to the front. */
    method Remove(removed: nat)
      requires Valid()
      modifies this`count, buffer
      ensures Valid() && Contents() == Rest(old(Contents()), removed)
    {
      var n := Min(removed, count);
      DT.MoveToFront(buffer, n, count - n);
      count := count - n;
    }
  }
}

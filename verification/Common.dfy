/** Value types shared by every module: optional values, results, bytes and
    powers of two. */
module Common {

  datatype Option<+T> = None | Some(value: T)

  datatype Result<+T, +E> = Ok(value: T) | Err(error: E)

  /** The negative errno values the firmware functions return. */
  datatype Errno = EINVAL | EMSGSIZE | EAGAIN | ENODATA | ENOSPC | EBUSY | ENOTCONN | EALREADY | ENETDOWN | EIO

  type byte = b: int | 0 <= b < 256

  /** One reading as both firmwares buffer it: UTC seconds, hundredths of a
      degree Celsius and hundredths of a percent. */
  datatype Measurement = Measurement(timestamp: int64, temperature: int32, battery: uint16)

  type int64 = n: int | -0x8000_0000_0000_0000 <= n < 0x8000_0000_0000_0000
  type int32 = n: int | -0x8000_0000 <= n < 0x8000_0000
  type uint16 = n: int | 0 <= n < 0x1_0000
  type uint32 = n: int | 0 <= n < 0x1_0000_0000
  type uint64 = n: int | 0 <= n < 0x1_0000_0000_0000_0000
  type uint8 = n: int | 0 <= n < 0x100

  const TwoTo64: nat := 0x1_0000_0000_0000_0000

  function Min(a: int, b: int): int {
    if a <= b then a else b
  }

  function Pow2(n: nat): (r: nat)
    ensures r > 0
  {
    if n == 0 then 1 else 2 * Pow2(n - 1)
  }

  /** The Sparkplug sequence numbers run 0, 1, ..., 255, 0, ... (uint8_t arithmetic). */
  function NextSeq(current: uint8): uint8 {
    (current + 1) % 256
  }

  lemma Regroup<T>(a: seq<T>, b: seq<T>, c: seq<T>)
    ensures a + (b + c) == a + b + c
  {
  }
}

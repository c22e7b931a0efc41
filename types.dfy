/**
 * Value types shared by the two reconstruction stages: the 16-bit unsigned
 * integers of the acquisition and image headers, the narrowing conversion
 * into them, an Option for results that may be absent, and the status an
 * entry point returns.
 */
module Types {

  /** The headers' `uint16_t` fields. */
  type uint16 = x: int | 0 <= x < 0x1_0000

  /** The headers' `uint32_t` fields. */
  type uint32 = x: int | 0 <= x < 0x1_0000_0000

  /** Assigning an integer to a `uint16_t` field keeps it modulo 2^16. */
  function Trunc16(x: int): (r: uint16)
    ensures 0 <= x < 0x1_0000 ==> r == x
    ensures (r - x) % 0x1_0000 == 0
  {
    x % 0x1_0000
  }

  datatype Option<+T> = None | Some(value: T)

  /** A complex sample or pixel; only where it moves matters, never its value. */
  datatype Complex = Complex(re: real, im: real)

  /**
   * The outcome of an entry point: `GADGET_OK`, `GADGET_FAIL`, or `Blocked`
   * for a call that waits forever on an empty message queue.
   */
  datatype Status = Ok | Fail | Blocked
}

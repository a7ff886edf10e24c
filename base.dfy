/** Small shared vocabulary: an optional value and the Go integer widths the model needs. */
module Wrappers {

  /** Go's "value or nil" (an error that may be nil, a slice that may be nil). */
  datatype Option<+T> = None | Some(value: T)
}

module Words {

  /** Go's `byte`. */
  type byte = x: int | 0 <= x < 0x100

  /** Go's `uint16`. */
  type uint16 = x: int | 0 <= x < 0x1_0000

  /** Go's `uint32`. */
  type uint32 = x: int | 0 <= x < 0x1_0000_0000

  /** Go's `int16`. */
  type int16 = x: int | -0x8000 <= x < 0x8000

  /** Go's conversion `uint16(x)` of a `uint32`: keeps the low 16 bits. */
  function TruncateToUint16(x: uint32): (r: uint16)
    ensures x < 0x1_0000 ==> r == x
    ensures (r - x) % 0x1_0000 == 0
  {
    x % 0x1_0000
  }
}

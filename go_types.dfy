/** Go's fixed-width integer types, as ranges of Dafny's unbounded integers.
    Bit masks and shifts on them are written as `%` and `/` by powers of two. */
module GoTypes {
  type byte = x: int | 0 <= x < 0x100
  type uint8 = byte
  type uint16 = x: int | 0 <= x < 0x1_0000
  type uint32 = x: int | 0 <= x < 0x1_0000_0000
  type int16 = x: int | -0x8000 <= x < 0x8000
}

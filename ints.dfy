/** Fixed-width integers of the source. */
module Ints {

  newtype uint16 = x: int | 0 <= x < 0x1_0000
}

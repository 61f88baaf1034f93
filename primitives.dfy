/** Java's primitive `int`: a 32-bit two's-complement integer. The modelled
    classes only store and return such values, so no arithmetic is needed. */
module Primitives {

  newtype int32 = x: int | -0x8000_0000 <= x < 0x8000_0000
}

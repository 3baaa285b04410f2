/** Fixed-width integer types of the C++ source, as ranges over Dafny's unbounded `int`,
    and a cell standing for an `int64_t *` out-parameter. */
module Ints {

  /** `int32_t` */
  type int32 = x: int | -0x8000_0000 <= x < 0x8000_0000

  /** `int64_t` */
  type int64 = x: int | -0x8000_0000_0000_0000 <= x < 0x8000_0000_0000_0000

  /** A caller-owned `int64_t` that an operation writes through a pointer. */
  class Int64Cell {
    var value: int64

    constructor (v: int64)
      ensures value == v
    {
      value := v;
    }
  }
}

/**
 * The vector model of the test generator: the values driven onto the
 * circuit for one clock period and the optional check made after it.
 */
module Vectors {

  import opened Wrappers

  /** Rust's `u8`. */
  type Byte = x: int | 0 <= x < 256

  /** One clock period of stimulus (`struct Input`). */
  datatype Input = Input(reset: bool, number: Byte, first: bool)

  /** The expected outputs after that period (`struct Assert`). */
  datatype Assert = Assert(unlock: bool, warning: bool)

  /** One entry of the stimulus program (`struct InputWithAsserts`). */
  datatype InputWithAsserts = InputWithAsserts(input: Input, asserts: Option<Assert>)
}

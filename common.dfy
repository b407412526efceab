/**
 * Small value types shared by the model of the BLUI plugin: an optional value
 * and the fixed-width integer ranges the engine and the browser runtime use.
 */
module Common {

  /** A value that may be absent (a null pointer, an unset field). */
  datatype Option<T> = None | Some(value: T)

  /** The engine's `int32`. */
  type int32 = x: int | -0x8000_0000 <= x < 0x8000_0000

  /** The engine's `uint32`. */
  type uint32 = x: int | 0 <= x < 0x1_0000_0000

  /**
   * Storing a `uint32` into an `int` field of the browser runtime's structs:
   * two's-complement reinterpretation, values of 2^31 and above wrap to negative.
   */
  function Uint32ToInt32(x: uint32): (r: int32)
    ensures r % 0x1_0000_0000 == x
    ensures x < 0x8000_0000 ==> r == x
  {
    if x < 0x8000_0000 then x else x - 0x1_0000_0000
  }
}

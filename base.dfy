/** Values shared by every part of the model: an optional value, Go's
    `(value, error)` returns as a Result, and an error carrying the text
    that `err.Error()` would give. */
module Base {

  datatype Option<+T> = None | Some(value: T) {
    function GetOr(default: T): T {
      match this
      case Some(v) => v
      case None => default
    }
  }

  /** The text of a Go `error`. */
  datatype Error = Error(message: string)

  datatype Result<+T> = Ok(value: T) | Err(error: Error)

  /** Go's fixed-width integers, kept as ranges over `int`. */
  type Int64 = x: int | -0x8000_0000_0000_0000 <= x < 0x8000_0000_0000_0000
  type Uint64 = x: int | 0 <= x < 0x1_0000_0000_0000_0000

  /** Go's conversion `int64(u)` of a `uint64`: the bit pattern is kept, so
      values above 2^63 - 1 wrap around to negative numbers. */
  function ToInt64(u: Uint64): (r: Int64)
    ensures r == u || r == u - 0x1_0000_0000_0000_0000
    ensures r == u <==> u <= 0x7FFF_FFFF_FFFF_FFFF
    ensures r < 0 <==> u > 0x7FFF_FFFF_FFFF_FFFF
  {
    if u < 0x8000_0000_0000_0000 then u else u - 0x1_0000_0000_0000_0000
  }
}

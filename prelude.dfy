/** Small value types shared by the other modules. */
module Prelude {

  /** One octet of a body, as a Go `byte` (`uint8`). */
  newtype byte = b: int | 0 <= b < 256

  datatype Option<+T> = None | Some(value: T)
}

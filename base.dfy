/** Small value types shared by the other modules: machine integers of the
    widths the Rust code uses, and the Option/Result shapes of its API. */
module Base {

  /** An unsigned 8-bit value (Rust `u8`). */
  newtype byte = b: int | 0 <= b < 0x100

  /** An unsigned 16-bit value (Rust `u16`), the width of terminal rows and columns. */
  newtype u16 = x: int | 0 <= x < 0x1_0000

  /** An unsigned 32-bit value (Rust `u32`), the width of a process exit code. */
  newtype u32 = x: int | 0 <= x < 0x1_0000_0000

  datatype Option<+T> = None | Some(value: T)

  datatype Result<+T, +E> = Success(value: T) | Failure(error: E)

  function Min(a: int, b: int): int
  {
    if a <= b then a else b
  }
}

/** Types shared by the component models. */
module Prelude {
  datatype Option<+T> = None | Some(value: T)

  datatype Result<+T, +E> = Ok(value: T) | Err(error: E)

  /** One octet. */
  type byte = x: int | 0 <= x < 256

  /** An unsigned 32-bit value, kept as a mathematical integer. */
  type u32 = x: int | 0 <= x < 0x1_0000_0000
}

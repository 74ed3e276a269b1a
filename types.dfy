/** Value types shared by the icon extractor model. */
module Types {

  /** An unsigned 8-bit value (Rust `u8`). */
  newtype byte = b: int | 0 <= b < 0x100

  /** Rust's `Option<T>`. */
  datatype Option<+T> = None | Some(value: T)
}

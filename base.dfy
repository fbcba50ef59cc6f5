/** Small shared vocabulary: bytes and an optional value (JavaScript's `null`). */
module Base {

  /** One octet of a binary payload (a Blob, a Buffer or a file's contents). */
  newtype byte = x: int | 0 <= x < 256

  /** A value that may be absent; `None` stands for JavaScript's `null`. */
  datatype Option<T> = None | Some(value: T)
}

/** Small shared vocabulary: an optional value and the byte type of page bodies. */
module Common {

  datatype Option<+T> = None | Some(value: T)

  /** One octet, as held in a Go `[]byte`. */
  newtype byte = x: int | 0 <= x < 256
}

/** A value that may be absent: a null pointer, a free mutex. */
module Options {
  datatype Option<+T> = None | Some(value: T)
}

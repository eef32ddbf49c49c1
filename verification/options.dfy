/** A value that may be absent: a missing document, an unset optional field, a missing header. */
module Options {
  datatype Option<+T> = None | Some(value: T)
}

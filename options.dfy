/** A value that may be absent: a missing document, a missing field, no signed-in user. */
module Options {
  datatype Option<T> = None | Some(value: T)
}

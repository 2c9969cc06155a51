/** A value that may be missing: a nil pointer, an absent map entry, an exception. */
module Options {
  datatype Option<+T> = None | Some(value: T)
}

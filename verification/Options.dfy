/** A value that may be missing: a nil pointer, an unset field or an object that was not found. */
module Options {
  datatype Option<+T> = None | Some(value: T)
}

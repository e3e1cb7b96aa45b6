/** A value that may be absent, for lookups that can come back empty. */
module Options {
  datatype Option<T> = None | Some(value: T)
}

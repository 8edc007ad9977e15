/** An optional value, for lookups that may name nothing. */
module Options {
  datatype Option<T> = None | Some(value: T)
}

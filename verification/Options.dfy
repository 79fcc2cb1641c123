/** A value that may be missing: a nullable column, an absent row, or no error. */
module Options {
  datatype Option<T> = None | Some(value: T)
}

/** The optional value used for JavaScript's `null`-or-value slots. */
module Options {
  datatype Option<T> = None | Some(value: T)
}

module Options {
  /** A nullable column or an optional result. */
  datatype Option<+T> = None | Some(value: T)
}

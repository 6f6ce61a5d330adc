module Options {
  /** Python's `None`, JavaScript's `null`, an absent row or key. */
  datatype Option<+T> = None | Some(value: T)
}

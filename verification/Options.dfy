module Options {
  /** A value that may be missing: a null pointer, or an empty std::optional. */
  datatype Option<+T> = None | Some(value: T)
}

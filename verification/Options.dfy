module Options {
  /** A value that may be missing: a nil pointer, an absent map entry, an unset variable. */
  datatype Option<+T> = None | Some(value: T)
}

/** The usual Some/None wrapper, for values a Go function may or may not produce. */
module Optional {
  datatype Option<+T> = None | Some(value: T)
}

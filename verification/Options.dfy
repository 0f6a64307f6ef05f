/** The result shape used throughout: an optional value. */
module Options {
  datatype Option<+T> = None | Some(value: T)
}

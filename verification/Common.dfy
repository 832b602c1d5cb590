/** Shared result type. */
module Common {
  datatype Option<+T> = None | Some(value: T)
}

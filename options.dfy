/** A value that may be absent: a missing DOM element, a missing storage key. */
module Options {
  datatype Option<+T> = None | Some(value: T)
}

/** A value that may be absent (Ruby's `nil`). */
module Optional {
  datatype Option<+T> = None | Some(value: T)
}

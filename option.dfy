/** A value that may be absent, as Python's `None` or a number. */
module Optional {

  datatype Option<+T> = None | Some(value: T)
}

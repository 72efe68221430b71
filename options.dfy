/** A value that may be absent: Python's `None` or a dictionary entry that is not there. */
module Options {

  datatype Option<+T> = None | Some(value: T)

}

/** The optional value the Python code returns as `int` or `None`. */
module Optional {

  datatype Option<+T> = None | Some(value: T)
}

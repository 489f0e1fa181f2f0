/** The optional values the program writes as pointers or (value, ok) pairs. */
module Options {
  datatype Option<+T> = None | Some(value: T)
}

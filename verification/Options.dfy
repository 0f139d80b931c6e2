/** The optional value used wherever the Go code has a nil pointer or an absent map entry. */
module Options {
  datatype Option<+T> = None | Some(value: T)
}

/** The absent-or-present value used where the service returns a null pointer. */
module Options {
  datatype Option<+T> = None | Some(value: T)
}

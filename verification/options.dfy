/** The optional value used wherever a parse or a lookup can come back empty. */
module Options {
  datatype Option<T> = None | Some(value: T)
}

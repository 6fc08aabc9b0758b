/** The stock optional value: a pointer of the source that may be NULL. */
module Options {
  datatype Option<+T> = None | Some(value: T)
}

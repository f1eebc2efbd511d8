/** The optional value used for error results and absent answers. */
module Options {
  datatype Option<+T> = None | Some(value: T)
}

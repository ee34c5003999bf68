/** The optional value used for the nullable columns and pointers of the modelled code. */
module Options {
  datatype Option<+T> = None | Some(value: T)
}

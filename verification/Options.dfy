/** The optional value used where the source has a Go pointer, a NULL column or an absent map key. */
module Options {
  datatype Option<+T> = None | Some(value: T)
}

/** A nullable column or a lookup that may find nothing. */
module Options {
  datatype Option<+T> = None | Some(value: T)
}

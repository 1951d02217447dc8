/** An optional value: a nullable column or a row that may be missing. */
module Options {
  datatype Option<+T> = None | Some(value: T)
}

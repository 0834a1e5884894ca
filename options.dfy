/** An optional value: a nullable colour cell is `None` or `Some(colour)`. */
module Options {
  datatype Option<T> = None | Some(value: T)
}

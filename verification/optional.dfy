/** The usual Some/None wrapper; stands for a nullable pointer in the source. */
module Optional {
  datatype Option<+T> = None | Some(value: T)
}

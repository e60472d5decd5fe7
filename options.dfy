/** The optional value used for nullable references and failed lookups. */
module Options {
  datatype Option<+T> = None | Some(value: T)
}

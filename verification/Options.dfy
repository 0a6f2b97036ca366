/** The optional value shared by the modules: what the source writes as `Optional[...]`. */
module Options {
  datatype Option<+T> = None | Some(value: T)
}

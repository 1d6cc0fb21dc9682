/** An optional value, shared by all modules. */
module Options {
  datatype Option<T> = None | Some(value: T)
}

/** The optional value used where the drivers silently ignore an input they do not recognise. */
module Options {
  datatype Option<T> = None | Some(value: T)
}

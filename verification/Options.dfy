/** The option type all modules share. */
module Options {
  datatype Option<+T> = None | Some(value: T)
}

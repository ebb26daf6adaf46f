/** The usual optional value, used where the source returns a value and a flag. */
module Options {
  datatype Option<+T> = None | Some(value: T)
}

/** The optional value every component uses for "undefined" and "null". */
module Options {
  datatype Option<+T> = None | Some(value: T)
}

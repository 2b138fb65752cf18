/** The usual option type, used wherever the sources use `null`, `None` or `undefined`. */
module Optional {
  datatype Option<+T> = None | Some(value: T)
}

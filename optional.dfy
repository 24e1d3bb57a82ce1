/** The usual Some/None wrapper, used for "no such touch point" results. */
module Optional {
  datatype Option<+T> = None | Some(value: T)
}

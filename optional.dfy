/** The usual Some/None datatype, for values the bot may or may not have. */
module Optional {
  datatype Option<+T> = None | Some(value: T)
}

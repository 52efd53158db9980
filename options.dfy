/** The usual optional value, used for table lookups that may find nothing. */
module Options {
  datatype Option<+T> = None | Some(value: T)
}

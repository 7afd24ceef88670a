// An optional value, for the source's Option and nullable fields.
module Options {
  datatype Option<+T> = None | Some(value: T)
}

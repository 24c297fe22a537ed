/** The nullable columns and optional fields of the modelled records. */
module Options {
  datatype Option<+T> = None | Some(value: T)
}

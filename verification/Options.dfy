/** The optional values used for nullable columns and for queries that may find no row. */
module Options {
  datatype Option<+T> = None | Some(value: T)
}

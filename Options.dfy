/** An optional value: `null` results of the pages and empty form fields. */
module Options {
  datatype Option<+T> = None | Some(value: T)
}

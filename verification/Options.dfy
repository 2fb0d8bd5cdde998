/** An optional value: the source's nil pointers and (value, ok) results. */
module Options {
  datatype Option<+T> = None | Some(value: T)
}

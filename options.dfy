/** A value that may be absent: JavaScript's `undefined` in the modelled code. */
module Options {
  datatype Option<T> = None | Some(value: T)
}

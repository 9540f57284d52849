/** An optional value: JavaScript's `undefined` for a missing result. */
module Options {

  datatype Option<T> = None | Some(value: T)
}

/** A value that may be absent (JavaScript's `undefined`). */
module Optional {
  datatype Option<T> = None | Some(value: T)
}

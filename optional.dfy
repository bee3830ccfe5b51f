/** A value that may be absent: JavaScript's `undefined`/`null`, Python's missing key. */
module Optional {
  datatype Option<T> = None | Some(value: T)
}

/** A value that may be missing: `undefined`/`null` in the sketches. */
module Optional {
  datatype Option<T> = None | Some(value: T)
}

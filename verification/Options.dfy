/** A value that may be absent: the source's nil pointers, nil slices and error returns. */
module Options {
  datatype Option<+T> = None | Some(value: T)
}

/** A value that may be missing: `null`/`undefined` on the JavaScript side. */
module Optional {

  datatype Option<+T> = None | Some(value: T)
}

/** A value that may be absent: a form field that parsed to NaN, a result not yet computed. */
module Optional {
  datatype Option<+T> = None | Some(value: T)
}

/** A value that a JavaScript expression may leave `null` or `undefined`. */
module Options {

  datatype Option<+T> = None | Some(value: T)
}

/** A value a JavaScript object may leave `undefined` (or a JSON body may omit). */
module Optional {
  datatype Option<+T> = None | Some(value: T)
}

/** An optional value, for JavaScript's `undefined` and for partial inverses. */
module Optional {

  datatype Option<+T> = None | Some(value: T)
}

/** A value that may be absent: a null pointer, a missing key, an error reply. */
module Options {

  datatype Option<+T> = None | Some(value: T)
}

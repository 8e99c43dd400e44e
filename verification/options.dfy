/** A value that may be absent: the model of a nullable C pointer to data. */
module Options {
  datatype Option<T> = None | Some(value: T)
}

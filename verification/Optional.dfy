/** The optional value used throughout the model. */
module Optional {
  datatype Option<+T> = None | Some(value: T)
}

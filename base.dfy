/** Values shared by the whole model. */
module Base {

  /** An optional value: a missing result, or a present one. */
  datatype Option<T> = None | Some(value: T)
}

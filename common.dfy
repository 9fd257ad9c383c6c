/** Small value wrappers shared by the rest of the model. */
module Common {

  /** A value that may be missing: a JavaScript `undefined` or a failed lookup. */
  datatype Option<T> = None | Some(value: T)
}

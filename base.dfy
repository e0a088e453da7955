/** The optional-value wrapper used throughout the model, standing for a
    Python value that may be None or a key/attribute that may be absent. */
module Base {
  datatype Option<+T> = None | Some(value: T)
}

/** The optional-value type shared by the other modules: results of the partial decoders and the nullable interval handle. */
module Wrappers {

  datatype Option<+T> = None | Some(value: T)
}

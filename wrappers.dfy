/** The optional value used for the classifier's nullable fields (`null` in the
    source is `None` here). */
module Wrappers {

  datatype Option<+T> = None | Some(value: T)
}

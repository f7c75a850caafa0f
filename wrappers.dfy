/** The optional-value type used for the store's possibly absent item and
    for a text encoding that may fail. */
module Wrappers {

  datatype Option<+T> = None | Some(value: T)

}

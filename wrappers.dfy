/** The optional-value datatype used for lookups and first-match searches. */
module Wrappers {

  datatype Option<+T> = None | Some(value: T)

}

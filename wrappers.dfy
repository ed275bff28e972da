/** Option, for lookups that may find nothing and for the policy selector that may fail. */
module Wrappers {

  datatype Option<+T> = None | Some(value: T)

}

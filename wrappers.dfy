/** The absent-or-present value used where the source hands back a null pointer
    or a "not found" boolean. */
module Wrappers {
  datatype Option<+T> = None | Some(value: T)
}

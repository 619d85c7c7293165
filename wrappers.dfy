/** The absent-or-present value used wherever pandas would hold NaN. */
module Wrappers {

  datatype Option<+T> = None | Some(value: T)
}

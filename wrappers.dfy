/** The optional value used for `T | undefined` and `T | null` results and fields. */
module Wrappers {

  datatype Option<+T> = None | Some(value: T)

}

/** The Option type used for the source's `T | null` and `T | undefined` values. */
module Wrappers {
  datatype Option<+T> = None | Some(value: T)
}

/** Identifiers, times and values that may be absent, shared by every part. */
module Basics {

  type Id = string
  /** Nanoseconds. */
  type Time = int

  const SECOND: int := 1_000_000_000

  datatype Option<+T> = None | Some(value: T)
}

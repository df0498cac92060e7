/** A value that may be absent: TypeScript's `T | null` and optional (`T | undefined`) fields. */
module Wrappers {

  datatype Option<+T> = None | Some(value: T)
}

/** Optional values and pass/fail outcomes, used where the TypeScript code
    returns `null`/`undefined` or throws. */
module Wrappers {

  /** A value that may be absent (`T | undefined`, `T | null`). */
  datatype Option<+T> = None | Some(value: T)

  /** The result of an operation that either succeeds or fails with an error. */
  datatype Outcome<+E> = Pass | Fail(error: E)
}

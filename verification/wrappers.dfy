/** Optional values: JavaScript `null`/`undefined` on one side, a present value on the other. */
module Wrappers {

  datatype Option<+T> = None | Some(value: T)

  /** `x ?? d`: only a missing value is replaced, so `false`, `0` and `''` stay as they are.
      The document store fills in a schema default for a missing path the same way. */
  function GetOr<T>(x: Option<T>, d: T): (r: T)
    ensures x.Some? ==> r == x.value
    ensures x.None? ==> r == d
  {
    if x.Some? then x.value else d
  }

  /** Outcome of a step that can fail with a message. */
  datatype Result<+T> = Ok(value: T) | Err(message: string)
}

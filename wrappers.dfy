/** Failure-compatible wrappers shared by every module of the model. */
module Wrappers {

  /** A value that may be absent: JavaScript's `null`/`undefined` slots. */
  datatype Option<+T> = None | Some(value: T)

  /** The outcome of a call that may throw: `Ok` carries the resolved value, `Err` what was thrown. */
  datatype Result<+T, +E> = Ok(value: T) | Err(error: E)

  /** A value a JavaScript `throw` or promise rejection carries: an `Error` with its `message`,
      or anything else (which the `err instanceof Error` tests of the callers tell apart). */
  datatype Thrown = Error(message: string) | NonError

  /** `err instanceof Error ? err.message : fallback`. */
  function MessageOf(t: Thrown, fallback: string): (m: string)
    ensures t.NonError? ==> m == fallback
  {
    if t.Error? then t.message else fallback
  }

  /** `s` without its element at `k`: a settled job leaving the pending ones. */
  function RemoveAt<T>(s: seq<T>, k: nat): (r: seq<T>)
    requires k < |s|
    ensures |r| == |s| - 1
    ensures r[..k] == s[..k] && r[k..] == s[k + 1..]
  {
    s[..k] + s[k + 1..]
  }
}

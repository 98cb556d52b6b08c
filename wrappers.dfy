/** Failure-carrying values shared by every module: an optional value, a
    computation that either succeeds or throws, and the thrown JavaScript error. */
module Wrappers {

  datatype Option<+T> = None | Some(value: T)

  datatype Result<+T, +E> = Success(value: T) | Failure(error: E)

  /** A thrown JavaScript `Error`: its `message`, and the `code` property that
      database drivers attach (a PostgreSQL SQLSTATE such as "23505"). */
  datatype Error = Error(message: string, code: Option<string>)

  /** `Math.max(0, n)` on integers. */
  function NonNegative(n: int): (r: nat)
    ensures r >= n && (n >= 0 ==> r == n) && (n < 0 ==> r == 0)
  {
    if n < 0 then 0 else n
  }
}

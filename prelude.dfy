/** Shared vocabulary: optional values, results carrying the errors the
    estimator can raise, and the length of a Python `range(n)`. */
module Prelude {

  datatype Option<+T> = None | Some(value: T)

  /** The exceptions the estimator raises on its own paths. */
  datatype Error =
    | EmptyRange          // `random.randint(1, size)` with `size < 1` (ValueError)
    | UnknownAttackKind   // `Attack` built with a base outside `scores`
    | ZeroDivision        // float division by zero (`run` with 0 samples, percent gain with avg 0)
    | MissingAverage      // `summarize` before a successful `run` (no `avg` attribute)

  datatype Result<+T> = Ok(value: T) | Err(error: Error)

  datatype Outcome = Pass | Fail(error: Error)

  /** Number of iterations of `for _ in range(n)`: none when `n` is not positive. */
  function RangeLength(n: int): (r: nat)
    ensures n <= 0 ==> r == 0
    ensures 0 < n ==> r == n
  {
    if n < 0 then 0 else n
  }

  function Max(a: int, b: int): (r: int)
    ensures r >= a && r >= b
    ensures r == a || r == b
  {
    if b > a then b else a
  }
}

/** The option type and the time units shared by the modules of the model. Times and
durations are integer nanoseconds throughout. */
module Common {
  const SECOND: int := 1_000_000_000
  const MINUTE: int := 60 * SECOND

  datatype Option<+T> = None | Some(value: T)

  function Max(a: real, b: real): real { if a >= b then a else b }

  function Min(a: real, b: real): real { if a <= b then a else b }

  /** How many elements satisfy a predicate. */
  function Count<T>(xs: seq<T>, p: T -> bool): (n: nat)
    ensures n <= |xs|
  {
    if xs == [] then 0 else Count(xs[..|xs| - 1], p) + if p(xs[|xs| - 1]) then 1 else 0
  }
}

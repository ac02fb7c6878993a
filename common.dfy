/** Small value helpers shared by the sleep and diet engines. */
module Common {

  /** An optional value: a desired wake instant that may be absent, a result that may not exist. */
  datatype Option<T> = None | Some(value: T)

  /** Python's built-in `max` on two numbers. */
  function Max(a: real, b: real): (r: real)
    ensures r >= a && r >= b
    ensures r == a || r == b
  {
    if a >= b then a else b
  }

  /** Python's built-in `min` on two numbers. */
  function Min(a: real, b: real): (r: real)
    ensures r <= a && r <= b
    ensures r == a || r == b
  {
    if a <= b then a else b
  }
}

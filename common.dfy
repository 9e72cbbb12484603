/** Small shared definitions: an optional value and the minimum/maximum of
    two reals, as Python's min and max built-ins compute them. */
module Common {

  datatype Option<T> = None | Some(value: T)

  /** Python's `min(a, b)` on numbers. */
  function Min(a: real, b: real): (r: real)
    ensures r <= a && r <= b
    ensures r == a || r == b
  {
    if a <= b then a else b
  }

  /** Python's `max(a, b)` on numbers. */
  function Max(a: real, b: real): (r: real)
    ensures r >= a && r >= b
    ensures r == a || r == b
  {
    if a >= b then a else b
  }
}

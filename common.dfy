/** Small shared definitions: an optional value and JavaScript's Math.ceil on an integer quotient. */
module Common {

  /** A value that may be absent (JavaScript's `undefined`/`null`). */
  datatype Option<+T> = None | Some(value: T)

  /** JavaScript truthiness of a string field: absent and empty both count as missing. */
  predicate Present(field: Option<string>)
  {
    field.Some? && field.value != ""
  }

  /** `Math.ceil(a / b)` for an integer `a` and a positive integer `b`: the least `r` with `r * b >= a`. */
  function CeilDiv(a: int, b: nat): (r: int)
    requires b > 0
    ensures r * b >= a
    ensures (r - 1) * b < a
  {
    -((-a) / b)
  }

  lemma CeilDivNonNegative(a: int, b: nat)
    requires b > 0 && a >= 0
    ensures CeilDiv(a, b) >= 0
  {
  }

  /** The quotient is positive exactly when the dividend is. */
  lemma CeilDivPositive(a: int, b: nat)
    requires b > 0
    ensures CeilDiv(a, b) > 0 <==> a > 0
  {
  }
}

/** Small shared vocabulary: the `Math.min`/`Math.max` of the calculator on exact
    amounts, and an optional value for "absent" entries. */
module Common {

  /** `Math.min` on exact amounts. */
  function Min(a: real, b: real): real
  {
    if a <= b then a else b
  }

  /** `Math.max` on exact amounts. */
  function Max(a: real, b: real): real
  {
    if a <= b then b else a
  }

  datatype Option<+T> = None | Some(value: T)
}

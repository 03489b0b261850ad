/** The form fields of the generator pages as `Number(v)` reads them, and
    `toInt(v, d)`: the number truncated toward zero when it is finite, the
    default `d` otherwise. */
module FormInput {

  /** A field: the empty string (which `Number` reads as 0), text that reads
      as a finite number, or text that does not (`NaN` or an infinity). */
  datatype Field = Empty | Finite(x: real) | NotFinite

  /** `v !== ""`. */
  predicate Filled(v: Field) {
    !v.Empty?
  }

  /** `Math.trunc(x)`: the integer part, rounding toward zero. */
  function Trunc(x: real): (n: int)
    ensures x >= 0.0 ==> 0 <= n && n as real <= x < n as real + 1.0
    ensures x < 0.0 ==> n <= 0 && n as real - 1.0 < x <= n as real
  {
    if x >= 0.0 then x.Floor else -((-x).Floor)
  }

  /** `toInt(v, d)`. */
  function ToInt(v: Field, d: int): (n: int)
    ensures v.Empty? ==> n == 0
    ensures v.NotFinite? ==> n == d
  {
    match v
    case Empty => 0
    case Finite(x) => Trunc(x)
    case NotFinite => d
  }

  /** A number that is already an integer reads back as itself: `toInt` of a
      derived parameter gives that parameter. */
  lemma ToIntOfInt(n: int, d: int)
    ensures ToInt(Finite(n as real), d) == n
  {
  }

  /** `Math.max(a, b)`. */
  function Max(a: int, b: int): (r: int)
    ensures r >= a && r >= b && (r == a || r == b)
  {
    if a >= b then a else b
  }
}

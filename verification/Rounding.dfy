/** Python's `round` and `math.ceil` on exact numbers. */
module Rounding {

  /** Python's `round(a / b)`: nearest, a half to even. */
  function RoundHalfEven(a: int, b: int): int
    requires b > 0
  {
    var q, r := a / b, a % b;
    if 2 * r < b || (2 * r == b && q % 2 == 0) then q else q + 1
  }

  function Ceil(x: real): (n: int)
    ensures x <= n as real < x + 1.0
  {
    -((-x).Floor)
  }

  /** The nearest integer, a half to even. */
  function HalfEven(x: real): int {
    var q := x.Floor;
    var r := x - q as real;
    if r < 0.5 || (r == 0.5 && q % 2 == 0) then q else q + 1
  }

  lemma NearestHalfEven(x: real)
    ensures HalfEven(x) as real - 0.5 <= x <= HalfEven(x) as real + 0.5
    ensures x >= 0.0 ==> HalfEven(x) >= 0
    ensures x == 0.0 ==> HalfEven(x) == 0
  {
  }

  lemma HalfEvenMonotone(x: real, y: real)
    requires x <= y
    ensures HalfEven(x) <= HalfEven(y)
  {
    assert x.Floor <= y.Floor;
  }
}

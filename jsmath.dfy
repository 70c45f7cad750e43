/** JavaScript numeric operators the app relies on, over exact reals. */
module JsMath {

  /** `Math.round`: the nearest integer, halves rounded up. */
  function Round(x: real): (r: int)
    ensures r as real - 0.5 <= x < r as real + 0.5
  {
    (x + 0.5).Floor
  }

  lemma RoundOfInteger(n: int)
    ensures Round(n as real) == n
  {
  }

  lemma RoundMonotone(x: real, y: real)
    requires x <= y
    ensures Round(x) <= Round(y)
  {
  }

  function MinR(a: real, b: real): real { if a <= b then a else b }

  function MaxR(a: real, b: real): real { if a >= b then a else b }

  /** The `%` operator on integers: the remainder takes the sign of the dividend. */
  function Rem(a: int, b: int): (r: int)
    requires b > 0
    ensures -b < r < b
    ensures a >= 0 ==> r >= 0
    ensures a == (if a >= 0 then a / b else -((-a) / b)) * b + r
  {
    if a >= 0 then a % b else -((-a) % b)
  }

  /** A JavaScript number where a division by zero can reach it. */
  datatype Number = Finite(value: real) | PosInfinity | NegInfinity | NaN

  /** `a / b`. */
  function Div(a: real, b: real): Number
  {
    if b != 0.0 then Finite(a / b)
    else if a > 0.0 then PosInfinity
    else if a < 0.0 then NegInfinity
    else NaN
  }

  /** `x * k` for a positive constant `k`. */
  function Scale(x: Number, k: real): Number
    requires k > 0.0
  {
    if x.Finite? then Finite(x.value * k) else x
  }

  /** `x + c` for a finite `c`. */
  function AddFinite(x: Number, c: real): Number
  {
    if x.Finite? then Finite(x.value + c) else x
  }

  /** `Math.min(c, x)` for a finite `c`: NaN wins. */
  function MinNum(c: real, x: Number): Number
  {
    match x
    case Finite(v) => Finite(MinR(c, v))
    case PosInfinity => Finite(c)
    case NegInfinity => NegInfinity
    case NaN => NaN
  }

  /** `Math.max(c, x)` for a finite `c`: NaN wins. */
  function MaxNum(c: real, x: Number): Number
  {
    match x
    case Finite(v) => Finite(MaxR(c, v))
    case PosInfinity => PosInfinity
    case NegInfinity => Finite(c)
    case NaN => NaN
  }

  /** `Math.round(x)`. */
  function RoundNum(x: Number): Number
  {
    if x.Finite? then Finite(Round(x.value) as real) else x
  }
}

/** The few JavaScript number outcomes the percentage formulas can reach:
    a finite value, either infinity, or NaN. Finite values are exact reals;
    floating-point rounding is not modelled. */
module JsNumber {

  datatype Number = Finite(value: real) | PosInfinity | NegInfinity | NaN

  /** `a / b` on numbers: division by zero gives an infinity whose sign is
      that of `a`, and `0 / 0` gives NaN. */
  function Divide(a: real, b: real): (r: Number)
    ensures b != 0.0 ==> r == Finite(a / b)
    ensures b == 0.0 && a > 0.0 ==> r == PosInfinity
    ensures b == 0.0 && a < 0.0 ==> r == NegInfinity
    ensures b == 0.0 && a == 0.0 ==> r == NaN
  {
    if b != 0.0 then Finite(a / b)
    else if a > 0.0 then PosInfinity
    else if a < 0.0 then NegInfinity
    else NaN
  }

  /** `x * k` for a positive constant `k`: a finite value is multiplied,
      an infinity keeps its sign and NaN stays NaN. */
  function Scale(x: Number, k: real): (r: Number)
    requires k > 0.0
    ensures x.Finite? ==> r == Finite(x.value * k)
    ensures x.PosInfinity? ==> r == PosInfinity
    ensures x.NegInfinity? ==> r == NegInfinity
    ensures r.NaN? <==> x.NaN?
  {
    if x.Finite? then Finite(x.value * k) else x
  }

  /** `Math.min(x, bound)`: NaN if `x` is NaN, otherwise the smaller one. */
  function Min(x: Number, bound: real): (r: Number)
    ensures !r.PosInfinity?
    ensures r.Finite? ==> r.value <= bound
    ensures r.NaN? <==> x.NaN?
    ensures x.Finite? && x.value <= bound ==> r == x
    ensures (x.Finite? && x.value >= bound) || x.PosInfinity? ==> r == Finite(bound)
    ensures x.NegInfinity? ==> r == NegInfinity
  {
    match x
    case Finite(v) => if v <= bound then x else Finite(bound)
    case PosInfinity => Finite(bound)
    case NegInfinity => NegInfinity
    case NaN => NaN
  }

  /** `x >= y`: +infinity is at least every finite `y`; -infinity and NaN
      are at least none. */
  predicate AtLeast(x: Number, y: real): (r: bool)
    ensures x.Finite? ==> (r <==> x.value >= y)
    ensures x.PosInfinity? ==> r
    ensures x.NegInfinity? || x.NaN? ==> !r
  {
    match x
    case Finite(v) => v >= y
    case PosInfinity => true
    case NegInfinity => false
    case NaN => false
  }
}

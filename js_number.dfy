/**
 * JavaScript numbers on exact reals: a finite value or one of the three
 * non-finite values that division by zero and `parseFloat` can produce.
 * Rounding is not modelled; a finite value is an exact `real`.
 */
module JsNumber {

  datatype Num = Fin(v: real) | PosInf | NegInf | NaN

  /** `x / y` for finite operands: IEEE-754 division, with no signed zero. */
  function Quotient(x: real, y: real): (r: Num)
    ensures y != 0.0 ==> r == Fin(x / y)
    ensures y == 0.0 ==> (r == PosInf <==> x > 0.0) && (r == NegInf <==> x < 0.0) && (r == NaN <==> x == 0.0)
  {
    if y != 0.0 then Fin(x / y)
    else if x > 0.0 then PosInf
    else if x < 0.0 then NegInf
    else NaN
  }

  /** `a * k` for a positive finite factor `k`. */
  function Times(a: Num, k: real): (r: Num)
    requires k > 0.0
    ensures a.Fin? <==> r.Fin?
    ensures a.Fin? ==> r.v == a.v * k
    ensures !a.Fin? ==> r == a
  {
    match a
    case Fin(v) => Fin(v * k)
    case _ => a
  }

  /** `a / k` for a positive finite divisor `k`. */
  function Over(a: Num, k: real): (r: Num)
    requires k > 0.0
    ensures a.Fin? <==> r.Fin?
    ensures a.Fin? ==> r.v * k == a.v
    ensures !a.Fin? ==> r == a
  {
    match a
    case Fin(v) => Fin(v / k)
    case _ => a
  }

  /** `a > x` for a finite right operand; every comparison with NaN is false. */
  predicate Greater(a: Num, x: real) {
    match a
    case Fin(v) => v > x
    case PosInf => true
    case NegInf => false
    case NaN => false
  }

  /** `a < x` for a finite right operand. */
  predicate Less(a: Num, x: real) {
    match a
    case Fin(v) => v < x
    case PosInf => false
    case NegInf => true
    case NaN => false
  }

  /** `Math.abs(a)`. */
  function Abs(a: Num): Num {
    match a
    case Fin(v) => Fin(if v < 0.0 then -v else v)
    case NegInf => PosInf
    case _ => a
  }

  /** `Math.min(a, 1)` for a positive `a`, which is always finite. */
  function MinOne(a: Num): real
    requires Greater(a, 0.0)
  {
    match a
    case Fin(v) => if v < 1.0 then v else 1.0
    case PosInf => 1.0
  }
}

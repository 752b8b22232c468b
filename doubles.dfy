/**
 * The IEEE double values that the modelled code returns besides finite
 * numbers: the negative infinity that the densities and operators return
 * to reject, and what a logarithm of zero or an infinite rate gives.
 * Finite values are exact reals; rounding is not modelled.
 */
module Doubles {

  datatype Double = Finite(v: real) | PosInf | NegInf | NaN

  /** IEEE addition on the four kinds of value. */
  function Add(a: Double, b: Double): (r: Double)
    ensures a.Finite? && b.Finite? ==> r == Finite(a.v + b.v)
    ensures (a.NaN? || b.NaN?) ==> r.NaN?
    ensures (a.NegInf? && b.PosInf?) || (a.PosInf? && b.NegInf?) ==> r.NaN?
    ensures a.NegInf? && !b.NaN? && !b.PosInf? ==> r.NegInf?
  {
    match (a, b)
    case (Finite(x), Finite(y)) => Finite(x + y)
    case (NaN, _) => NaN
    case (_, NaN) => NaN
    case (NegInf, PosInf) => NaN
    case (PosInf, NegInf) => NaN
    case (NegInf, _) => NegInf
    case (_, NegInf) => NegInf
    case (PosInf, _) => PosInf
    case (_, PosInf) => PosInf
  }

  /** IEEE negation. */
  function Neg(a: Double): (r: Double)
    ensures a.Finite? ==> r == Finite(-a.v)
    ensures (r.NaN? <==> a.NaN?) && (r.PosInf? <==> a.NegInf?) && (r.NegInf? <==> a.PosInf?)
  {
    match a
    case Finite(x) => Finite(-x)
    case PosInf => NegInf
    case NegInf => PosInf
    case NaN => NaN
  }

  /**
   * Math.log / math.log on a finite argument, with the natural logarithm
   * `ln` left uninterpreted on the positive reals: log(0) is -infinity
   * and the log of a negative number is NaN.
   */
  function Log(ln: real -> real, x: real): (r: Double)
    ensures r.Finite? <==> x > 0.0
    ensures r.NegInf? <==> x == 0.0
    ensures x > 0.0 ==> r.v == ln(x)
  {
    if x > 0.0 then Finite(ln(x)) else if x == 0.0 then NegInf else NaN
  }

  /** Math.log of any double: +infinity stays +infinity, and -infinity or NaN gives NaN. */
  function LogOf(ln: real -> real, d: Double): (r: Double)
    ensures d.Finite? ==> r == Log(ln, d.v)
    ensures d.PosInf? ==> r.PosInf?
    ensures d.NegInf? || d.NaN? ==> r.NaN?
  {
    match d
    case Finite(x) => Log(ln, x)
    case PosInf => PosInf
    case NegInf => NaN
    case NaN => NaN
  }

  /** IEEE division of two finite values: a zero divisor gives an infinity, or NaN for 0/0. */
  function Div(x: real, y: real): (r: Double)
    ensures y != 0.0 ==> r == Finite(x / y)
    ensures y == 0.0 ==> (r.PosInf? <==> x > 0.0) && (r.NegInf? <==> x < 0.0) && (r.NaN? <==> x == 0.0)
  {
    if y != 0.0 then Finite(x / y)
    else if x > 0.0 then PosInf
    else if x < 0.0 then NegInf
    else NaN
  }

  /** IEEE multiplication by a finite value: an infinity times zero is NaN. */
  function Scale(a: Double, k: real): (r: Double)
    ensures a.Finite? ==> r == Finite(a.v * k)
    ensures a.NaN? ==> r.NaN?
    ensures (a.PosInf? || a.NegInf?) && k == 0.0 ==> r.NaN?
  {
    if a.Finite? then Finite(a.v * k)
    else if a.NaN? || k == 0.0 then NaN
    else if (k > 0.0) == a.PosInf? then PosInf
    else NegInf
  }
}

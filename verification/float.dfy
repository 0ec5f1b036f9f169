/**
  The part of IEEE 754 floating point the panel's arithmetic can reach:
  reals extended with the two infinities and NaN. Rounding and the sign of
  zero are not modelled; every zero is taken as +0.0, so a non-zero value
  divided by zero gives the infinity of the numerator's sign.

  `SwiftMin` and `SwiftMax` follow the Swift standard library's generic
  `min(x, y)` (`y < x ? y : x`) and `max(x, y)` (`y >= x ? y : x`): since
  every comparison with NaN is false, a NaN second argument yields the first.
 */
module Float {

  datatype Ext = Fin(v: real) | PosInf | NegInf | NaN

  function Neg(x: Ext): Ext {
    match x
    case Fin(a) => Fin(-a)
    case PosInf => NegInf
    case NegInf => PosInf
    case NaN => NaN
  }

  function Add(x: Ext, y: Ext): Ext {
    match (x, y)
    case (NaN, _) => NaN
    case (_, NaN) => NaN
    case (PosInf, NegInf) => NaN
    case (NegInf, PosInf) => NaN
    case (PosInf, _) => PosInf
    case (NegInf, _) => NegInf
    case (_, PosInf) => PosInf
    case (_, NegInf) => NegInf
    case (Fin(a), Fin(b)) => Fin(a + b)
  }

  function Sub(x: Ext, y: Ext): Ext {
    Add(x, Neg(y))
  }

  /** Sign of a non-NaN value: -1, 0 or 1. */
  function Sign(x: Ext): int
    requires !x.NaN?
  {
    match x
    case Fin(a) => if a > 0.0 then 1 else if a < 0.0 then -1 else 0
    case PosInf => 1
    case NegInf => -1
  }

  function InfOfSign(s: int): Ext
    requires s == 1 || s == -1
  {
    if s == 1 then PosInf else NegInf
  }

  function Mul(x: Ext, y: Ext): Ext {
    if x.NaN? || y.NaN? then NaN
    else if x.Fin? && y.Fin? then Fin(x.v * y.v)
    else if Sign(x) == 0 || Sign(y) == 0 then NaN
    else InfOfSign(Sign(x) * Sign(y))
  }

  function Div(x: Ext, y: Ext): Ext {
    if x.NaN? || y.NaN? then NaN
    else if x.Fin? && y.Fin? then
      if y.v != 0.0 then Fin(x.v / y.v)
      else if x.v == 0.0 then NaN
      else InfOfSign(Sign(x))
    else if !x.Fin? && !y.Fin? then NaN
    else if x.Fin? then Fin(0.0)
    else if Sign(y) == 0 then InfOfSign(Sign(x))
    else InfOfSign(Sign(x) * Sign(y))
  }

  /** IEEE `<`: false whenever either side is NaN. */
  predicate Less(x: Ext, y: Ext) {
    match (x, y)
    case (NaN, _) => false
    case (_, NaN) => false
    case (Fin(a), Fin(b)) => a < b
    case (NegInf, NegInf) => false
    case (NegInf, _) => true
    case (_, PosInf) => !x.PosInf?
    case (_, _) => false
  }

  /** IEEE `>=`: false whenever either side is NaN. */
  predicate GreaterOrEqual(x: Ext, y: Ext) {
    !x.NaN? && !y.NaN? && !Less(x, y)
  }

  function SwiftMin(x: Ext, y: Ext): (r: Ext)
    ensures r == x || r == y
  {
    if Less(y, x) then y else x
  }

  function SwiftMax(x: Ext, y: Ext): (r: Ext)
    ensures r == x || r == y
  {
    if GreaterOrEqual(y, x) then y else x
  }

  /** Finite division by a non-zero divisor is real division. */
  lemma DivFinite(a: real, b: real)
    requires b != 0.0
    ensures Div(Fin(a), Fin(b)) == Fin(a / b)
  {
  }

  /**
    `max(lo, y)` with a finite first argument is never NaN and never
    -infinity: it is either +infinity or a finite value at least `lo`.
   */
  lemma SwiftMaxBounded(lo: real, y: Ext)
    ensures SwiftMax(Fin(lo), y).Fin? || SwiftMax(Fin(lo), y).PosInf?
    ensures SwiftMax(Fin(lo), y).Fin? ==> SwiftMax(Fin(lo), y).v >= lo
  {
  }

  /** Dividing zero by zero is NaN and a non-zero value by zero is an infinity. */
  lemma DivByZero(a: real)
    ensures a == 0.0 ==> Div(Fin(a), Fin(0.0)).NaN?
    ensures a > 0.0 ==> Div(Fin(a), Fin(0.0)) == PosInf
    ensures a < 0.0 ==> Div(Fin(a), Fin(0.0)) == NegInf
  {
  }
}

/**
 * The part of IEEE-754 double arithmetic the speedometer relies on: a value is
 * either a finite number (modelled as a real, without rounding) or NaN.
 * NaN absorbs every arithmetic operation and every ordered comparison with it
 * is false, which is what lets a non-converged distance pass through the
 * pipeline without being accumulated.
 */
module Doubles {

  datatype Num = Finite(v: real) | NaN

  /** `a + b` */
  function Add(a: Num, b: Num): (r: Num)
    ensures r.Finite? <==> a.Finite? && b.Finite?
    ensures r.Finite? ==> r.v == a.v + b.v
  {
    if a.Finite? && b.Finite? then Finite(a.v + b.v) else NaN
  }

  /** `a / k` for a non-zero finite divisor */
  function Div(a: Num, k: real): (r: Num)
    requires k != 0.0
    ensures r.Finite? <==> a.Finite?
    ensures r.Finite? ==> r.v * k == a.v
  {
    if a.Finite? then Finite(a.v / k) else NaN
  }

  /** `a * k` for a finite factor */
  function Mul(a: Num, k: real): (r: Num)
    ensures r.Finite? <==> a.Finite?
    ensures r.Finite? ==> r.v == a.v * k
  {
    if a.Finite? then Finite(a.v * k) else NaN
  }

  /** `a > c`: false when `a` is NaN */
  predicate Greater(a: Num, c: real)
  {
    a.Finite? && a.v > c
  }

  /** `a < c`: false when `a` is NaN */
  predicate Less(a: Num, c: real)
  {
    a.Finite? && a.v < c
  }

  function Abs(x: real): (r: real)
    ensures r >= 0.0 && (r == x || r == -x)
  {
    if x < 0.0 then -x else x
  }
}

/** The part of JavaScript number semantics that the views depend on: dividing by
    zero gives an infinity or NaN rather than an error, and comparisons with NaN
    are false. Finite values are exact reals (rounding is not modelled). */
module JsNumber {

  datatype Num = Finite(r: real) | PosInf | NegInf | NaN

  /** `a / b` for finite operands. */
  function Divide(a: real, b: real): (q: Num)
    ensures b != 0.0 ==> q.Finite? && q.r * b == a
    ensures b == 0.0 ==> (q.PosInf? <==> a > 0.0) && (q.NegInf? <==> a < 0.0) && (q.NaN? <==> a == 0.0)
  {
    if b != 0.0 then Finite(a / b)
    else if a > 0.0 then PosInf
    else if a < 0.0 then NegInf
    else NaN
  }

  /** `x * k` for a positive finite `k`: infinities and NaN are kept. */
  function Scale(x: Num, k: real): (r: Num)
    requires k > 0.0
    ensures r.Finite? <==> x.Finite?
    ensures x.Finite? ==> r.r == x.r * k
    ensures !x.Finite? ==> r == x
  {
    match x
    case Finite(v) => Finite(v * k)
    case _ => x
  }

  /** `(part / whole) * 100`, the percentage both the budget and the goal views compute. */
  function Percentage(part: real, whole: real): Num
  {
    Scale(Divide(part, whole), 100.0)
  }

  /** `x > y`: false whenever `x` is NaN. */
  predicate Greater(x: Num, y: real)
  {
    match x
    case Finite(v) => v > y
    case PosInf => true
    case _ => false
  }

  /** `x >= y`: false whenever `x` is NaN. */
  predicate AtLeast(x: Num, y: real)
  {
    match x
    case Finite(v) => v >= y
    case PosInf => true
    case _ => false
  }

  /** `Math.min(x, y)`: NaN if either is NaN, otherwise the smaller. */
  function Min(x: Num, y: real): (r: Num)
    ensures x.NaN? <==> r.NaN?
    ensures r.Finite? ==> r.r <= y
    ensures x.Finite? ==> r.Finite? && (r.r == x.r || r.r == y) && r.r <= x.r
    ensures x.PosInf? ==> r == Finite(y)
    ensures x.NegInf? ==> r.NegInf?
  {
    match x
    case Finite(v) => Finite(if v < y then v else y)
    case PosInf => Finite(y)
    case NegInf => NegInf
    case NaN => NaN
  }

  /** The sign of a product of two reals. */
  lemma ProductSign(a: real, b: real)
    ensures a > 0.0 && b > 0.0 ==> a * b > 0.0
    ensures a > 0.0 && b < 0.0 ==> a * b < 0.0
    ensures a == 0.0 || b == 0.0 ==> a * b == 0.0
  {
  }

  /** Comparing `part / whole` with 1 is comparing `part` with `whole`, the
      direction flipping for a negative `whole`. */
  lemma QuotientVersusOne(part: real, whole: real)
    requires whole != 0.0
    ensures part / whole > 1.0 <==> (whole > 0.0 && part > whole) || (whole < 0.0 && part < whole)
    ensures part / whole >= 1.0 <==> (whole > 0.0 && part >= whole) || (whole < 0.0 && part <= whole)
  {
    var q := part / whole;
    assert part == q * whole;
    assert part - whole == (q - 1.0) * whole;
    if q > 1.0 {
      ProductSign(q - 1.0, whole);
    } else if q < 1.0 {
      ProductSign(1.0 - q, whole);
      assert part - whole == -((1.0 - q) * whole);
    }
  }

  /** `(part / whole) * 100 > 100` holds exactly when `part` exceeds `whole` for
      a positive `whole`, when `part` is positive for a zero `whole` (Infinity),
      and when `part` is below `whole` for a negative `whole`. */
  lemma PercentageAbove(part: real, whole: real)
    ensures Greater(Percentage(part, whole), 100.0) <==>
      (whole > 0.0 && part > whole) || (whole == 0.0 && part > 0.0) || (whole < 0.0 && part < whole)
  {
    if whole != 0.0 {
      QuotientVersusOne(part, whole);
    }
  }

  /** `(part / whole) * 100 >= 100`, the same case split with the boundary included
      for a non-zero `whole` (0 / 0 is NaN, which is never `>= 100`). */
  lemma PercentageAtLeast(part: real, whole: real)
    ensures AtLeast(Percentage(part, whole), 100.0) <==>
      (whole > 0.0 && part >= whole) || (whole == 0.0 && part > 0.0) || (whole < 0.0 && part <= whole)
  {
    if whole != 0.0 {
      QuotientVersusOne(part, whole);
    }
  }
}

/** The parts of JavaScript number semantics the geometry code depends on:
    division that yields an infinity or NaN for a zero divisor, comparisons
    involving those values, and the tolerance comparison `sortaEqual` of
    part/src/math/util.ts.  Finite numbers are exact reals; signed zero is
    not modelled. */
module JsNumbers {

  /** A JavaScript number as produced by `/` on finite operands. */
  datatype Num = Fin(val: real) | PosInf | NegInf | NaN

  /** `a / b` on finite operands. */
  function Div(a: real, b: real): (r: Num)
    ensures b != 0.0 ==> r == Fin(a / b)
    ensures b == 0.0 ==> (r == NaN <==> a == 0.0) && (r == PosInf <==> a > 0.0) && (r == NegInf <==> a < 0.0)
  {
    if b != 0.0 then Fin(a / b)
    else if a > 0.0 then PosInf
    else if a < 0.0 then NegInf
    else NaN
  }

  /** JavaScript `a <= b`: false whenever either side is NaN. */
  predicate Le(a: Num, b: Num) {
    match (a, b)
    case (NaN, _) => false
    case (_, NaN) => false
    case (NegInf, _) => true
    case (_, PosInf) => true
    case (Fin(x), Fin(y)) => x <= y
    case _ => false
  }

  /** JavaScript `a < b`. */
  predicate Lt(a: Num, b: Num) {
    a != NaN && b != NaN && !Le(b, a)
  }

  /** JavaScript `n >= 0`. */
  predicate Ge0(n: Num) { Le(Fin(0.0), n) }

  /** JavaScript `n < 0`. */
  predicate Lt0(n: Num) { Lt(n, Fin(0.0)) }

  /** The tolerance `sortaEqual` uses when the caller gives none. */
  const DefaultEpsilon: real := 0.000000001

  /** `sortaEqual(a, b, eps)`: the two numbers differ by less than `eps`. */
  predicate SortaEqualWithin(a: real, b: real, eps: real) {
    (if a - b < 0.0 then b - a else a - b) < eps
  }

  predicate SortaEqual(a: real, b: real) {
    SortaEqualWithin(a, b, DefaultEpsilon)
  }

  /** `sortaEqual` applied to quotients: a difference involving an infinity
      or NaN is never below the tolerance. */
  predicate SortaEqualNum(a: Num, b: Num) {
    a.Fin? && b.Fin? && SortaEqual(a.val, b.val)
  }

  /** Exactly equal numbers are always sorta-equal, for every positive
      tolerance. */
  lemma SortaEqualReflexive(a: real, eps: real)
    requires eps > 0.0
    ensures SortaEqualWithin(a, a, eps)
  {
  }
}

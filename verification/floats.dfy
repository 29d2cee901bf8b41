/**
 The values `String::toFloat` can hand to the dispatcher. A finite float is
 modelled as a real (rounding is not modelled); the two infinities and
 not-a-number are kept because `atof` produces them for the texts "inf",
 "-inf" and "nan", and the dispatcher's comparisons treat them specially.
 */
module Floats {

  datatype Float = Finite(value: real) | PosInf | NegInf | NaN

  /** `x >= bound` under IEEE 754: every comparison with NaN is false. */
  predicate AtLeast(x: Float, bound: real) {
    match x
    case Finite(v) => v >= bound
    case PosInf => true
    case NegInf => false
    case NaN => false
  }

  /** `x <= bound` under IEEE 754. */
  predicate AtMost(x: Float, bound: real) {
    match x
    case Finite(v) => v <= bound
    case PosInf => false
    case NegInf => true
    case NaN => false
  }

  /**
   `x < bound` under IEEE 754. It is not the negation of `x >= bound`: NaN
   fails both, so "not below" does not mean "at least".
   */
  function Below(x: Float, bound: real): (r: bool)
    ensures r <==> !x.NaN? && !AtLeast(x, bound)
  {
    match x
    case Finite(v) => v < bound
    case PosInf => false
    case NegInf => true
    case NaN => false
  }

  /** `x > bound` under IEEE 754: true exactly when x is not NaN and not `<= bound`. */
  function Above(x: Float, bound: real): (r: bool)
    ensures r <==> !x.NaN? && !AtMost(x, bound)
  {
    match x
    case Finite(v) => v > bound
    case PosInf => true
    case NegInf => false
    case NaN => false
  }

  /**
   The guard `x >= lo && x <= hi` the dispatcher writes for its range checks.
   It admits exactly the finite values of the closed interval: NaN and both
   infinities are rejected.
   */
  function Within(x: Float, lo: real, hi: real): (b: bool)
    requires lo <= hi
    ensures b <==> x.Finite? && lo <= x.value <= hi
  {
    AtLeast(x, lo) && AtMost(x, hi)
  }

  /** The float sum `f + d` of a finite `f` and any `d`. */
  function Add(f: real, d: Float): (r: Float)
    ensures r.NaN? <==> d.NaN?
    ensures d.Finite? ==> r == Finite(f + d.value)
    ensures d.PosInf? ==> r.PosInf?
    ensures d.NegInf? ==> r.NegInf?
  {
    match d
    case Finite(x) => Finite(f + x)
    case PosInf => PosInf
    case NegInf => NegInf
    case NaN => NaN
  }
}

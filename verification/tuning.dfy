/**
 The `tune <delta>` adjustment: add a signed amount to the frequency, then
 clamp into [20, 5000]. `TuneAsWritten` follows the firmware statement by
 statement in float arithmetic; `Tune` is the corrected definition the
 dispatcher uses, which differs only for a NaN delta.
 */
module Tuning {
  import opened Floats
  import opened Generator

  /** The two clamping statements: raise to 20 if below, then lower to 5000 if above. */
  function Clamp(x: real): (r: real)
    ensures FrequencyInRange(r)
    ensures FrequencyInRange(x) ==> r == x
    ensures x < MinFrequency ==> r == MinFrequency
    ensures x > MaxFrequency ==> r == MaxFrequency
  {
    var raised := if x < MinFrequency then MinFrequency else x;
    if raised > MaxFrequency then MaxFrequency else raised
  }

  /** Clamping is monotone: a larger sum never yields a lower frequency. */
  lemma ClampMonotone(x: real, y: real)
    requires x <= y
    ensures Clamp(x) <= Clamp(y)
  {
  }

  /**
   The firmware's statements on the float frequency: `f += d`, then the two
   comparisons. Because every comparison with NaN is false, a NaN delta
   slips through both and becomes the stored frequency; that is the only
   way the result can leave [20, 5000].
   */
  function TuneAsWritten(f: real, d: Float): (r: Float)
    ensures r.NaN? <==> d.NaN?
    ensures !r.NaN? ==> r.Finite? && FrequencyInRange(r.value)
  {
    var sum := Add(f, d);
    var raised := if Below(sum, MinFrequency) then Finite(MinFrequency) else sum;
    if Above(raised, MaxFrequency) then Finite(MaxFrequency) else raised
  }

  /** The input that shows the defect: `tune nan` at 440 Hz stores NaN. */
  lemma TuneAsWrittenNaN()
    ensures TuneAsWritten(440.0, NaN) == NaN
  {
  }

  /**
   The corrected adjustment. A finite delta is added and the sum clamped;
   an infinite delta pins the frequency to the matching bound; a NaN delta
   is treated as no adjustment. The result is always in range.
   */
  function Tune(f: real, d: Float): (r: real)
    ensures FrequencyInRange(r)
    ensures d.Finite? && FrequencyInRange(f + d.value) ==> r == f + d.value
    ensures d.Finite? && f + d.value < MinFrequency ==> r == MinFrequency
    ensures d.Finite? && f + d.value > MaxFrequency ==> r == MaxFrequency
    ensures d.PosInf? ==> r == MaxFrequency
    ensures d.NegInf? ==> r == MinFrequency
    ensures d.NaN? && FrequencyInRange(f) ==> r == f
  {
    match d
    case Finite(x) => Clamp(f + x)
    case PosInf => MaxFrequency
    case NegInf => MinFrequency
    case NaN => Clamp(f)
  }

  /** On every delta other than NaN the corrected adjustment is the firmware's. */
  lemma TuneAgreesWithFirmware(f: real, d: Float)
    requires !d.NaN?
    ensures TuneAsWritten(f, d) == Finite(Tune(f, d))
  {
  }
}

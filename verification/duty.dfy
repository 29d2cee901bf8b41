/**
 The duty value written to the PWM channel on each sample while the
 generator runs: 128 + 127 * amplitude * waveValue, converted to an integer
 by C's truncating cast, then constrained to the 8-bit range. The sample
 value itself (a sine, square, triangle or sawtooth of the phase) is an
 input here.
 */
module Duty {

  /** The 8-bit midpoint, written as the rest level. */
  const Midpoint: int := 128
  /** The swing either side of the midpoint at full amplitude. */
  const Swing: real := 127.0
  /** The largest 8-bit duty value. */
  const MaxDuty: int := 255

  /** C's `(int)` conversion of a real: truncation toward zero. */
  function Truncate(x: real): (r: int)
    ensures 0.0 <= x ==> 0 <= r && r as real <= x < r as real + 1.0
    ensures x < 0.0 ==> r <= 0 && r as real - 1.0 < x <= r as real
  {
    if x >= 0.0 then x.Floor else -((-x).Floor)
  }

  /** Truncation never reverses the order of two reals. */
  lemma TruncateMonotone(x: real, y: real)
    requires x <= y
    ensures Truncate(x) <= Truncate(y)
  {
    if 0.0 <= x {
      assert x.Floor <= y.Floor;
    } else if y < 0.0 {
      assert (-y).Floor <= (-x).Floor;
    }
  }

  /** Arduino's `constrain(x, lo, hi)`. */
  function Constrain(x: int, lo: int, hi: int): (r: int)
    requires lo <= hi
    ensures lo <= r <= hi
    ensures lo <= x <= hi ==> r == x
    ensures x < lo ==> r == lo
    ensures x > hi ==> r == hi
  {
    if x < lo then lo else if x > hi then hi else x
  }

  /** The value before constraining: `(int)(128 + 127 * amplitude * waveValue)`. */
  function RawDuty(amplitude: real, waveValue: real): (r: int)
    ensures var x := Midpoint as real + Swing * amplitude * waveValue;
            && (0.0 <= x ==> r as real <= x < r as real + 1.0)
            && (x < 0.0 ==> r as real - 1.0 < x <= r as real)
  {
    Truncate(Midpoint as real + Swing * amplitude * waveValue)
  }

  /** The duty value written: always a valid 8-bit duty, whatever the sample. */
  function DutyValue(amplitude: real, waveValue: real): (r: int)
    ensures 0 <= r <= MaxDuty
    ensures 0 <= RawDuty(amplitude, waveValue) <= MaxDuty ==> r == RawDuty(amplitude, waveValue)
  {
    Constrain(RawDuty(amplitude, waveValue), 0, MaxDuty)
  }

  /**
   With an amplitude in [0, 1] and a sample in [-1, 1] the constrain never
   acts: the truncated value already lies in [1, 255].
   */
  lemma RawDutyInRange(amplitude: real, waveValue: real)
    requires 0.0 <= amplitude <= 1.0 && -1.0 <= waveValue <= 1.0
    ensures 1 <= RawDuty(amplitude, waveValue) <= MaxDuty
    ensures DutyValue(amplitude, waveValue) == RawDuty(amplitude, waveValue)
  {
    var p := amplitude * waveValue;
    assert (1.0 - amplitude) * waveValue == waveValue - p;
    if waveValue >= 0.0 {
      ProductNonNegative(1.0 - amplitude, waveValue);
      ProductNonNegative(amplitude, waveValue);
      assert 0.0 <= p <= waveValue;
    } else {
      ProductNonNegative(1.0 - amplitude, -waveValue);
      ProductNonNegative(amplitude, -waveValue);
      assert waveValue <= p <= 0.0;
    }
    assert Swing * amplitude * waveValue == Swing * p;
    assert 1.0 <= Midpoint as real + Swing * p <= 255.0;
  }

  lemma ProductNonNegative(x: real, y: real)
    requires 0.0 <= x && 0.0 <= y
    ensures 0.0 <= x * y
  {
  }

  /** Zero amplitude or a zero sample gives the midpoint. */
  lemma DutyAtRest(amplitude: real, waveValue: real)
    requires amplitude == 0.0 || waveValue == 0.0
    ensures DutyValue(amplitude, waveValue) == Midpoint
  {
    assert Swing * amplitude * waveValue == 0.0;
  }

  /** For a fixed non-negative amplitude a larger sample never gives a smaller duty. */
  lemma DutyMonotone(amplitude: real, w1: real, w2: real)
    requires 0.0 <= amplitude && w1 <= w2
    ensures DutyValue(amplitude, w1) <= DutyValue(amplitude, w2)
  {
    assert Swing * amplitude * w1 <= Swing * amplitude * w2 by {
      assert amplitude * w1 <= amplitude * w2;
    }
    TruncateMonotone(Midpoint as real + Swing * amplitude * w1, Midpoint as real + Swing * amplitude * w2);
  }
}

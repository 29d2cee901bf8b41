/**
 Concrete sessions: the boundary cases of the range checks, the preset
 lookup in both letter cases, the clamp of `tune`, and one end-to-end run
 from power-on to the duty value of a sample. The parser `toFloat` is
 pinned only on the texts each scenario uses.
 */
module Scenarios {
  import opened Floats
  import opened Text
  import opened Generator
  import opened Presets
  import opened Dispatcher
  import opened Duty
  import Tuning
  import Commands

  /** Both frequency bounds are inclusive; one hertz beyond either is rejected. */
  lemma FrequencyBounds(g: State, toFloat: string -> Float)
    requires toFloat("19") == Finite(19.0) && toFloat("20") == Finite(20.0)
    requires toFloat("5000") == Finite(5000.0) && toFloat("5001") == Finite(5001.0)
    ensures Step(g, "freq 19", toFloat) == g && Step(g, "freq 5001", toFloat) == g
    ensures Step(g, "freq 20", toFloat).frequency == 20.0
    ensures Step(g, "freq 5000", toFloat).frequency == 5000.0
  {
    assert "freq " + "19" == "freq 19";
    assert "freq " + "20" == "freq 20";
    assert "freq " + "5000" == "freq 5000";
    assert "freq " + "5001" == "freq 5001";
    FreqCommand(g, "19", toFloat);
    FreqCommand(g, "20", toFloat);
    FreqCommand(g, "5000", toFloat);
    FreqCommand(g, "5001", toFloat);
  }

  /** A percentage the parser reads as a finite p in [0, 100] becomes amplitude p/100. */
  lemma AmplitudeAccepted(g: State, t: string, p: real, toFloat: string -> Float)
    requires toFloat(t) == Finite(p) && 0.0 <= p <= 100.0
    ensures Step(g, "amp " + t, toFloat).amplitude == p / 100.0
  {
    AmpCommand(g, t, toFloat);
  }

  /** 0 and 100 percent are accepted, as amplitudes 0 and 1. */
  lemma AmplitudeEnds(g: State, toFloat: string -> Float)
    requires toFloat("0") == Finite(0.0) && toFloat("100") == Finite(100.0)
    ensures Step(g, "amp 0", toFloat).amplitude == 0.0
    ensures Step(g, "amp 100", toFloat).amplitude == 1.0
  {
    assert "amp " + "0" == "amp 0";
    assert "amp " + "100" == "amp 100";
    AmplitudeAccepted(g, "0", 0.0, toFloat);
    AmplitudeAccepted(g, "100", 100.0, toFloat);
  }

  /** -1 and 101 percent are rejected and change nothing. */
  lemma AmplitudeOutside(g: State, toFloat: string -> Float)
    requires toFloat("-1") == Finite(-1.0) && toFloat("101") == Finite(101.0)
    ensures Step(g, "amp -1", toFloat) == g && Step(g, "amp 101", toFloat) == g
  {
    assert "amp " + "-1" == "amp -1";
    assert "amp " + "101" == "amp 101";
    AmpCommand(g, "-1", toFloat);
    AmpCommand(g, "101", toFloat);
  }

  /** Both amplitude bounds are inclusive; -1 and 101 percent are rejected. */
  lemma AmplitudeBounds(g: State, toFloat: string -> Float)
    requires toFloat("0") == Finite(0.0) && toFloat("100") == Finite(100.0)
    requires toFloat("-1") == Finite(-1.0) && toFloat("101") == Finite(101.0)
    ensures Step(g, "amp 0", toFloat).amplitude == 0.0
    ensures Step(g, "amp 100", toFloat).amplitude == 1.0
    ensures Step(g, "amp -1", toFloat) == g && Step(g, "amp 101", toFloat) == g
  {
    AmplitudeEnds(g, toFloat);
    AmplitudeOutside(g, toFloat);
  }

  /** `note e2` selects the low E string. */
  lemma NoteLowE(g: State, toFloat: string -> Float)
    ensures Step(g, "note e2", toFloat) == g.(frequency := 82.4)
  {
    PresetNamesLowered();
    ToLowerNoUpper("e2");
    assert "note " + "e2" == "note e2";
    assert NameMatches(GuitarNotes, 0, "e2");
    NoteCommand(g, "e2", toFloat);
  }

  /** `note E2` and `note e2` have the same effect. */
  lemma NoteIgnoresCase(g: State, toFloat: string -> Float)
    ensures Handle(g, "note E2", toFloat) == Handle(g, "note e2", toFloat)
  {
    assert "note E2" == "note " + "E2" && "note e2" == "note " + "e2";
    ToLowerConcat("note ", "E2");
    ToLowerConcat("note ", "e2");
    assert ToLower("E2") == "e2" by {
      assert ToLower("E2")[0] == LowerChar('E') == 'e';
      assert ToLower("E2")[1] == LowerChar('2') == '2';
    }
    ToLowerNoUpper("e2");
    HandleCaseInsensitive(g, "note E2", "note e2", toFloat);
  }

  /** `note zz` names no preset and changes nothing. */
  lemma NoteUnknownName(g: State, toFloat: string -> Float)
    ensures Step(g, "note zz", toFloat) == g
  {
    ToLowerNoUpper("zz");
    assert "zz" !in LowerNames;
    NoPresetNamed("zz");
    assert "note " + "zz" == "note zz";
    NoteCommand(g, "zz", toFloat);
  }

  /** `tune 100` at 4950 Hz stops at 5000 Hz, not 5050 Hz. */
  lemma TuneClampsAtTop(g: State, toFloat: string -> Float)
    requires g.frequency == 4950.0 && toFloat("100") == Finite(100.0)
    ensures Step(g, "tune 100", toFloat).frequency == 5000.0
  {
    assert "tune " + "100" == "tune 100";
    TuneCommand(g, "100", toFloat);
  }

  /** With the corrected adjustment, `tune nan` leaves a valid frequency where it was. */
  lemma TuneNaNKeepsFrequency(g: State, toFloat: string -> Float)
    requires Valid(g) && toFloat("nan") == NaN
    ensures Step(g, "tune nan", toFloat) == g
  {
    assert "tune " + "nan" == "tune nan";
    TuneCommand(g, "nan", toFloat);
  }

  /**
   The line `tune nan` as the firmware writes it: the parsed delta is NaN,
   and the statements of lines 159-161 store NaN as the frequency, which
   leaves [20, 5000].
   */
  lemma TuneNaNAsWritten(g: State, toFloat: string -> Float)
    requires toFloat("nan") == NaN
    ensures Commands.Parse("tune nan", toFloat) == Commands.Tune(NaN)
    ensures Tuning.TuneAsWritten(g.frequency, Commands.Parse("tune nan", toFloat).delta) == NaN
  {
    assert "tune " + "nan" == "tune nan";
    Commands.ParseTune("nan", toFloat);
  }

  /** From power-on, `wave square` selects the square wave. */
  lemma SquareFromDefaults(toFloat: string -> Float)
    ensures Step(Defaults, "wave square", toFloat) == Defaults.(waveform := "square")
  {
    assert "wave " + "square" == "wave square";
    assert "square" in WaveNames;
    WaveCommand(Defaults, "square", toFloat);
  }

  /** `freq 1000` on the square-wave settings sets 1 kHz. */
  lemma KiloHertzOnSquare(toFloat: string -> Float)
    requires toFloat("1000") == Finite(1000.0)
    ensures Step(Defaults.(waveform := "square"), "freq 1000", toFloat)
            == Defaults.(waveform := "square", frequency := 1000.0)
  {
    assert "freq " + "1000" == "freq 1000";
    FreqCommand(Defaults.(waveform := "square"), "1000", toFloat);
  }

  /** `amp 50` then halves the amplitude. */
  lemma HalfAmplitudeOnSquare(toFloat: string -> Float)
    requires toFloat("50") == Finite(50.0)
    ensures Step(Defaults.(waveform := "square", frequency := 1000.0), "amp 50", toFloat)
            == State(1000.0, 0.5, true, "square")
  {
    assert "amp " + "50" == "amp 50";
    AmpCommand(Defaults.(waveform := "square", frequency := 1000.0), "50", toFloat);
  }

  /** From power-on, `wave square`, `freq 1000` and `amp 50` give a 1 kHz square wave at half amplitude. */
  lemma EndToEndSettings(toFloat: string -> Float)
    requires toFloat("1000") == Finite(1000.0) && toFloat("50") == Finite(50.0)
    ensures Step(Step(Step(Defaults, "wave square", toFloat), "freq 1000", toFloat), "amp 50", toFloat)
            == State(1000.0, 0.5, true, "square")
  {
    SquareFromDefaults(toFloat);
    KiloHertzOnSquare(toFloat);
    HalfAmplitudeOnSquare(toFloat);
  }

  /** A sample of +1 at half amplitude yields duty 191. */
  lemma EndToEndDuty()
    ensures DutyValue(0.5, 1.0) == 191
  {
    assert Midpoint as real + Swing * 0.5 * 1.0 == 191.5;
    assert Truncate(191.5) == 191;
  }
}

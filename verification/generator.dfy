/**
 The generator's settings: the state every serial command reads and writes,
 its power-on defaults and the invariant the dispatcher keeps.
 */
module Generator {

  /** The frequency range the `freq` and `tune` commands enforce, in Hz. */
  const MinFrequency: real := 20.0
  const MaxFrequency: real := 5000.0

  /** The waveform names `wave` accepts; the name is stored as text. */
  const WaveNames: set<string> := {"sine", "square", "triangle", "sawtooth"}

  /**
   The settings: frequency in Hz, amplitude as a fraction of full scale,
   whether the output is running, and the waveform name.
   */
  datatype State = State(frequency: real, amplitude: real, enabled: bool, waveform: string)

  /** Power-on values: 440 Hz, full amplitude, running, sine. */
  const Defaults: State := State(440.0, 1.0, true, "sine")

  predicate FrequencyInRange(f: real) {
    MinFrequency <= f <= MaxFrequency
  }

  /** The invariant: frequency in [20, 5000], amplitude in [0, 1], a known waveform. */
  predicate Valid(g: State) {
    && FrequencyInRange(g.frequency)
    && 0.0 <= g.amplitude <= 1.0
    && g.waveform in WaveNames
  }

  lemma DefaultsValid()
    ensures Valid(Defaults)
  {
  }
}

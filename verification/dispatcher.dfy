/**
 The command dispatcher as a state machine: each line read from the serial
 link is trimmed, folded to lower case, classified, and applied to the
 generator settings. Every branch except `tune` either validates its
 argument and changes one setting, or rejects it and leaves the settings as
 they were. `tune` never rejects: it adds and clamps. Here it uses the
 corrected adjustment `Tuning.Tune`, which agrees with the firmware on every
 delta but NaN; as written, a NaN delta is stored as the frequency (see
 `Tuning.TuneAsWritten`), so the invariants below hold for the firmware
 with `tune` corrected.
 */
module Dispatcher {
  import opened Wrappers
  import opened Text
  import opened Floats
  import opened Generator
  import opened Presets
  import opened Commands
  import Tuning

  /** The frequency every sweep ends on. */
  const SweepResetFrequency: real := 440.0

  /** `freq <x>`: accept a finite x in [20, 5000], otherwise leave everything alone. */
  function SetFrequency(g: State, hz: Float): (r: State)
    ensures r.amplitude == g.amplitude && r.enabled == g.enabled && r.waveform == g.waveform
    ensures hz.Finite? && FrequencyInRange(hz.value) ==> r.frequency == hz.value
    ensures !(hz.Finite? && FrequencyInRange(hz.value)) ==> r == g
    ensures Valid(g) ==> Valid(r)
  {
    if Within(hz, MinFrequency, MaxFrequency) then g.(frequency := hz.value) else g
  }

  /** `amp <p>`: accept a finite percentage in [0, 100] and store it as a fraction. */
  function SetAmplitude(g: State, percent: Float): (r: State)
    ensures r.frequency == g.frequency && r.enabled == g.enabled && r.waveform == g.waveform
    ensures percent.Finite? && 0.0 <= percent.value <= 100.0 ==>
              r.amplitude * 100.0 == percent.value && 0.0 <= r.amplitude <= 1.0
    ensures !(percent.Finite? && 0.0 <= percent.value <= 100.0) ==> r == g
    ensures Valid(g) ==> Valid(r)
  {
    if Within(percent, 0.0, 100.0) then g.(amplitude := percent.value / 100.0) else g
  }

  /** `wave <w>`: accept one of the four names, otherwise leave everything alone. */
  function SetWaveform(g: State, name: string): (r: State)
    ensures r.frequency == g.frequency && r.amplitude == g.amplitude && r.enabled == g.enabled
    ensures r.waveform == (if name in WaveNames then name else g.waveform)
    ensures Valid(g) ==> Valid(r)
  {
    if name == "sine" || name == "square" || name == "triangle" || name == "sawtooth" then
      g.(waveform := name)
    else
      g
  }

  /**
   `note <name>`: take the frequency of the preset that answers to `name`;
   since no two presets share a name, whichever entry matches is the one
   used. Without a match nothing changes.
   */
  function ApplyNote(g: State, name: string): (r: State)
    ensures r.amplitude == g.amplitude && r.enabled == g.enabled && r.waveform == g.waveform
    ensures forall i :: 0 <= i < |GuitarNotes| && NameMatches(GuitarNotes, i, name) ==>
              r == g.(frequency := GuitarNotes[i].freq)
    ensures (forall i :: 0 <= i < |GuitarNotes| ==> !NameMatches(GuitarNotes, i, name)) ==> r == g
    ensures Valid(g) ==> Valid(r)
  {
    match FindNote(GuitarNotes, name)
    case None => g
    case Some(k) =>
      PresetsInRange();
      PresetNamesDistinct();
      g.(frequency := GuitarNotes[k].freq)
  }

  /**
   The scan inside `setNoteByName`: walk the table in order and stop at the
   first entry whose lower-cased name is `name`; -1 when there is none.
   */
  method ScanNotes(notes: seq<Note>, name: string) returns (k: int)
    ensures -1 <= k < |notes|
    ensures k >= 0 ==> NameMatches(notes, k, name)
    ensures k >= 0 ==> forall j :: 0 <= j < k ==> !NameMatches(notes, j, name)
    ensures k < 0 ==> forall j :: 0 <= j < |notes| ==> !NameMatches(notes, j, name)
  {
    var i := 0;
    while i < |notes|
      invariant 0 <= i <= |notes|
      invariant forall j :: 0 <= j < i ==> !NameMatches(notes, j, name)
    {
      var lowered := ToLower(notes[i].name);
      if lowered == name {
        return i;
      }
      i := i + 1;
    }
    return -1;
  }

  /** `setNoteByName`: the scan over the preset table, then the frequency update on a match. */
  method SetNoteByName(g: State, name: string) returns (r: State, found: bool)
    ensures found <==> exists i :: 0 <= i < |GuitarNotes| && NameMatches(GuitarNotes, i, name)
    ensures r == ApplyNote(g, name)
  {
    var k := ScanNotes(GuitarNotes, name);
    if k >= 0 {
      r, found := g.(frequency := GuitarNotes[k].freq), true;
    } else {
      r, found := g, false;
    }
  }

  /**
   `sweep`: the end state of the timed ramp. Whatever the ramp did to the
   frequency and the enabled flag, `enabled` is restored and the frequency
   reset to 440 Hz.
   */
  function SweepTest(g: State): (r: State)
    ensures r.enabled == g.enabled
    ensures r.frequency == SweepResetFrequency
    ensures r.amplitude == g.amplitude && r.waveform == g.waveform
    ensures Valid(g) ==> Valid(r)
  {
    g.(frequency := SweepResetFrequency)
  }

  /** Commands that only print. */
  predicate ReadOnly(cmd: Command) {
    cmd.Help? || cmd.Status? || cmd.ListNotes? || cmd.Unknown?
  }

  /**
   The effect of one classified command. Only `amp` touches the amplitude,
   only `wave` the waveform, only `on`/`off` the enabled flag, and only
   `freq`, `note`, `sweep` and `tune` the frequency; print-only commands
   touch nothing; and the invariant is kept.
   */
  function Exec(g: State, cmd: Command): (r: State)
    ensures Valid(g) ==> Valid(r)
    ensures ReadOnly(cmd) ==> r == g
    ensures r.amplitude != g.amplitude ==> cmd.SetAmp?
    ensures r.waveform != g.waveform ==> cmd.SetWave?
    ensures r.enabled != g.enabled ==> cmd.On? || cmd.Off?
    ensures r.frequency != g.frequency ==> cmd.SetFreq? || cmd.SetNote? || cmd.Sweep? || cmd.Tune?
    ensures cmd.On? ==> r == g.(enabled := true)
    ensures cmd.Off? ==> r == g.(enabled := false)
    ensures cmd.Tune? ==> FrequencyInRange(r.frequency)
    ensures cmd.Tune? && !cmd.delta.NaN? ==>
              Tuning.TuneAsWritten(g.frequency, cmd.delta) == Finite(r.frequency)
  {
    match cmd
    case Help => g
    case Status => g
    case On => g.(enabled := true)
    case Off => g.(enabled := false)
    case SetFreq(hz) => SetFrequency(g, hz)
    case SetAmp(p) => SetAmplitude(g, p)
    case SetWave(w) => SetWaveform(g, w)
    case ListNotes => g
    case SetNote(n) => ApplyNote(g, n)
    case Sweep => SweepTest(g)
    case Tune(d) =>
      var r := g.(frequency := Tuning.Tune(g.frequency, d));
      assert !d.NaN? ==> Tuning.TuneAsWritten(g.frequency, d) == Finite(r.frequency) by {
        if !d.NaN? {
          Tuning.TuneAgreesWithFirmware(g.frequency, d);
        }
      }
      r
    case Unknown => g
  }

  /** One already trimmed and lower-cased line. */
  function Step(g: State, line: string, toFloat: string -> Float): (r: State)
    ensures Valid(g) ==> Valid(r)
    ensures !Recognised(line) ==> r == g
  {
    UnknownIffUnrecognised(line, toFloat);
    Exec(g, Parse(line, toFloat))
  }

  /** One raw line as read: trimmed, folded to lower case, then dispatched. */
  function Handle(g: State, raw: string, toFloat: string -> Float): (r: State)
    ensures Valid(g) ==> Valid(r)
  {
    Step(g, ToLower(Trim(raw)), toFloat)
  }

  /** Every command but `tune` reaches a fixed point after one application. */
  lemma ExecIdempotent(g: State, cmd: Command)
    requires !cmd.Tune?
    ensures Exec(Exec(g, cmd), cmd) == Exec(g, cmd)
  {
    match cmd
    case SetNote(n) =>
      PresetNamesDistinct();
    case _ =>
  }

  /** `freq <x>` and `f <x>` set the frequency to x iff 20 <= x <= 5000, else change nothing. */
  lemma FreqCommand(g: State, t: string, toFloat: string -> Float)
    ensures var x := toFloat(t);
            && Step(g, "freq " + t, toFloat) == (if x.Finite? && FrequencyInRange(x.value) then g.(frequency := x.value) else g)
            && Step(g, "f " + t, toFloat) == Step(g, "freq " + t, toFloat)
  {
    ParseFreq(t, toFloat);
  }

  /** `amp <p>` and `a <p>` set the amplitude to p/100 iff 0 <= p <= 100, else change nothing. */
  lemma AmpCommand(g: State, t: string, toFloat: string -> Float)
    ensures var p := toFloat(t);
            && Step(g, "amp " + t, toFloat) == (if p.Finite? && 0.0 <= p.value <= 100.0 then g.(amplitude := p.value / 100.0) else g)
            && Step(g, "a " + t, toFloat) == Step(g, "amp " + t, toFloat)
  {
    ParseAmp(t, toFloat);
  }

  /** `wave <w>` and `w <w>` set the waveform iff w is one of the four names. */
  lemma WaveCommand(g: State, t: string, toFloat: string -> Float)
    ensures Step(g, "wave " + t, toFloat) == (if t in WaveNames then g.(waveform := t) else g)
    ensures Step(g, "w " + t, toFloat) == Step(g, "wave " + t, toFloat)
  {
    ParseWave(t, toFloat);
  }

  /**
   `note <n>` sets only the frequency, to that of the preset whose lower-cased
   name is the lower-cased n; without one, nothing changes.
   */
  lemma NoteCommand(g: State, t: string, toFloat: string -> Float)
    ensures forall i :: 0 <= i < |GuitarNotes| && NameMatches(GuitarNotes, i, ToLower(t)) ==>
              Step(g, "note " + t, toFloat) == g.(frequency := GuitarNotes[i].freq)
    ensures (forall i :: 0 <= i < |GuitarNotes| ==> !NameMatches(GuitarNotes, i, ToLower(t))) ==>
              Step(g, "note " + t, toFloat) == g
  {
    ParseNote(t, toFloat);
  }

  /** `tune <d>` never rejects: it always stores the clamped sum, which lies in [20, 5000]. */
  lemma TuneCommand(g: State, t: string, toFloat: string -> Float)
    ensures Step(g, "tune " + t, toFloat) == g.(frequency := Tuning.Tune(g.frequency, toFloat(t)))
    ensures FrequencyInRange(Step(g, "tune " + t, toFloat).frequency)
  {
    ParseTune(t, toFloat);
  }

  /** `on`/`start` and `off`/`stop` change only the enabled flag. */
  lemma SwitchCommands(g: State, toFloat: string -> Float)
    ensures Step(g, "on", toFloat) == g.(enabled := true)
    ensures Step(g, "start", toFloat) == g.(enabled := true)
    ensures Step(g, "off", toFloat) == g.(enabled := false)
    ensures Step(g, "stop", toFloat) == g.(enabled := false)
  {
    ParseSwitches(toFloat);
  }

  /** `help`, `status`, `notes` and their one-letter forms change nothing. */
  lemma PrintCommands(g: State, toFloat: string -> Float)
    ensures Step(g, "help", toFloat) == g && Step(g, "h", toFloat) == g
    ensures Step(g, "status", toFloat) == g && Step(g, "s", toFloat) == g
    ensures Step(g, "notes", toFloat) == g && Step(g, "n", toFloat) == g
  {
    ParsePrints(toFloat);
  }

  /** `sweep` ends with `enabled` as it was, 440 Hz, and amplitude and waveform untouched. */
  lemma SweepCommand(g: State, toFloat: string -> Float)
    ensures Step(g, "sweep", toFloat) == g.(frequency := SweepResetFrequency)
  {
    ParseSweep(toFloat);
  }

  /** Lines that differ only in letter case have the same effect. */
  lemma HandleCaseInsensitive(g: State, raw1: string, raw2: string, toFloat: string -> Float)
    requires ToLower(raw1) == ToLower(raw2)
    ensures Handle(g, raw1, toFloat) == Handle(g, raw2, toFloat)
  {
    TrimLowerCommute(raw1);
    TrimLowerCommute(raw2);
  }

  /** A line that is already trimmed and lower-case is dispatched as it stands. */
  lemma HandleNormalised(g: State, line: string, toFloat: string -> Float)
    requires Trim(line) == line && ToLower(line) == line
    ensures Handle(g, line, toFloat) == Step(g, line, toFloat)
  {
  }

  /** `wave <w>` with one of the four names has no capitals. */
  lemma WaveLineLower(w: string)
    requires w in WaveNames
    ensures ToLower("wave " + w) == "wave " + w
  {
    var line := "wave " + w;
    assert forall i :: 0 <= i < |w| ==> 'a' <= w[i] <= 'z';
    assert forall i :: 0 <= i < |line| ==> !IsUpper(line[i]);
    ToLowerNoUpper(line);
  }

  /** `wave <w>` with one of the four names has no white space at its ends. */
  lemma WaveLineTrimmed(w: string)
    requires w in WaveNames
    ensures Trim("wave " + w) == "wave " + w
  {
    var line := "wave " + w;
    assert line[0] == 'w' && line[|line| - 1] == w[|w| - 1];
    TrimNoEdgeSpace(line);
  }

  /** `wave <w>` in any letter case selects the lower-case name. */
  lemma WaveAnyCase(g: State, raw: string, w: string, toFloat: string -> Float)
    requires w in WaveNames
    requires ToLower(raw) == "wave " + w
    ensures Handle(g, raw, toFloat) == g.(waveform := w)
  {
    var line := "wave " + w;
    WaveLineLower(w);
    WaveLineTrimmed(w);
    HandleCaseInsensitive(g, raw, line, toFloat);
    HandleNormalised(g, line, toFloat);
    WaveCommand(g, w, toFloat);
  }
}

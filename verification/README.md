# ESP32-C3 serial wave generator: the command dispatcher as a state machine

The firmware drives a PWM pin with a sine, square, triangle or sawtooth wave
and takes text commands over the serial link. This project models the part
that decides what the settings are:

- the generator settings (frequency, amplitude, enabled flag, waveform name)
  with their power-on defaults and the invariant the firmware relies on;
- the guitar-note preset table and its case-insensitive, first-match lookup;
- the command dispatcher: each line is trimmed, folded to lower case,
  classified by the first matching branch of the if/else chain, and applied;
- the end state of the frequency sweep;
- the duty value computed for one sample from the amplitude and the sample.

The model is functional. `Generator.State` is an immutable record, and
`Dispatcher.Step(state, line, toFloat)` returns the next state. The
float parser of the `String` class is the parameter `toFloat`, which
returns a `Floats.Float`: a finite value, an infinity or NaN. The IEEE
comparisons in the range checks are modelled on that type. Finite floats are
Dafny reals. The dispatcher applies `tune` with its NaN defect corrected (see
Findings); the firmware's own `tune` statements are modelled separately in
`Tuning.TuneAsWritten`, and the invariant results are about the corrected
dispatcher.

Modules, one per component:

| file | module | component |
|---|---|---|
| text.dfy | `Text` | `trim`, `toLowerCase`, `indexOf`, `startsWith` of the `String` class |
| floats.dfy | `Floats` | parsed numbers and IEEE comparisons |
| generator.dfy | `Generator` | settings, defaults, invariant |
| presets.dfy | `Presets` | preset table and lookup |
| tuning.dfy | `Tuning` | the `tune` adjustment, as written and corrected |
| commands.dfy | `Commands` | classifying a line into a command |
| dispatcher.dfy | `Dispatcher` | applying a command; per-command properties |
| duty.dfy | `Duty` | duty value of one sample |
| session.dfy | `Session` | the main loop over a sequence of lines |
| scenarios.dfy | `Scenarios` | concrete boundary and end-to-end cases |
| wrappers.dfy | `Wrappers` | `Option` |

## Model

| member | source | states |
|---|---|---|
| Generator.DefaultsValid | sine_wave_ESP32-C3.cpp:9-12 | The power-on settings (440 Hz, full amplitude, enabled, sine) satisfy the invariant: frequency in [20, 5000], amplitude in [0, 1], waveform one of the four names. |
| Presets.PresetsInRange | sine_wave_ESP32-C3.cpp:24-34 | All nine preset frequencies lie in [20, 5000]. |
| Presets.PresetNamesDistinct | sine_wave_ESP32-C3.cpp:24-34 | No two presets answer to the same lower-cased name, so first-match never has to choose. |
| Presets.FindNote | sine_wave_ESP32-C3.cpp:212-222 | The scan returns the first index whose lower-cased name equals the argument, with no earlier match; it returns None exactly when no entry matches. |
| Presets.NoPresetNamed | sine_wave_ESP32-C3.cpp:212-222 | A name that is none of the nine lower-cased preset names matches no entry, so the scan falls through to "not found". |
| Text.LowerChar | sine_wave_ESP32-C3.cpp:98 | `tolower` maps each capital to its own lower-case letter, leaves every other character alone, never yields a capital, and keeps white space white space. |
| Text.ToLower | sine_wave_ESP32-C3.cpp:98 | Lower-casing keeps the length, leaves no capital, leaves every non-capital in place, and maps each capital to its lower-case letter. |
| Text.ToLowerIdempotent | sine_wave_ESP32-C3.cpp:98 | Lower-casing an already lower-cased line changes nothing. |

| Text.ToLowerConcat | sine_wave_ESP32-C3.cpp:98 | Lower-casing a concatenation lower-cases each part. |
| Text.LeadingSpacesRun | sine_wave_ESP32-C3.cpp:97 | The leading count covers only white space and stops at the first character that is not white space. |
| Text.TrailingSpacesRun | sine_wave_ESP32-C3.cpp:97 | The trailing count covers only white space and stops at the last character that is not white space. |
| Text.Trim | sine_wave_ESP32-C3.cpp:97 | Trimming yields the infix between the leading and trailing white-space runs. Everything removed on either side is white space, and the result has no white space at either end. |
| Text.TrimNoEdgeSpace | sine_wave_ESP32-C3.cpp:97 | A line with no white space at either end is left unchanged by trimming. |
| Text.TrimLowerCommute | sine_wave_ESP32-C3.cpp:97-98 | Trimming then lower-casing equals lower-casing then trimming. |
| Text.IndexOf | sine_wave_ESP32-C3.cpp:117 | The result is the first position of the character, or -1 exactly when the character is absent. |
| Commands.ArgumentOf | sine_wave_ESP32-C3.cpp:117 | The argument is the text after the first space, or the whole line when there is no space. |
| Commands.Parse | sine_wave_ESP32-C3.cpp:100-167 | The classification carries each argument from its own keyword. A frequency, amplitude or waveform command carries the text after the first space, after `freq `/`f `, `amp `/`a ` or `wave `/`w `. A note carries the lower-cased text after `note `, and a tune carries the text after `tune `. A line falls through to unknown only when it starts with no prefix. `UnknownIffUnrecognised` and the `Parse*` lemmas give the rest of its contract. |
| Commands.UnknownUnrecognised | sine_wave_ESP32-C3.cpp:100-167 | A line that reaches the "unknown command" branch is none of the tokens and starts with none of the prefixes. |
| Commands.KnownRecognised | sine_wave_ESP32-C3.cpp:100-167 | A line that any other branch takes is one of the tokens or starts with one of the prefixes. |
| Commands.UnknownIffUnrecognised | sine_wave_ESP32-C3.cpp:100-167 | A line reaches the "unknown command" branch exactly when it is none of the tokens and starts with none of the prefixes. |
| Commands.ParseFreq | sine_wave_ESP32-C3.cpp:116-117 | `freq <x>` and `f <x>` both reach the frequency branch with argument x. |
| Commands.ParseAmp | sine_wave_ESP32-C3.cpp:126-127 | `amp <p>` and `a <p>` both reach the amplitude branch with argument p. |
| Commands.ParseWave | sine_wave_ESP32-C3.cpp:136-137 | `wave <w>` and `w <w>` both reach the waveform branch with argument w. |
| Commands.ParseNote | sine_wave_ESP32-C3.cpp:149-151 | `note <n>` reaches the note branch with the lower-cased n. |
| Commands.ParseTune | sine_wave_ESP32-C3.cpp:157-158 | `tune <d>` reaches the tune branch with argument d. |
| Commands.ParseSwitches | sine_wave_ESP32-C3.cpp:106-115 | `on`/`start` are the enable command and `off`/`stop` the disable command. |
| Commands.ParsePrints | sine_wave_ESP32-C3.cpp:100-148 | `help`/`h`, `status`/`s` and `notes`/`n` reach their print-only branches, even though `notes` comes after the prefix branches. |
| Commands.ParseSweep | sine_wave_ESP32-C3.cpp:154-156 | `sweep` reaches the sweep branch. |
| Floats.Within | sine_wave_ESP32-C3.cpp:118 | The guard `x >= lo && x <= hi` admits exactly the finite x in [lo, hi]; NaN and both infinities fail it. |
| Floats.Below | sine_wave_ESP32-C3.cpp:160 | `x < 20` holds exactly when x is not NaN and not `x >= 20`, so NaN is neither below nor at least a bound. |
| Floats.Above | sine_wave_ESP32-C3.cpp:161 | `x > 5000` holds exactly when x is not NaN and not `x <= 5000`. |
| Floats.Add | sine_wave_ESP32-C3.cpp:159 | A finite frequency plus a delta is NaN iff the delta is NaN, and infinite with the delta's sign when the delta is infinite. |
| Tuning.Clamp | sine_wave_ESP32-C3.cpp:160-161 | The two clamp statements give a value in [20, 5000], leave in-range values alone, and map values below to 20 and above to 5000. |
| Tuning.ClampMonotone | sine_wave_ESP32-C3.cpp:160-161 | Clamping preserves order. |
| Tuning.TuneAsWritten | sine_wave_ESP32-C3.cpp:159-161 | As written, the stored frequency is NaN iff the delta is NaN; otherwise it is finite and in [20, 5000]. |
| Tuning.TuneAsWrittenNaN | sine_wave_ESP32-C3.cpp:159-161 | As written, `tune nan` at 440 Hz stores NaN. |
| Tuning.Tune | sine_wave_ESP32-C3.cpp:157-164 | The corrected adjustment always lands in [20, 5000]. An in-range sum is kept, a sum below 20 gives 20 and one above 5000 gives 5000. Plus or minus infinity pins to a bound, and a NaN delta keeps a valid frequency. |
| Tuning.TuneAgreesWithFirmware | sine_wave_ESP32-C3.cpp:159-161 | For every delta other than NaN, the corrected adjustment equals the firmware's. |
| Dispatcher.SetFrequency | sine_wave_ESP32-C3.cpp:116-125 | A finite x in [20, 5000] becomes the frequency; anything else leaves the whole state unchanged; the other fields never change. |
| Dispatcher.SetAmplitude | sine_wave_ESP32-C3.cpp:126-135 | A finite p in [0, 100] becomes amplitude p/100, which lies in [0, 1]; anything else leaves the whole state unchanged. |
| Dispatcher.SetWaveform | sine_wave_ESP32-C3.cpp:136-145 | The waveform becomes w iff w is one of the four names; nothing else changes. |
| Dispatcher.ApplyNote | sine_wave_ESP32-C3.cpp:149-153 | Only the frequency changes, to the frequency of the matching preset; with no match the state is unchanged. |
| Dispatcher.ScanNotes | sine_wave_ESP32-C3.cpp:212-222 | The early-exit loop returns the first index whose lower-cased name equals the argument, or -1 exactly when no entry matches. |
| Dispatcher.SetNoteByName | sine_wave_ESP32-C3.cpp:211-223 | The early-exit scan reports a match iff one exists, and its result equals the functional lookup. |
| Dispatcher.SweepTest | sine_wave_ESP32-C3.cpp:230-251 | After a sweep the enabled flag is as before and the frequency is 440 Hz, whatever the ramp did; amplitude and waveform are untouched. |
| Dispatcher.Exec | sine_wave_ESP32-C3.cpp:100-167 | With `tune` corrected, every command preserves the invariant. Print-only and unknown commands change nothing, and each field is changed only by the commands that own it. For every `tune` delta other than NaN, the stored frequency is exactly what the firmware's statements give. |
| Dispatcher.Step | sine_wave_ESP32-C3.cpp:100-167 | With `tune` corrected, a normalised line keeps the invariant; an unrecognised line changes nothing. |
| Dispatcher.Handle | sine_wave_ESP32-C3.cpp:94-98 | With `tune` corrected, a raw line, trimmed and lower-cased, keeps the invariant. |
| Dispatcher.ExecIdempotent | sine_wave_ESP32-C3.cpp:100-167 | Applying any command other than `tune` twice gives the same state as applying it once. |
| Dispatcher.FreqCommand | sine_wave_ESP32-C3.cpp:116-125 | `freq <x>` sets the frequency to x iff x is finite and 20 <= x <= 5000, else changes nothing; `f <x>` is the same. |
| Dispatcher.AmpCommand | sine_wave_ESP32-C3.cpp:126-135 | `amp <p>` sets the amplitude to p/100 iff 0 <= p <= 100, else changes nothing; `a <p>` is the same. |
| Dispatcher.WaveCommand | sine_wave_ESP32-C3.cpp:136-145 | `wave <w>` sets the waveform iff w is one of the four names, else changes nothing; `w <w>` is the same. |
| Dispatcher.NoteCommand | sine_wave_ESP32-C3.cpp:149-153 | `note <n>` sets only the frequency, to the preset whose lower-cased name is the lower-cased n; with no such preset nothing changes. |
| Dispatcher.TuneCommand | sine_wave_ESP32-C3.cpp:157-164 | With `tune` corrected, `tune <d>` never rejects: it stores the clamped sum, which is always in [20, 5000]. |
| Dispatcher.SwitchCommands | sine_wave_ESP32-C3.cpp:106-115 | `on`/`start` set only `enabled := true`; `off`/`stop` set only `enabled := false`. |
| Dispatcher.PrintCommands | sine_wave_ESP32-C3.cpp:100-148 | `help`, `h`, `status`, `s`, `notes` and `n` leave the state unchanged. |
| Dispatcher.SweepCommand | sine_wave_ESP32-C3.cpp:154-156 | `sweep` changes only the frequency, to 440 Hz. |
| Dispatcher.HandleCaseInsensitive | sine_wave_ESP32-C3.cpp:96-98 | Two raw lines that differ only in letter case have the same effect. |
| Dispatcher.HandleNormalised | sine_wave_ESP32-C3.cpp:97-98 | A line that is already trimmed and lower-case is dispatched unchanged. |
| Dispatcher.WaveAnyCase | sine_wave_ESP32-C3.cpp:136-145 | `wave <w>` in any letter case sets the waveform to the lower-case name. |
| Duty.Truncate | sine_wave_ESP32-C3.cpp:89 | The `(int)` cast rounds toward zero: the result has the sign of x and lies within 1 of it. |
| Duty.TruncateMonotone | sine_wave_ESP32-C3.cpp:89 | Truncation preserves order. |
| Duty.Constrain | sine_wave_ESP32-C3.cpp:90 | `constrain` yields a value in [lo, hi], equal to x when x is already inside. |
| Duty.RawDuty | sine_wave_ESP32-C3.cpp:89 | The value before constraining is the integer part of 128 + 127·a·w toward zero: at most that value and within 1 of it when it is non-negative, and at least it and within 1 of it when it is negative. |
| Duty.DutyValue | sine_wave_ESP32-C3.cpp:89-91 | The written duty is always in [0, 255], whatever the sample, and equals the truncated value whenever that is in range. |
| Duty.RawDutyInRange | sine_wave_ESP32-C3.cpp:89-90 | With amplitude in [0, 1] and sample in [-1, 1], the unconstrained value already lies in [1, 255], so the constrain does nothing. |
| Duty.DutyAtRest | sine_wave_ESP32-C3.cpp:89-90 | Zero amplitude or a zero sample gives duty 128. |
| Duty.DutyMonotone | sine_wave_ESP32-C3.cpp:89-90 | For a non-negative amplitude the duty never decreases as the sample grows. |
| Session.Run | sine_wave_ESP32-C3.cpp:55-57 | With `tune` corrected, handling any sequence of lines from a valid state ends in a valid state. |
| Session.RunFromDefaults | sine_wave_ESP32-C3.cpp:9-12 | With `tune` corrected, whatever is typed after power-on, the invariant holds. |
| Session.RunConcat | sine_wave_ESP32-C3.cpp:55-57 | Handling two batches of lines in turn equals handling their concatenation. |
| Session.Serve | sine_wave_ESP32-C3.cpp:55-57 | With `tune` corrected, the polling loop keeps the invariant after every line and ends in the state `Run` defines. |
| Scenarios.FrequencyBounds | sine_wave_ESP32-C3.cpp:118 | `freq 19` and `freq 5001` are rejected; `freq 20` and `freq 5000` are accepted. |
| Scenarios.AmplitudeBounds | sine_wave_ESP32-C3.cpp:128 | `amp 0` and `amp 100` are accepted (0 and 1); `amp -1` and `amp 101` are rejected. |
| Scenarios.AmplitudeAccepted | sine_wave_ESP32-C3.cpp:126-129 | Any `amp <t>` whose text reads as a finite p in [0, 100] sets the amplitude to p/100. |
| Scenarios.NoteLowE | sine_wave_ESP32-C3.cpp:25 | `note e2` sets 82.4 Hz and nothing else. |
| Scenarios.NoteIgnoresCase | sine_wave_ESP32-C3.cpp:150-151 | `note E2` and `note e2` have the same effect. |
| Scenarios.NoteUnknownName | sine_wave_ESP32-C3.cpp:222 | `note zz` leaves the state unchanged. |
| Scenarios.TuneClampsAtTop | sine_wave_ESP32-C3.cpp:159-161 | `tune 100` at 4950 Hz gives 5000 Hz, not 5050 Hz. |
| Scenarios.TuneNaNKeepsFrequency | sine_wave_ESP32-C3.cpp:157-161 | With the corrected adjustment, `tune nan` leaves a valid state unchanged. |
| Scenarios.TuneNaNAsWritten | sine_wave_ESP32-C3.cpp:157-161 | As written, the line `tune nan` parses to a NaN delta and the firmware's statements store NaN, outside [20, 5000]. |
| Scenarios.SquareFromDefaults | sine_wave_ESP32-C3.cpp:136-140 | From power-on, `wave square` selects the square wave and changes nothing else. |
| Scenarios.KiloHertzOnSquare | sine_wave_ESP32-C3.cpp:116-120 | `freq 1000` on the square-wave settings sets 1000 Hz and changes nothing else. |
| Scenarios.HalfAmplitudeOnSquare | sine_wave_ESP32-C3.cpp:126-130 | `amp 50` then gives amplitude 0.5, leaving 1000 Hz, enabled, square. |
| Scenarios.EndToEndSettings | sine_wave_ESP32-C3.cpp:116-140 | From power-on, `wave square`, `freq 1000` and `amp 50` give 1000 Hz, half amplitude, enabled, square. |
| Scenarios.EndToEndDuty | sine_wave_ESP32-C3.cpp:89-90 | At half amplitude a sample of +1 yields duty 191. |

A few points about the code that the model follows exactly:

- The duty is truncated, not rounded: `(int)(128 + 127 * amplitude * waveValue)`, then constrained to [0, 255] (lines 89-90).
- The sweep restores only the enabled flag and resets the frequency to 440 Hz; amplitude and waveform keep whatever they were (lines 250-251).
- The waveform is stored as a string and checked against four literals (lines 12 and 138); the model keeps the string.

## Left out

- Serial I/O and printed text: `Serial.available`, `readStringUntil`, `printHelp`, `printStatus`, `printNotes` and every message are output only. A command is a line of text that has already been read.
- `String::toFloat` belongs to the Arduino library and is not part of this model. It is the parameter `toFloat`. Its failure value (0) and its handling of "nan"/"inf" come from whatever function is passed in.
- `String::trim` and `String::toLowerCase` are library routines. They are modelled as C's `isspace` set (space and characters 9 to 13) and ASCII `tolower`.
- Float rounding: finite floats are reals. For example, 82.4 is not exactly representable as a float, and `p / 100.0` is rounded in the firmware.
- Waveform evaluation with `sin`/`asin` and the sawtooth formula (lines 77-87) is floating-point trigonometry. The sample is an input to `Duty.DutyValue`.
- The phase accumulator (lines 70-75) depends on `micros()` and float rounding. Its single wrap does not keep the phase in [0, 2π) in general, so no bound is claimed.
- PWM hardware: `ledcAttach`, `ledcWrite`, and the midpoint 128 written while the generator is off (line 63) are side effects.
- The sweep's timed loop (lines 233-248), with its `millis()` interpolation, progress printing and delays, is not modelled. Only its end state is.
- `setup()`, `delay` and `delayMicroseconds` are start-up and timing only.
- Dispatcher.SweepTest: only the end state of the sweep is modelled. The ramp's intermediate frequencies and the temporary `enabled = true` are overwritten before the sweep returns.
- Tuning.Tune: differs from the firmware for a NaN delta, on purpose (see Findings). `Tuning.TuneAsWritten` models the firmware.
- Dispatcher.Exec: dispatches `tune` to the corrected `Tuning.Tune`. As written, `tune nan` stores NaN and leaves [20, 5000] (see Findings and `Scenarios.TuneNaNAsWritten`), so its invariant clause is about the corrected firmware. Its last clause shows the two agree on every delta but NaN.
- Dispatcher.Step: keeps the invariant only with `tune` corrected; as written, `tune nan` breaks it.
- Dispatcher.Handle: keeps the invariant only with `tune` corrected; as written, the raw line `tune nan` breaks it.
- Dispatcher.TuneCommand: the range promise holds for the corrected adjustment; as written, `tune nan` stores NaN.
- Session.Run: a valid state stays valid only with `tune` corrected; as written, a session containing `tune nan` ends with a NaN frequency.
- Session.RunFromDefaults: holds only with `tune` corrected, for the same reason as Session.Run.
- Session.Serve: keeps the invariant only with `tune` corrected, for the same reason as Session.Run.
- Duty.Truncate: the cast of a float outside the `int` range is undefined in C. The model truncates any real.

## Findings

| source | as written | input that shows it | evidently intended | confidence | as-written member | corrected member |
|---|---|---|---|---|---|---|
| sine_wave_ESP32-C3.cpp:157-161 | `currentFreq += delta` is followed by `if (currentFreq < 20)` and `if (currentFreq > 5000)`. A NaN delta makes the frequency NaN, both comparisons are false, and NaN is stored. | `tune nan`: `toFloat` is built on `atof`, which reads "nan" as NaN | The frequency stays in [20, 5000], as `tune` promises; a NaN delta adjusts nothing | medium; not executed; depends on the library's `toFloat` accepting "nan" | Tuning.TuneAsWritten (exhibited by Tuning.TuneAsWrittenNaN and Scenarios.TuneNaNAsWritten) | Tuning.Tune |

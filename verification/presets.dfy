/**
 The guitar-note preset table and its case-insensitive lookup.
 */
module Presets {
  import opened Wrappers
  import opened Text
  import opened Generator

  /** One preset: a display name and its frequency in Hz. */
  datatype Note = Note(name: string, freq: real)

  /** The nine presets, in table order: six open strings, A440, high C and a test tone. */
  const GuitarNotes: seq<Note> := [
    Note("E2", 82.4),
    Note("A2", 110.0),
    Note("D3", 146.8),
    Note("G3", 196.0),
    Note("B3", 246.9),
    Note("E4", 329.6),
    Note("A4", 440.0),
    Note("C5", 523.3),
    Note("TEST", 1000.0)
  ]

  /** Entry `i` of `notes` answers to `name` once its own name is folded to lower case. */
  predicate NameMatches(notes: seq<Note>, i: int, name: string)
    requires 0 <= i < |notes|
  {
    ToLower(notes[i].name) == name
  }

  /**
   The linear scan: the index of the FIRST entry whose lower-cased name
   equals `name`, or None when no entry does.
   */
  function FindNote(notes: seq<Note>, name: string): (r: Option<nat>)
    ensures r.Some? ==> r.value < |notes| && NameMatches(notes, r.value, name)
    ensures r.Some? ==> forall j :: 0 <= j < r.value ==> !NameMatches(notes, j, name)
    ensures r.None? <==> forall j :: 0 <= j < |notes| ==> !NameMatches(notes, j, name)
  {
    if notes == [] then None
    else if ToLower(notes[0].name) == name then
      assert NameMatches(notes, 0, name);
      Some(0)
    else
      assert forall j :: 1 <= j < |notes| ==> (NameMatches(notes, j, name) <==> NameMatches(notes[1..], j - 1, name));
      match FindNote(notes[1..], name)
      case None => None
      case Some(k) =>
        assert NameMatches(notes, k + 1, name);
        Some(k + 1)
  }

  /** Every preset frequency lies in the range the generator accepts. */
  lemma PresetsInRange()
    ensures forall i :: 0 <= i < |GuitarNotes| ==> FrequencyInRange(GuitarNotes[i].freq)
  {
  }

  /** The preset names as the lookup compares them: lower-cased, in table order. */
  const LowerNames: seq<string> := ["e2", "a2", "d3", "g3", "b3", "e4", "a4", "c5", "test"]

  lemma PresetNamesLowered()
    ensures |LowerNames| == |GuitarNotes|
    ensures forall i :: 0 <= i < |GuitarNotes| ==> ToLower(GuitarNotes[i].name) == LowerNames[i]
  {
    assert ToLower("E2") == "e2";
    assert ToLower("A2") == "a2";
    assert ToLower("D3") == "d3";
    assert ToLower("G3") == "g3";
    assert ToLower("B3") == "b3";
    assert ToLower("E4") == "e4";
    assert ToLower("A4") == "a4";
    assert ToLower("C5") == "c5";
    assert ToLower("TEST") == "test";
  }

  /**
   No two presets answer to the same name, so "first match wins" never has
   to choose.
   */
  lemma PresetNamesDistinct()
    ensures forall i, j, name ::
              && 0 <= i < |GuitarNotes| && 0 <= j < |GuitarNotes|
              && NameMatches(GuitarNotes, i, name) && NameMatches(GuitarNotes, j, name)
              ==> i == j
  {
    PresetNamesLowered();
    assert forall i, j :: 0 <= i < j < |LowerNames| ==> LowerNames[i] != LowerNames[j];
  }

  /** A name that is not among the lower-cased preset names matches no entry. */
  lemma NoPresetNamed(name: string)
    requires name !in LowerNames
    ensures forall i :: 0 <= i < |GuitarNotes| ==> !NameMatches(GuitarNotes, i, name)
  {
    PresetNamesLowered();
  }
}

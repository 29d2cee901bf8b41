/**
 Recognising one input line. The line has already been trimmed and folded
 to lower case; it is classified by the first branch of the firmware's
 if/else chain that matches, either an exact token or a prefix followed by
 an argument. Numeric arguments go through `toFloat`, the float parser of
 the `String` class, which is a parameter here.
 */
module Commands {
  import opened Text
  import opened Floats

  datatype Command =
    | Help
    | Status
    | On
    | Off
    | SetFreq(hz: Float)
    | SetAmp(percent: Float)
    | SetWave(name: string)
    | ListNotes
    | SetNote(name: string)
    | Sweep
    | Tune(delta: Float)
    | Unknown

  /**
   `substring(indexOf(' ') + 1)`: the text after the first space, or the
   whole line when it holds no space.
   */
  function ArgumentOf(line: string): (r: string)
    ensures ' ' in line ==> exists i :: 0 <= i < |line| && line[i] == ' ' && ' ' !in line[..i] && r == line[i + 1..]
    ensures ' ' !in line ==> r == line
  {
    line[IndexOf(line, ' ') + 1..]
  }

  /**
   A line that starts with a keyword ending in its only space carries, as
   its argument, everything after the keyword.
   */
  lemma ArgumentAfterKeyword(keyword: string, t: string)
    requires |keyword| > 0 && keyword[|keyword| - 1] == ' '
    requires ' ' !in keyword[..|keyword| - 1]
    ensures ArgumentOf(keyword + t) == t
  {
    var line := keyword + t;
    var n := |keyword| - 1;
    assert line[n] == ' ';
    assert line[..n] == keyword[..n];
    assert ' ' !in line[..n];
  }

  /**
   The firmware's dispatch chain, branch for branch, in source order. A
   numeric or named command carries the argument of its own keyword; a
   bare command comes only from one of the exact tokens.
   */
  function Parse(line: string, toFloat: string -> Float): (r: Command)
    ensures r.SetFreq? ==> (StartsWith(line, "freq ") || StartsWith(line, "f ")) && r.hz == toFloat(ArgumentOf(line))
    ensures r.SetAmp? ==> (StartsWith(line, "amp ") || StartsWith(line, "a ")) && r.percent == toFloat(ArgumentOf(line))
    ensures r.SetWave? ==> (StartsWith(line, "wave ") || StartsWith(line, "w ")) && r.name == ArgumentOf(line)
    ensures r.SetNote? ==> StartsWith(line, "note ") && r.name == ToLower(line[5..])
    ensures r.Tune? ==> StartsWith(line, "tune ") && r.delta == toFloat(line[5..])
    ensures r.Unknown? ==> forall p :: p in Prefixes ==> !StartsWith(line, p)
  {
    if line == "help" || line == "h" then Help
    else if line == "status" || line == "s" then Status
    else if line == "on" || line == "start" then On
    else if line == "off" || line == "stop" then Off
    else if StartsWith(line, "freq ") || StartsWith(line, "f ") then SetFreq(toFloat(ArgumentOf(line)))
    else if StartsWith(line, "amp ") || StartsWith(line, "a ") then SetAmp(toFloat(ArgumentOf(line)))
    else if StartsWith(line, "wave ") || StartsWith(line, "w ") then SetWave(ArgumentOf(line))
    else if line == "notes" || line == "n" then ListNotes
    else if StartsWith(line, "note ") then SetNote(ToLower(line[5..]))
    else if line == "sweep" then Sweep
    else if StartsWith(line, "tune ") then Tune(toFloat(line[5..]))
    else Unknown
  }

  /** The exact tokens and the prefixes the chain tests. */
  const Tokens: set<string> :=
    {"help", "h", "status", "s", "on", "start", "off", "stop", "notes", "n", "sweep"}
  const Prefixes: set<string> :=
    {"freq ", "f ", "amp ", "a ", "wave ", "w ", "note ", "tune "}

  /** A line is recognised when it is a token or starts with one of the prefixes. */
  predicate Recognised(line: string) {
    line in Tokens || exists p :: p in Prefixes && StartsWith(line, p)
  }

  /** A line that reaches the final `else` starts with none of the prefixes. */
  lemma UnknownUnrecognised(line: string, toFloat: string -> Float)
    requires Parse(line, toFloat) == Unknown
    ensures !Recognised(line)
  {
  }

  /** A line that some branch takes is a token or starts with a prefix. */
  lemma KnownRecognised(line: string, toFloat: string -> Float)
    requires Parse(line, toFloat) != Unknown
    ensures Recognised(line)
  {
    if line !in Tokens {
      var p :=
        if StartsWith(line, "freq ") then "freq "
        else if StartsWith(line, "f ") then "f "
        else if StartsWith(line, "amp ") then "amp "
        else if StartsWith(line, "a ") then "a "
        else if StartsWith(line, "wave ") then "wave "
        else if StartsWith(line, "w ") then "w "
        else if StartsWith(line, "note ") then "note "
        else "tune ";
      assert p in Prefixes && StartsWith(line, p);
    }
  }

  /** A line falls through to "unknown command" exactly when it is not recognised. */
  lemma UnknownIffUnrecognised(line: string, toFloat: string -> Float)
    ensures Parse(line, toFloat) == Unknown <==> !Recognised(line)
  {
    if Parse(line, toFloat) == Unknown {
      UnknownUnrecognised(line, toFloat);
    } else {
      KnownRecognised(line, toFloat);
    }
  }

  /** The switch commands and their synonyms. */
  lemma ParseSwitches(toFloat: string -> Float)
    ensures Parse("on", toFloat) == On && Parse("start", toFloat) == On
    ensures Parse("off", toFloat) == Off && Parse("stop", toFloat) == Off
  {
  }

  /** The print-only commands and their one-letter forms. */
  lemma ParsePrints(toFloat: string -> Float)
    ensures Parse("help", toFloat) == Help && Parse("h", toFloat) == Help
    ensures Parse("status", toFloat) == Status && Parse("s", toFloat) == Status
    ensures Parse("notes", toFloat) == ListNotes && Parse("n", toFloat) == ListNotes
  {
    NoCommandPrefix("notes");
    NoCommandPrefix("n");
  }

  /** `sweep` is its own command; none of the prefixes before it match. */
  lemma ParseSweep(toFloat: string -> Float)
    ensures Parse("sweep", toFloat) == Sweep
  {
    NoCommandPrefix("sweep");
  }

  /** The three tokens compared after the prefix branches start with none of the prefixes. */
  lemma NoCommandPrefix(line: string)
    requires line in {"notes", "n", "sweep"}
    ensures forall p :: p in Prefixes ==> !StartsWith(line, p)
  {
    assert line[0] in {'n', 's'};
    assert line == "notes" ==> line[4] == 's';
  }

  /** A line that differs from a literal in its first character neither equals nor starts with it. */
  lemma FirstCharDiffers(line: string, lit: string)
    requires |line| > 0 && |lit| > 0 && line[0] != lit[0]
    ensures line != lit && !StartsWith(line, lit)
  {
  }

  /** A line starting with none of 'h', 's', 'o' is none of the tokens compared before the prefixes. */
  lemma NotLeadingToken(line: string)
    requires |line| > 0 && line[0] != 'h' && line[0] != 's' && line[0] != 'o'
    ensures line != "help" && line != "h" && line != "status" && line != "s"
    ensures line != "on" && line != "start" && line != "off" && line != "stop"
  {
    FirstCharDiffers(line, "help");
    FirstCharDiffers(line, "h");
    FirstCharDiffers(line, "status");
    FirstCharDiffers(line, "s");
    FirstCharDiffers(line, "on");
    FirstCharDiffers(line, "start");
    FirstCharDiffers(line, "off");
    FirstCharDiffers(line, "stop");
  }

  /** `freq <x>` or `f <x>`, given the keyword: the first prefix branch is taken. */
  lemma ParseFreqWith(keyword: string, t: string, toFloat: string -> Float)
    requires keyword == "freq " || keyword == "f "
    ensures Parse(keyword + t, toFloat) == SetFreq(toFloat(t))
  {
    var line := keyword + t;
    assert line[0] == 'f';
    NotLeadingToken(line);
    assert StartsWith(line, keyword);
    ArgumentAfterKeyword(keyword, t);
  }

  /** `freq <x>` and `f <x>` both carry `toFloat(x)` as a frequency. */
  lemma ParseFreq(t: string, toFloat: string -> Float)
    ensures Parse("freq " + t, toFloat) == SetFreq(toFloat(t))
    ensures Parse("f " + t, toFloat) == SetFreq(toFloat(t))
  {
    ParseFreqWith("freq ", t, toFloat);
    ParseFreqWith("f ", t, toFloat);
  }

  /** `amp <p>` or `a <p>`, given the keyword: the frequency branch is skipped. */
  lemma ParseAmpWith(keyword: string, t: string, toFloat: string -> Float)
    requires keyword == "amp " || keyword == "a "
    ensures Parse(keyword + t, toFloat) == SetAmp(toFloat(t))
  {
    var line := keyword + t;
    assert line[0] == 'a';
    NotLeadingToken(line);
    FirstCharDiffers(line, "freq ");
    FirstCharDiffers(line, "f ");
    assert StartsWith(line, keyword);
    ArgumentAfterKeyword(keyword, t);
  }

  /** `amp <p>` and `a <p>` both carry `toFloat(p)` as a percentage. */
  lemma ParseAmp(t: string, toFloat: string -> Float)
    ensures Parse("amp " + t, toFloat) == SetAmp(toFloat(t))
    ensures Parse("a " + t, toFloat) == SetAmp(toFloat(t))
  {
    ParseAmpWith("amp ", t, toFloat);
    ParseAmpWith("a ", t, toFloat);
  }

  /** `wave <w>` or `w <w>`, given the keyword: the numeric branches are skipped. */
  lemma ParseWaveWith(keyword: string, t: string, toFloat: string -> Float)
    requires keyword == "wave " || keyword == "w "
    ensures Parse(keyword + t, toFloat) == SetWave(t)
  {
    var line := keyword + t;
    assert line[0] == 'w';
    NotLeadingToken(line);
    FirstCharDiffers(line, "freq ");
    FirstCharDiffers(line, "f ");
    FirstCharDiffers(line, "amp ");
    FirstCharDiffers(line, "a ");
    assert StartsWith(line, keyword);
    ArgumentAfterKeyword(keyword, t);
  }

  /** `wave <w>` and `w <w>` both carry the name `w` unchanged. */
  lemma ParseWave(t: string, toFloat: string -> Float)
    ensures Parse("wave " + t, toFloat) == SetWave(t)
    ensures Parse("w " + t, toFloat) == SetWave(t)
  {
    ParseWaveWith("wave ", t, toFloat);
    ParseWaveWith("w ", t, toFloat);
  }

  /** `note <n>` carries the lower-cased name. */
  lemma ParseNote(t: string, toFloat: string -> Float)
    ensures Parse("note " + t, toFloat) == SetNote(ToLower(t))
  {
    var line := "note " + t;
    assert line[0] == 'n' && line[4] == ' ' && |line| >= 5;
    NotLeadingToken(line);
    FirstCharDiffers(line, "freq ");
    FirstCharDiffers(line, "f ");
    FirstCharDiffers(line, "amp ");
    FirstCharDiffers(line, "a ");
    FirstCharDiffers(line, "wave ");
    FirstCharDiffers(line, "w ");
    assert line != "notes" && line != "n";
    assert StartsWith(line, "note ");
    assert line[5..] == t;
  }

  /** `tune <d>` carries `toFloat(d)` as the adjustment. */
  lemma ParseTune(t: string, toFloat: string -> Float)
    ensures Parse("tune " + t, toFloat) == Tune(toFloat(t))
  {
    var line := "tune " + t;
    assert line[0] == 't';
    NotLeadingToken(line);
    FirstCharDiffers(line, "freq ");
    FirstCharDiffers(line, "f ");
    FirstCharDiffers(line, "amp ");
    FirstCharDiffers(line, "a ");
    FirstCharDiffers(line, "wave ");
    FirstCharDiffers(line, "w ");
    FirstCharDiffers(line, "notes");
    FirstCharDiffers(line, "n");
    FirstCharDiffers(line, "note ");
    FirstCharDiffers(line, "sweep");
    assert StartsWith(line, "tune ");
    assert line[5..] == t;
  }
}

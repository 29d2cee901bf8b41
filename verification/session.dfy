/**
 The main loop's view of the dispatcher: every pass handles at most one
 line, so a session is the lines received, applied in order.
 */
module Session {
  import opened Floats
  import opened Generator
  import opened Dispatcher

  /** The settings after handling `lines` in order, starting from `g`. */
  function Run(g: State, lines: seq<string>, toFloat: string -> Float): (r: State)
    ensures Valid(g) ==> Valid(r)
    decreases |lines|
  {
    if lines == [] then g else Run(Handle(g, lines[0], toFloat), lines[1..], toFloat)
  }

  /** Whatever is typed after power-on, the invariant holds. */
  lemma RunFromDefaults(lines: seq<string>, toFloat: string -> Float)
    ensures Valid(Run(Defaults, lines, toFloat))
  {
    DefaultsValid();
  }

  /** Handling two batches of lines one after the other is handling their concatenation. */
  lemma {:induction false} RunConcat(g: State, a: seq<string>, b: seq<string>, toFloat: string -> Float)
    ensures Run(g, a + b, toFloat) == Run(Run(g, a, toFloat), b, toFloat)
    decreases |a|
  {
    if a == [] {
      assert a + b == b;
    } else {
      assert (a + b)[0] == a[0];
      assert (a + b)[1..] == a[1..] + b;
      RunConcat(Handle(g, a[0], toFloat), a[1..], b, toFloat);
    }
  }

  /**
   The loop itself: poll, handle the line, go round again. The settings stay
   valid after every line and end where `Run` says.
   */
  method Serve(g: State, lines: seq<string>, toFloat: string -> Float) returns (r: State)
    requires Valid(g)
    ensures Valid(r)
    ensures r == Run(g, lines, toFloat)
  {
    r := g;
    var i := 0;
    while i < |lines|
      invariant 0 <= i <= |lines|
      invariant Valid(r)
      invariant Run(g, lines, toFloat) == Run(r, lines[i..], toFloat)
    {
      assert lines[i..][1..] == lines[i + 1..];
      r := Handle(r, lines[i], toFloat);
      i := i + 1;
    }
  }
}

/** The compact console formatter (`ProgressFormatter`): one coloured
    character per finished example, nothing for groups, and the verbose
    formatter's summary and failures digest. */
module Progress {
  import opened Results
  import opened Documentation

  /** The lines `ProgressFormatter` writes for one event. */
  /** Only the failures digest reads the examples' errors; a failed
      example's own glyph does not. */
  function Render(settings: Settings, isatty: bool, e: Event): (r: seq<Line>)
    requires e.Failures? ==> HasErrors(e.failedExamples)
    ensures e.ExamplePassed? || e.ExampleFailed? || e.ExamplePending? ==>
      |r| == 1 && r[0].indent == 0 && !r[0].newline && |r[0].pieces| == 1 && |LineText(r[0])| == 1
    ensures e.ExamplePassed? ==> LineText(r[0]) == "." && r[0].pieces[0] == ColorText(settings, isatty, Green, ".")
    ensures e.ExampleFailed? ==> LineText(r[0]) == "F" && r[0].pieces[0] == ColorText(settings, isatty, Red, "F")
    ensures e.ExamplePending? ==> LineText(r[0]) == "*" && r[0].pieces[0] == ColorText(settings, isatty, Yellow, "*")
    ensures e.ExampleStarted? || e.ExampleGroupStarted? || e.ExampleGroupFinished? || e.ExampleGroupPending? ==> r == []
    ensures e.Summary? ==> r == [Blank(0), Blank(0)] + Documentation.Render(settings, isatty, e)
    ensures e.Failures? ==> r == Documentation.Render(settings, isatty, e)
  {
    match e
    case ExamplePassed(_) => Glyph(ColorText(settings, isatty, Green, "."))
    case ExampleFailed(_) => Glyph(ColorText(settings, isatty, Red, "F"))
    case ExamplePending(_) => Glyph(ColorText(settings, isatty, Yellow, "*"))
    case Summary(_, _, _, _) => [Blank(0), Blank(0)] + Documentation.Render(settings, isatty, e)
    case Failures(_) => Documentation.Render(settings, isatty, e)
    case _ => []
  }

  /** `puts(..., newline=False)`: the piece alone, with no line break. */
  function Glyph(p: Piece): (r: seq<Line>)
    ensures |r| == 1 && r[0].indent == 0 && !r[0].newline && r[0].pieces == [p] && LineText(r[0]) == p.text
  {
    PiecesTextOfOne(p);
    [Line(0, [p], false)]
  }

  /** Colours are suppressed here exactly as in the verbose formatter. */
  lemma RenderUncolored(settings: Settings, isatty: bool, e: Event)
    requires e.Failures? ==> HasErrors(e.failedExamples)
    requires settings.noColor || !isatty
    ensures Uncolored(Render(settings, isatty, e))
  {
    if e.Summary? || e.Failures? {
      Documentation.RenderUncolored(settings, isatty, e);
    }
  }
}

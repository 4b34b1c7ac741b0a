/** The verbose console formatter (`DocumentationFormatter`): one indented line
    per group and per example, a coloured summary and a failures digest.
    Output is modelled as a sequence of abstract lines; writing them to the
    terminal and the escape sequences of the colours are not modelled. */
module Documentation {
  import opened Wrappers
  import opened Decimal
  import opened Results
  import opened TreePosition

  datatype Color = Red | Green | Yellow | White

  /** A piece of text, wrapped in a colour or left plain. */
  datatype Piece = Piece(color: Option<Color>, text: string)

  /** One `puts` call: the indentation in force (from `indent` blocks), the
      pieces written after it, and whether a newline ends it. */
  datatype Line = Line(indent: nat, pieces: seq<Piece>, newline: bool)

  /** The settings the formatter reads; the threshold is in ticks. */
  datatype Settings = Settings(noColor: bool, slowTestThreshold: int)

  function Plain(text: string): Piece {
    Piece(None, text)
  }

  /** `puts()`: an empty line at the given indentation. */
  function Blank(indent: nat): Line {
    Line(indent, [], true)
  }

  /** The pieces' texts, concatenated in order. */
  function PiecesText(pieces: seq<Piece>): string {
    if pieces == [] then ""
    else if |pieces| == 1 then pieces[0].text
    else PiecesText(pieces[..|pieces| - 1]) + pieces[|pieces| - 1].text
  }

  lemma PiecesTextOfOne(a: Piece)
    ensures PiecesText([a]) == a.text
  {
  }

  lemma PiecesTextOfTwo(a: Piece, b: Piece)
    ensures PiecesText([a, b]) == a.text + b.text
  {
    assert [a, b][..1] == [a];
  }

  lemma PiecesTextOfThree(a: Piece, b: Piece, c: Piece)
    ensures PiecesText([a, b, c]) == a.text + b.text + c.text
  {
    assert [a, b, c][..2] == [a, b];
    PiecesTextOfTwo(a, b);
  }

  lemma PiecesTextOfFive(a: Piece, b: Piece, c: Piece, d: Piece, e: Piece)
    ensures PiecesText([a, b, c, d, e]) == a.text + b.text + c.text + d.text + e.text
  {
    assert [a, b, c, d, e][..4] == [a, b, c, d];
    assert [a, b, c, d][..3] == [a, b, c];
    PiecesTextOfThree(a, b, c);
    assert PiecesText([a, b, c, d]) == a.text + b.text + c.text + d.text;
  }

  /** The characters a line shows once colours are dropped (indentation excluded). */
  function LineText(line: Line): string {
    PiecesText(line.pieces)
  }

  predicate PlainLine(line: Line) {
    forall j :: 0 <= j < |line.pieces| ==> line.pieces[j].color == None
  }

  /** No piece of any line carries a colour. */
  predicate Uncolored(lines: seq<Line>) {
    forall i :: 0 <= i < |lines| ==> PlainLine(lines[i])
  }

  /** `_color`: the text is wrapped in the colour only when colours are not
      switched off and the output is a terminal; either condition alone
      leaves it plain. */
  function ColorText(settings: Settings, isatty: bool, name: Color, text: string): (r: Piece)
    ensures r.text == text
    ensures r.color == None <==> settings.noColor || !isatty
    ensures r.color == None || r.color == Some(name)
  {
    if !settings.noColor && isatty then Piece(Some(name), text) else Plain(text)
  }

  /** `_format_duration`: `'%.4f seconds'`. */
  function FormatDuration(duration: int): string {
    Fixed4(duration) + " seconds"
  }

  /** The rendered duration ends in the unit, and the number before it reads
      back as the duration. */
  lemma FormatDurationReadsBack(duration: int)
    ensures var r := FormatDuration(duration);
      |r| > 8 && r[|r| - 8..] == " seconds" && ParseFixed4(r[..|r| - 8]) == Some(duration)
  {
    var r := FormatDuration(duration);
    assert r[..|r| - 8] == Fixed4(duration);
    Fixed4RoundTrip(duration);
  }

  /** `'  ' * depth`. */
  function Indentation(depth: nat): (r: string)
    ensures |r| == 2 * depth
    ensures forall i :: 0 <= i < |r| ==> r[i] == ' '
  {
    if depth == 0 then "" else "  " + Indentation(depth - 1)
  }

  /** `_format_slow_test`: nothing when the elapsed time does not exceed the
      threshold; otherwise the duration in parentheses, yellow up to five
      times the threshold (inclusive) and red beyond it. */
  function FormatSlowTest(settings: Settings, isatty: bool, elapsed: int): (r: Piece)
    ensures r.text == "" <==> elapsed <= settings.slowTestThreshold
    ensures elapsed > settings.slowTestThreshold ==> r.text == " (" + FormatDuration(elapsed) + ")"
    ensures settings.noColor || !isatty ==> r.color == None
    ensures !settings.noColor && isatty ==>
      (r.color == None <==> elapsed <= settings.slowTestThreshold) &&
      (r.color == Some(Yellow) <==> settings.slowTestThreshold < elapsed && elapsed <= 5 * settings.slowTestThreshold) &&
      (r.color == Some(Red) <==> settings.slowTestThreshold < elapsed && 5 * settings.slowTestThreshold < elapsed)
  {
    var colorName :=
      if elapsed > settings.slowTestThreshold then
        if elapsed > 5 * settings.slowTestThreshold then Some(Red) else Some(Yellow)
      else None;
    match colorName
    case Some(c) => ColorText(settings, isatty, c, " (" + FormatDuration(elapsed) + ")")
    case None => Plain("")
  }

  /** `_format_example`: indentation of two spaces per level, the status
      symbol, a space, the display name and the slow-test annotation. */
  function FormatExample(settings: Settings, isatty: bool, symbol: Piece, example: Example): (r: Line)
    ensures r.indent == 0 && r.newline && |r.pieces| == 5 && r.pieces[1] == symbol
    ensures r.pieces[0].color == None && r.pieces[2].color == None && r.pieces[3].color == None
    ensures r.pieces[4] == FormatSlowTest(settings, isatty, example.elapsed)
    ensures LineText(r) == Indentation(Depth(example.node)) + symbol.text + " " + FormatName(example.node.name)
                           + FormatSlowTest(settings, isatty, example.elapsed).text
  {
    var pieces := [Plain(Indentation(Depth(example.node))), symbol, Plain(" "), Plain(FormatName(example.node.name)),
                   FormatSlowTest(settings, isatty, example.elapsed)];
    PiecesTextOfFive(pieces[0], pieces[1], pieces[2], pieces[3], pieces[4]);
    Line(0, pieces, true)
  }

  /** `_format_example_group`: the group's name, as it is (underscores kept),
      after two spaces per level. */
  function FormatExampleGroup(settings: Settings, isatty: bool, group: ExampleGroup, color: Color): (r: Line)
    ensures r.indent == 0 && r.newline && |r.pieces| == 2
    ensures r.pieces[0].color == None && r.pieces[1] == ColorText(settings, isatty, color, group.node.name)
    ensures LineText(r) == Indentation(Depth(group.node)) + group.node.name
  {
    var pieces := [Plain(Indentation(Depth(group.node))), ColorText(settings, isatty, color, group.node.name)];
    PiecesTextOfTwo(pieces[0], pieces[1]);
    Line(0, pieces, true)
  }

  /** The summary line: red when anything failed, else yellow when anything
      is pending, else green; each message carries the counts and duration. */
  function SummaryLine(settings: Settings, isatty: bool, duration: int, exampleCount: int, failedCount: int, pendingCount: int): (r: Line)
    ensures r.indent == 0 && r.newline && |r.pieces| == 1
    ensures !settings.noColor && isatty ==>
      (r.pieces[0].color == Some(Red) <==> failedCount != 0) &&
      (r.pieces[0].color == Some(Yellow) <==> failedCount == 0 && pendingCount != 0) &&
      (r.pieces[0].color == Some(Green) <==> failedCount == 0 && pendingCount == 0)
    ensures failedCount != 0 ==>
      LineText(r) == IntToString(failedCount) + " examples failed of " + IntToString(exampleCount) + " ran in " + FormatDuration(duration)
    ensures failedCount == 0 && pendingCount != 0 ==>
      LineText(r) == IntToString(exampleCount) + " examples ran (" + IntToString(pendingCount) + " pending) in " + FormatDuration(duration)
    ensures failedCount == 0 && pendingCount == 0 ==>
      LineText(r) == IntToString(exampleCount) + " examples ran in " + FormatDuration(duration)
  {
    var d := FormatDuration(duration);
    var piece :=
      if failedCount != 0 then
        ColorText(settings, isatty, Red, IntToString(failedCount) + " examples failed of " + IntToString(exampleCount) + " ran in " + d)
      else if pendingCount != 0 then
        ColorText(settings, isatty, Yellow, IntToString(exampleCount) + " examples ran (" + IntToString(pendingCount) + " pending) in " + d)
      else
        ColorText(settings, isatty, Green, IntToString(exampleCount) + " examples ran in " + d);
    PiecesTextOfOne(piece);
    Line(0, [piece], true)
  }

  /** `m[2:]`: a traceback line without its two leading characters. */
  function Strip2(frame: string): (r: string)
    ensures |frame| <= 2 ==> r == ""
    ensures |frame| > 2 ==> |r| == |frame| - 2 && frame == frame[..2] + r
  {
    if |frame| <= 2 then "" else frame[2..]
  }

  function ConcatStripped(frames: seq<string>): string {
    if frames == [] then "" else Strip2(frames[0]) + ConcatStripped(frames[1..])
  }

  /** `_format_traceback`: the frames after the outermost one, each without
      its two leading characters, concatenated. */
  function FormatTraceback(frames: seq<string>): string {
    if frames == [] then "" else ConcatStripped(frames[1..])
  }

  lemma {:induction false} ConcatStrippedSnoc(frames: seq<string>, last: string)
    ensures ConcatStripped(frames + [last]) == ConcatStripped(frames) + Strip2(last)
  {
    if frames != [] {
      assert (frames + [last])[1..] == frames[1..] + [last];
      ConcatStrippedSnoc(frames[1..], last);
    }
  }

  /** The outermost frame never shows, and each further frame adds its
      stripped text at the end. */
  lemma FormatTracebackFrames(frames: seq<string>, last: string)
    ensures |frames| <= 1 ==> FormatTraceback(frames) == ""
    ensures frames != [] ==> FormatTraceback(frames + [last]) == FormatTraceback(frames) + Strip2(last)
  {
    if frames != [] {
      assert (frames + [last])[1..] == frames[1..] + [last];
      ConcatStrippedSnoc(frames[1..], last);
    }
  }

  predicate HasErrors(examples: seq<Example>) {
    forall i :: 0 <= i < |examples| ==> examples[i].error.Some?
  }

  /** The six lines the digest writes for the failed example numbered `number`. */
  function FailureEntry(settings: Settings, isatty: bool, number: nat, failed: Example): (r: seq<Line>)
    requires failed.error.Some?
    ensures |r| == 6
  {
    [ Line(2, [Plain(NatToString(number) + ") " + FullName(failed.node))], true),
      Line(5, [ColorText(settings, isatty, Red, "Failure/Error: " + failed.error.value.exception)], true),
      Blank(5),
      Line(5, [Plain("Traceback:")], true),
      Line(5, [ColorText(settings, isatty, Red, FormatTraceback(failed.error.value.traceback))], true),
      Blank(5) ]
  }

  /** The entries of `failed`, numbered from 1 in input order (`enumerate`). */
  function FailureEntries(settings: Settings, isatty: bool, failed: seq<Example>): (r: seq<Line>)
    requires HasErrors(failed)
    ensures |r| == 6 * |failed|
  {
    var blocks := seq(|failed|, k requires 0 <= k < |failed| => FailureEntry(settings, isatty, k + 1, failed[k]));
    FlattenLength(blocks);
    Flatten(blocks)
  }

  /** The blocks one after another. */
  function Flatten<T>(blocks: seq<seq<T>>): seq<T> {
    if blocks == [] then [] else blocks[0] + Flatten(blocks[1..])
  }

  lemma {:induction false} FlattenLength<T>(blocks: seq<seq<T>>)
    requires forall k :: 0 <= k < |blocks| ==> |blocks[k]| == 6
    ensures |Flatten(blocks)| == 6 * |blocks|
  {
    if blocks != [] {
      FlattenLength(blocks[1..]);
    }
  }

  /** Element `j` of block `k` sits at `6 * k + j` once six-element blocks are flattened. */
  lemma {:induction false} FlattenAt<T>(blocks: seq<seq<T>>, k: nat, j: nat)
    requires forall i :: 0 <= i < |blocks| ==> |blocks[i]| == 6
    requires k < |blocks| && j < 6
    ensures 6 * k + j < |Flatten(blocks)| && Flatten(blocks)[6 * k + j] == blocks[k][j]
  {
    FlattenLength(blocks);
    if k > 0 {
      FlattenAt(blocks[1..], k - 1, j);
    }
  }

  /** `failures`: nothing for an empty list; otherwise a "Failures:" header
      between blank lines, then one numbered entry per failed example. */
  function FailuresDigest(settings: Settings, isatty: bool, failed: seq<Example>): (r: seq<Line>)
    requires HasErrors(failed)
    ensures failed == [] <==> r == []
    ensures failed != [] ==> |r| == 3 + 6 * |failed| && r[..3] == [Blank(0), Line(0, [Plain("Failures:")], true), Blank(0)]
  {
    if failed == [] then []
    else [Blank(0), Line(0, [Plain("Failures:")], true), Blank(0)] + FailureEntries(settings, isatty, failed)
  }

  lemma FailureEntriesAt(settings: Settings, isatty: bool, failed: seq<Example>, k: nat, j: nat)
    requires HasErrors(failed) && k < |failed| && j < 6
    ensures 6 * k + j < |FailureEntries(settings, isatty, failed)|
    ensures FailureEntries(settings, isatty, failed)[6 * k + j] == FailureEntry(settings, isatty, k + 1, failed[k])[j]
  {
    var blocks := seq(|failed|, i requires 0 <= i < |failed| => FailureEntry(settings, isatty, i + 1, failed[i]));
    FlattenAt(blocks, k, j);
  }

  /** The lines of the digest are the header followed by the entries. */
  lemma FailuresDigestAt(settings: Settings, isatty: bool, failed: seq<Example>, k: nat, j: nat)
    requires HasErrors(failed) && k < |failed| && j < 6
    ensures FailuresDigest(settings, isatty, failed)[3 + 6 * k + j] == FailureEntry(settings, isatty, k + 1, failed[k])[j]
  {
    var entries := FailureEntries(settings, isatty, failed);
    assert FailuresDigest(settings, isatty, failed) == [Blank(0), Line(0, [Plain("Failures:")], true), Blank(0)] + entries;
    FailureEntriesAt(settings, isatty, failed, k, j);
  }

  /** The k-th failed example (0-based, input order) is announced as
      "k+1) <full name>" on line 3 + 6k of the digest. */
  lemma FailuresNumbering(settings: Settings, isatty: bool, failed: seq<Example>, k: nat)
    requires HasErrors(failed) && k < |failed|
    ensures FailuresDigest(settings, isatty, failed)[3 + 6 * k] == Line(2, [Plain(NatToString(k + 1) + ") " + FullName(failed[k].node))], true)
  {
    var entry := FailureEntry(settings, isatty, k + 1, failed[k]);
    FailuresDigestAt(settings, isatty, failed, k, 0);
    assert FailuresDigest(settings, isatty, failed)[3 + 6 * k] == entry[0];
  }

  /** The line after it gives the exception's message, in red. */
  lemma FailuresMessage(settings: Settings, isatty: bool, failed: seq<Example>, k: nat)
    requires HasErrors(failed) && k < |failed|
    ensures FailuresDigest(settings, isatty, failed)[4 + 6 * k] ==
      Line(5, [ColorText(settings, isatty, Red, "Failure/Error: " + failed[k].error.value.exception)], true)
  {
    FailuresDigestAt(settings, isatty, failed, k, 1);
  }

  /** Events the formatter can render: a failed example carries its error. */
  predicate Renderable(e: Event) {
    match e
    case ExampleFailed(example) => example.error.Some?
    case Failures(failed) => HasErrors(failed)
    case _ => true
  }

  /** An example's line with the given status symbol in the given colour:
      five pieces, the indentation, the symbol (through `_color`), a space,
      the display name and the slow-test annotation (yellow or red through
      `_color` when slow); only the symbol and the annotation can be coloured. */
  predicate ExampleLine(settings: Settings, isatty: bool, line: Line, color: Color, symbol: string, example: Example) {
    && line.indent == 0 && line.newline
    && |line.pieces| == 5 && line.pieces[1] == ColorText(settings, isatty, color, symbol)
    && line.pieces[0].color == None && line.pieces[2].color == None && line.pieces[3].color == None
    && line.pieces[4] == FormatSlowTest(settings, isatty, example.elapsed)
    && LineText(line) == Indentation(Depth(example.node)) + symbol + " " + FormatName(example.node.name)
                         + FormatSlowTest(settings, isatty, example.elapsed).text
  }

  /** The lines `DocumentationFormatter` writes for one event. */
  function Render(settings: Settings, isatty: bool, e: Event): (r: seq<Line>)
    requires Renderable(e)
    ensures e.ExampleStarted? ==> r == []
    ensures e.ExamplePassed? ==> |r| == 1 && ExampleLine(settings, isatty, r[0], Green, "✓", e.example)
    ensures e.ExampleFailed? ==> |r| == 2 && ExampleLine(settings, isatty, r[0], Red, "✗", e.example)
    ensures e.ExampleFailed? ==>
      r[1] == Line(2 * (Depth(e.example.node) + 1), [ColorText(settings, isatty, Red, e.example.error.value.exception)], true)
    ensures e.ExamplePending? ==> |r| == 1 && ExampleLine(settings, isatty, r[0], Yellow, "✗", e.example)
    ensures e.ExampleGroupStarted? ==> r == [FormatExampleGroup(settings, isatty, e.group, White)]
    ensures e.ExampleGroupPending? ==> r == [FormatExampleGroup(settings, isatty, e.group, Yellow)]
    ensures e.ExampleGroupFinished? ==> (e.group.node.parent == None ==> r == [Blank(0)]) && (e.group.node.parent.Some? ==> r == [])
    ensures e.Summary? ==> r == [SummaryLine(settings, isatty, e.duration, e.exampleCount, e.failedCount, e.pendingCount)]
    ensures e.Failures? ==> r == FailuresDigest(settings, isatty, e.failedExamples)
  {
    match e
    case ExampleStarted(_) => []
    case ExamplePassed(example) => [FormatExample(settings, isatty, ColorText(settings, isatty, Green, "✓"), example)]
    case ExampleFailed(example) =>
      [ FormatExample(settings, isatty, ColorText(settings, isatty, Red, "✗"), example),
        Line(2 * (Depth(example.node) + 1), [ColorText(settings, isatty, Red, example.error.value.exception)], true) ]
    case ExamplePending(example) => [FormatExample(settings, isatty, ColorText(settings, isatty, Yellow, "✗"), example)]
    case ExampleGroupStarted(group) => [FormatExampleGroup(settings, isatty, group, White)]
    case ExampleGroupFinished(group) => if group.node.parent == None then [Blank(0)] else []
    case ExampleGroupPending(group) => [FormatExampleGroup(settings, isatty, group, Yellow)]
    case Summary(duration, exampleCount, failedCount, pendingCount) =>
      [SummaryLine(settings, isatty, duration, exampleCount, failedCount, pendingCount)]
    case Failures(failed) => FailuresDigest(settings, isatty, failed)
  }

  lemma FailureEntryUncolored(settings: Settings, isatty: bool, number: nat, failed: Example)
    requires failed.error.Some? && (settings.noColor || !isatty)
    ensures Uncolored(FailureEntry(settings, isatty, number, failed))
  {
  }

  lemma FailureEntriesUncolored(settings: Settings, isatty: bool, failed: seq<Example>)
    requires HasErrors(failed) && (settings.noColor || !isatty)
    ensures Uncolored(FailureEntries(settings, isatty, failed))
  {
    var blocks := seq(|failed|, k requires 0 <= k < |failed| => FailureEntry(settings, isatty, k + 1, failed[k]));
    forall k | 0 <= k < |blocks|
      ensures Uncolored(blocks[k])
    {
      FailureEntryUncolored(settings, isatty, k + 1, failed[k]);
    }
    FlattenUncolored(blocks);
  }

  lemma {:induction false} FlattenUncolored(blocks: seq<seq<Line>>)
    requires forall k :: 0 <= k < |blocks| ==> Uncolored(blocks[k])
    ensures Uncolored(Flatten(blocks))
  {
    if blocks != [] {
      FlattenUncolored(blocks[1..]);
      var rest := Flatten(blocks[1..]);
      forall i | 0 <= i < |blocks[0] + rest|
        ensures PlainLine((blocks[0] + rest)[i])
      {
        if i >= |blocks[0]| {
          assert (blocks[0] + rest)[i] == rest[i - |blocks[0]|];
        }
      }
    }
  }

  lemma RenderUncolored(settings: Settings, isatty: bool, e: Event)
    requires Renderable(e) && (settings.noColor || !isatty)
    ensures Uncolored(Render(settings, isatty, e))
  {
    match e
    case Failures(failed) =>
      DigestUncolored(settings, isatty, failed);
    case ExamplePassed(example) =>
      ExampleLineUncolored(settings, isatty, Green, "✓", example);
    case ExampleFailed(example) =>
      ExampleLineUncolored(settings, isatty, Red, "✗", example);
    case ExamplePending(example) =>
      ExampleLineUncolored(settings, isatty, Yellow, "✗", example);
    case _ =>
  }

  lemma DigestUncolored(settings: Settings, isatty: bool, failed: seq<Example>)
    requires HasErrors(failed) && (settings.noColor || !isatty)
    ensures Uncolored(FailuresDigest(settings, isatty, failed))
  {
    if failed != [] {
      FailureEntriesUncolored(settings, isatty, failed);
      var entries := FailureEntries(settings, isatty, failed);
      assert FailuresDigest(settings, isatty, failed) == [Blank(0), Line(0, [Plain("Failures:")], true), Blank(0)] + entries;
    }
  }

  lemma ExampleLineUncolored(settings: Settings, isatty: bool, color: Color, symbol: string, example: Example)
    requires settings.noColor || !isatty
    ensures PlainLine(FormatExample(settings, isatty, ColorText(settings, isatty, color, symbol), example))
  {
  }

  /** Everything written for a run: the lines of each event, in order. */
  function RenderRun(settings: Settings, isatty: bool, events: seq<Event>): seq<Line>
    requires forall i :: 0 <= i < |events| ==> Renderable(events[i])
  {
    if events == [] then []
    else Render(settings, isatty, events[0]) + RenderRun(settings, isatty, events[1..])
  }

  /** No colour anywhere in a run written with colours switched off or away
      from a terminal. */
  lemma {:induction false} RenderRunUncolored(settings: Settings, isatty: bool, events: seq<Event>)
    requires forall i :: 0 <= i < |events| ==> Renderable(events[i])
    requires settings.noColor || !isatty
    ensures Uncolored(RenderRun(settings, isatty, events))
  {
    if events != [] {
      RenderUncolored(settings, isatty, events[0]);
      RenderRunUncolored(settings, isatty, events[1..]);
    }
  }
}

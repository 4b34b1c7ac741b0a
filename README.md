# mamba formatters, modelled in Dafny

mamba is a test runner for Python. While a run proceeds, its reporter calls
a formatter once per event: an example started, passed, failed or is
pending; a group started, finished or is pending; the summary; the failures
digest. This project models the three formatters of `mamba/formatters.py`
and proves properties of them:

- `DocumentationFormatter` (module `Documentation`) writes one indented line
  per group and per example, with an optional slow-test annotation. It also
  writes a coloured three-way summary and a numbered failures digest.
- `ProgressFormatter` (module `Progress`) writes one coloured character per
  finished example and nothing for groups. It writes two blank lines before
  the verbose summary.
- `XUnitFormatter` (module `XUnit`) builds an XML element tree. It is a
  `class` whose methods update its fields in place, as the Python object's
  methods do.

Shared helpers:

- `TreePosition` holds the walks up the parent chain. `_depth` and
  `_format_full_example_name` are loop methods (`DepthOf`, `FullNameOf`),
  each proved against a recursive specification function (`Depth`,
  `FullName`).
- `Decimal` renders `'%d'` and `'%.4f'`, with parsers proved to invert each
  rendering.
- `Results` holds the data the formatters receive.

Modelling choices:

- Durations are integers counted in ticks of 1/10000 second, the precision
  of `'%.4f'`. Counts are integers.
- Console output is a sequence of abstract `Line`s. A line holds the
  indentation set by `indent` blocks, the coloured or plain pieces written,
  and whether a newline ends it.
- Whether stdout is a terminal is a parameter (`isatty`).

Points where the code's behaviour may be unexpected, all modelled as
written:

- A group's header line shows `example_group.name` as it is. Underscores
  are not replaced; only example names are.
- An example that took exactly five times the slow-test threshold is
  yellow. The code tests `seconds > 5 * threshold`, so red starts strictly
  above 5×.
- The XUnit suites are flat: every group's `testsuite` is a child of the
  root, even for nested groups. `current_example_group` and the counter are
  overwritten when a group starts and are not restored when it finishes.
  So after a nested group, the outer group's finish writes `tests` and
  `time` onto the inner suite. `NestedGroupsRun` proves this.
- Calling `example_started` or `example_group_finished` before any group
  has started raises `AttributeError` in the source. In the model this is
  a precondition of those methods.

## Model

| member | source | states |
|---|---|---|
| `TreePosition.DepthOf` | mamba/formatters.py:53-60 | The loop that counts parent links returns `Depth(n)`, which is also the number of ancestors. |
| `TreePosition.AncestorsChain` | mamba/formatters.py:53-60 | There are exactly `Depth(n)` ancestors. The first has no parent, each next one is the child of the one before, and the last is the node's parent. |
| `TreePosition.DepthOfChild` | mamba/formatters.py:53-60 | A top-level node has depth 0; a child is one level deeper than its parent. |
| `TreePosition.FormatName` | mamba/formatters.py:68-69 | The display name has the same length as the name. Each character is kept, except `_`, which becomes a space. No `_` remains. |
| `TreePosition.FullNameOf` | mamba/formatters.py:129-138 | The loop that collects names upwards, reverses them and joins them returns `FullName(n)`, the path names from the top down joined by spaces. |
| `TreePosition.PathNames` | mamba/formatters.py:129-138 | A full name has `Depth(n) + 1` segments, and the last is the node's own display name. |
| `TreePosition.PathNamesAreAncestorNames` | mamba/formatters.py:129-138 | Segment `i` is the display name of ancestor `i`, counted from the top. |
| `TreePosition.FullNameOfChild` | mamba/formatters.py:129-138 | A top-level node's full name is its display name. Any other node's full name is its parent's full name, a space, then its display name. |
| `TreePosition.FullNameHasNoUnderscore` | mamba/formatters.py:129-138 | No underscore survives in a full name. |
| `TreePosition.JoinSnoc` | mamba/formatters.py:138 | Joining one more segment appends a space and that segment. |
| `Decimal.NatToString` | mamba/formatters.py:102 | `%d` of a non-negative number is non-empty and all digits. It starts with `0` only for zero. |
| `Decimal.IntToString` | mamba/formatters.py:188 | `str(i)` starts with `-` exactly when `i` is negative. |
| `Decimal.NatToStringRoundTrip` | mamba/formatters.py:102 | Reading back `%d` of `n` gives `n`. |
| `Decimal.IntToStringRoundTrip` | mamba/formatters.py:196-198 | Reading back `str(i)` gives `i`, negative values included. |
| `Decimal.FractionDigits` | mamba/formatters.py:109 | The fraction of `%.4f` is exactly four digits. |
| `Decimal.FractionDigitsValue` | mamba/formatters.py:109 | The four fraction digits read back as the number of ticks below one second. |
| `Decimal.Fixed4` | mamba/formatters.py:201-202 | `%.4f` has at least six characters, with the point five from the end. |
| `Decimal.UnsignedFixed4RoundTrip` | mamba/formatters.py:201-202 | Reading back `%.4f` of a non-negative duration gives that duration. |
| `Decimal.Fixed4RoundTrip` | mamba/formatters.py:201-202 | Reading back `%.4f` of any duration gives that duration, so distinct durations render differently. |
| `Documentation.FormatDurationReadsBack` | mamba/formatters.py:108-109 | `_format_duration` ends in ` seconds`, and the number before it reads back as the duration. |
| `Documentation.ColorText` | mamba/formatters.py:146-149 | The text is unchanged. It is uncoloured exactly when `no_color` is set or stdout is not a terminal, each condition alone being enough. Otherwise it is wrapped in the requested colour. |
| `Documentation.Indentation` | mamba/formatters.py:66 | `'  ' * depth` has `2 * depth` characters, all spaces. |
| `Documentation.FormatSlowTest` | mamba/formatters.py:71-84 | The annotation is empty exactly when elapsed is at most the threshold; otherwise it is ` (<duration>)`. With colour on, it is yellow exactly when threshold < elapsed ≤ 5× threshold and red exactly when elapsed > 5× threshold. With colour off it is never coloured. |
| `Documentation.FormatExample` | mamba/formatters.py:65-84 | An example line is five pieces: the `2·depth` spaces, the symbol, a space, the display name, then the slow-test annotation exactly as `_format_slow_test` returns it, coloured yellow or red when slow. The indentation, space and name pieces are plain. |
| `Documentation.FormatExampleGroup` | mamba/formatters.py:96-97 | A group line reads: `2·depth` spaces, then the group's name as given. The name, and only the name, passes through `_color` with the requested colour. |
| `Documentation.SummaryLine` | mamba/formatters.py:99-106 | A single piece. With colour on, it is red exactly when something failed, yellow exactly when nothing failed and something is pending, and green otherwise. The message of each branch carries the counts and the duration. |
| `Documentation.Strip2` | mamba/formatters.py:144 | `m[2:]` is empty for a frame of two characters or fewer; otherwise it is the frame without its first two characters. |
| `Documentation.FormatTracebackFrames` | mamba/formatters.py:143-144 | The outermost frame never shows. Each further frame adds its stripped text at the end. |
| `Documentation.FailuresDigest` | mamba/formatters.py:111-126 | The digest is empty exactly when there are no failures. Otherwise it is the three header lines followed by six lines per failure. |
| `Documentation.FailuresDigestAt` | mamba/formatters.py:118-126 | Line `3 + 6k + j` of the digest is line `j` of the entry for the `k`-th failure, numbered `k + 1`. |
| `Documentation.FailuresNumbering` | mamba/formatters.py:119-120 | The `k`-th failure's first line is indented by 2 and reads `<k+1>) <full name>`: numbering starts at 1, in input order. |
| `Documentation.FailuresMessage` | mamba/formatters.py:121-122 | The next line is indented by 5 and reads `Failure/Error: <exception>`, in red when colour is on. |
| `Documentation.Render` | mamba/formatters.py:45-126 | Per event. An example start writes nothing. A passed example writes one example line with a green ✓, a pending one with a yellow ✗; each carries the slow-test annotation piece with its yellow or red colour, and only the symbol and annotation can be coloured. A failed one writes an example line with a red ✗, then the exception text in red, indented `2·(depth+1)`. A group start writes its header in white, a pending group in yellow. A group finish writes one blank line if the group is top-level and nothing otherwise. The summary writes the summary line, and the failures the digest. |
| `Documentation.RenderUncolored` | mamba/formatters.py:146-149 | With `no_color` set or away from a terminal, no line written for any event carries a colour. |
| `Documentation.RenderRunUncolored` | mamba/formatters.py:146-149 | The same holds for everything written during a whole run. |
| `Progress.Render` | mamba/formatters.py:152-175 | A finished example writes one character with no newline: a green `.`, a red `F` or a yellow `*`. Group events write nothing. The summary is two blank lines followed by the verbose summary. The failures digest is the verbose one. |
| `Progress.RenderUncolored` | mamba/formatters.py:152-175 | Colour suppression holds for the progress formatter too. |
| `XUnit.XUnitFormatter.constructor` | mamba/formatters.py:180-181 | A new formatter's root is a `testsuites` element named `mamba`, with no children. |
| `XUnit.XUnitFormatter.ExampleGroupStarted` | mamba/formatters.py:183-185 | Appends a suite named by the group's subject at the end of the root's children. That suite becomes current, and the count restarts at 0. |
| `XUnit.XUnitFormatter.ExampleStarted` | mamba/formatters.py:191-193 | Requires a group to have started. Increments the count and appends a testcase named by the example to the current suite only. |
| `XUnit.XUnitFormatter.ExampleGroupFinished` | mamba/formatters.py:187-189 | Writes `tests` (the count) and `time` (the finishing group's duration) onto the current suite. Nothing else changes. |
| `XUnit.XUnitFormatter.Summary` | mamba/formatters.py:195-199 | Sets `tests`, `failures`, `disabled` and `time` on the root exactly as given. Nothing is recounted. |
| `XUnit.SummaryOverwrites` | mamba/formatters.py:195-199 | A later summary call replaces everything an earlier one set. |
| `XUnit.TestcaseCountUpdate` | mamba/formatters.py:191-193 | Replacing one suite changes the total testcase count by the difference in that suite's children. |
| `XUnit.Suites` | mamba/formatters.py:183-193 | The suites the callbacks build: one per group started. |
| `XUnit.SuitesNamed` | mamba/formatters.py:185 | The suites are named by the subjects of the groups started, in start order. |
| `XUnit.SuitesCountExamples` | mamba/formatters.py:191-193 | When no example starts before a group has, there is exactly one testcase per example started. |
| `XUnit.SuiteChildren` | mamba/formatters.py:183-193 | Suite `k` holds, in order, the testcases of the examples started while group `k` was the latest to start. After a nested group, later examples of the outer group go to the inner suite. |
| `XUnit.FinishStampsLatestSuite` | mamba/formatters.py:187-189 | A group finish writes `tests` (that suite's testcase count) and `time` (the finishing group's duration) onto the latest suite. It keeps that suite's name and testcases and changes no other suite. |
| `XUnit.Receive` | mamba/formatters.py:178-202 | After one callback, the formatter's whole state is the one the events so far determine: the suites, the current suite (the last), its count, the last testcase and the root's attributes. Hooks the formatter does not override leave it unchanged. |
| `XUnit.Run` | mamba/formatters.py:178-202 | After any sequence of callbacks, the root's children are `Suites(events)`. There is one suite per group started, named by the subjects in start order. Suite `k` holds the testcases of the examples started while group `k` was the latest to start, and there are as many testcases as examples started. The root's totals are those of the last summary call, or absent when there was none. |
| `XUnit.TrackedRoot` | mamba/formatters.py:178-202 | A formatter that has received a sequence of events has a document whose children are the suites those events build and whose totals are the last summary's. |
| `XUnit.OneExampleRun` | spec/xunit_formatter_spec.py:8-60 | One group holding one example: the root is `testsuites`, named `mamba`, with tests `1`, failures `0`, disabled `0` and a time that is not `0`. Its one suite is named by the subject, with tests `1` and one testcase named by the example. |
| `XUnit.NestedGroupsRun` | mamba/formatters.py:183-193 | With nested groups, the suites are flat. The outer suite keeps only its first testcase and never gets `tests` or `time`. The inner suite gets the later example, a count of 2, and the outer group's time. |

## Left out

- Writing to the terminal (clint's `puts`, `indent`, `colored`) is not modelled. Output is a list of abstract lines, and colours are names, not escape sequences.
- `sys.stdout.isatty()` is not called; it is the parameter `isatty`.
- Floating-point seconds are not modelled. Durations and the slow-test threshold are whole ticks of 1/10000 second, so `'%.4f'` needs no rounding. The source's rounding of finer durations is not captured.
- `traceback.format_tb` is not modelled. An error carries its traceback frames already formatted, outermost first.
- `str(exception)` is not modelled. An error carries its message as a string. `_format_failing_expectation` (mamba/formatters.py:140-141) is inlined into the failure entry.
- An example group's `subject` is taken to be a string. The source stores the subject object itself as the `testsuite` name attribute, and it may be any object, such as a class. Storing a non-string object there is not captured.
- ElementTree serialisation is not modelled. The XUnit document is an `Element` value with tag, attributes and children. `current_example_group` is an index into the root's children rather than an alias to the element.
- The `Formatter` base class's hooks (mamba/formatters.py:12-37) do nothing and are not separate members. `Receive` and both `Render` functions treat events a formatter does not override as changing nothing or writing nothing.
- The reporter that calls the formatters is not part of this model. `XUnit.Run` stands in for it, feeding events to a new formatter in order.
- `TreePosition.FullNameOf` assumes that every parent object is truthy, which holds for mamba's groups. The loop tests `while current.parent:`, and a falsy parent would stop it early.
- `Documentation.Render`: a failed example is taken to carry its error, as the runner guarantees. `example_failed` and `failures` read `example.error.exception` and would raise without one, and that raise is not modelled. `Progress.Render` reads the error only for the failures digest.
- `XUnit.XUnitFormatter.ExampleStarted`: the `AttributeError` raised when no group has started is a precondition, not an error result.
- `XUnit.XUnitFormatter.ExampleGroupFinished`: the `AttributeError` raised when no group has started is a precondition, not an error result.
- `DocumentationFormatter.__init__` only stores the settings, which are passed to every rendering function instead.

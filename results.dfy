/** The run results the formatters receive from the reporter, and the
    callbacks (events) through which they receive them. */
module Results {
  import opened Wrappers

  /** What a result knows of its place in the tree: its name and its parent
      group. An example's parent is the node of the group that holds it; a
      group at the top level has no parent. Being a datatype, every parent
      chain is finite and acyclic. */
  datatype Node = Node(name: string, parent: Option<Node>)

  /** The error recorded on a failed example: the exception's message and the
      formatted frames of its traceback, outermost first. */
  datatype Error = Error(exception: string, traceback: seq<string>)

  /** A single test result; `elapsed` is in ticks (see Decimal.TicksPerSecond). */
  datatype Example = Example(node: Node, elapsed: int, error: Option<Error>)

  /** A group of examples; `subject` is what the group describes. */
  datatype ExampleGroup = ExampleGroup(node: Node, subject: string, elapsed: int)

  /** One call of the formatter interface (the hooks of class `Formatter`). */
  datatype Event =
    | ExampleStarted(example: Example)
    | ExamplePassed(example: Example)
    | ExampleFailed(example: Example)
    | ExamplePending(example: Example)
    | ExampleGroupStarted(group: ExampleGroup)
    | ExampleGroupFinished(group: ExampleGroup)
    | ExampleGroupPending(group: ExampleGroup)
    | Summary(duration: int, exampleCount: int, failedCount: int, pendingCount: int)
    | Failures(failedExamples: seq<Example>)
}

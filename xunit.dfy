/** The JUnit-style XML formatter (`XUnitFormatter`). It builds an element
    tree in step with the callbacks: a `testsuites` root, one `testsuite`
    child per group started (flat, whatever the nesting), and one `testcase`
    child per example started, under the suite of the most recently started
    group. Serialising the tree to XML text is not modelled. */
module XUnit {
  import opened Wrappers
  import opened Decimal
  import opened Results

  /** An XML element: tag, attributes and children. */
  datatype Element = Element(tag: string, attributes: map<string, string>, children: seq<Element>)

  function Testsuite(name: string): Element {
    Element("testsuite", map["name" := name], [])
  }

  function Testcase(name: string): Element {
    Element("testcase", map["name" := name], [])
  }

  predicate IsTestcase(e: Element) {
    e.tag == "testcase" && "name" in e.attributes && e.children == []
  }

  predicate IsTestsuite(e: Element) {
    && e.tag == "testsuite"
    && "name" in e.attributes
    && forall j :: 0 <= j < |e.children| ==> IsTestcase(e.children[j])
  }

  /** `_format_duration`: `'%.4f' % seconds`, without a unit. */
  function FormatDuration(duration: int): string {
    Fixed4(duration)
  }

  class XUnitFormatter {
    /** The attributes of the `testsuites` root element. */
    var rootAttributes: map<string, string>
    /** The root's children, in the order the groups started. */
    var suites: seq<Element>
    /** `current_example_group`: which suite the next testcase goes under;
        None until a group has started (the attribute does not exist yet). */
    var currentExampleGroup: Option<nat>
    /** `examples_in_current_example_group`, absent until a group has started. */
    var examplesInCurrentExampleGroup: Option<int>
    /** `current_example`: the last testcase created. */
    var currentExample: Option<Element>

    ghost predicate Valid()
      reads this
    {
      && "name" in rootAttributes && rootAttributes["name"] == "mamba"
      && (forall i :: 0 <= i < |suites| ==> IsTestsuite(suites[i]))
      && (currentExampleGroup.Some? <==> examplesInCurrentExampleGroup.Some?)
      && (currentExampleGroup.Some? ==>
            && currentExampleGroup.value < |suites|
            && examplesInCurrentExampleGroup.value == |suites[currentExampleGroup.value].children|)
      && (currentExample.Some? ==> IsTestcase(currentExample.value))
    }

    /** The document built so far. */
    function Root(): Element
      reads this
    {
      Element("testsuites", rootAttributes, suites)
    }

    constructor ()
      ensures Valid()
      ensures Root() == Element("testsuites", map["name" := "mamba"], [])
      ensures currentExampleGroup == None && examplesInCurrentExampleGroup == None && currentExample == None
    {
      rootAttributes := map["name" := "mamba"];
      suites := [];
      currentExampleGroup := None;
      examplesInCurrentExampleGroup := None;
      currentExample := None;
    }

    /** Adds a `testsuite` named by the group's subject at the end of the
        root's children, makes it current and restarts the count at zero. */
    method ExampleGroupStarted(group: ExampleGroup)
      requires Valid()
      modifies this
      ensures Valid()
      ensures rootAttributes == old(rootAttributes)
      ensures suites == old(suites) + [Testsuite(group.subject)]
      ensures currentExampleGroup == Some(|old(suites)|)
      ensures examplesInCurrentExampleGroup == Some(0)
      ensures currentExample == old(currentExample)
    {
      examplesInCurrentExampleGroup := Some(0);
      suites := suites + [Testsuite(group.subject)];
      currentExampleGroup := Some(|suites| - 1);
    }

    /** Counts the example and adds a `testcase` named by it under the
        current suite; no other suite changes. Only callable once a group
        has started: before that the counter does not exist. */
    method ExampleStarted(example: Example)
      requires Valid() && currentExampleGroup.Some?
      modifies this
      ensures Valid()
      ensures rootAttributes == old(rootAttributes)
      ensures currentExampleGroup == old(currentExampleGroup)
      ensures examplesInCurrentExampleGroup == Some(old(examplesInCurrentExampleGroup).value + 1)
      ensures var c := currentExampleGroup.value;
        suites == old(suites)[c := old(suites)[c].(children := old(suites)[c].children + [Testcase(example.node.name)])]
      ensures currentExample == Some(Testcase(example.node.name))
    {
      var c := currentExampleGroup.value;
      examplesInCurrentExampleGroup := Some(examplesInCurrentExampleGroup.value + 1);
      var testcase := Testcase(example.node.name);
      suites := suites[c := suites[c].(children := suites[c].children + [testcase])];
      currentExample := Some(testcase);
    }

    /** Writes the count and the group's duration onto the CURRENT suite,
        which after a nested group is the inner one, not this group's. */
    method ExampleGroupFinished(group: ExampleGroup)
      requires Valid() && currentExampleGroup.Some?
      modifies this
      ensures Valid()
      ensures rootAttributes == old(rootAttributes)
      ensures currentExampleGroup == old(currentExampleGroup)
      ensures examplesInCurrentExampleGroup == old(examplesInCurrentExampleGroup)
      ensures currentExample == old(currentExample)
      ensures var c := currentExampleGroup.value;
        suites == old(suites)[c := old(suites)[c].(attributes := old(suites)[c].attributes
          ["tests" := IntToString(old(examplesInCurrentExampleGroup).value)]
          ["time" := FormatDuration(group.elapsed)])]
    {
      var c := currentExampleGroup.value;
      var suite := suites[c];
      suite := suite.(attributes := suite.attributes["tests" := IntToString(examplesInCurrentExampleGroup.value)]);
      suite := suite.(attributes := suite.attributes["time" := FormatDuration(group.elapsed)]);
      suites := suites[c := suite];
    }

    /** Sets the root's totals exactly as given; nothing is recounted. */
    method Summary(duration: int, exampleCount: int, failedCount: int, pendingCount: int)
      requires Valid()
      modifies this
      ensures Valid()
      ensures rootAttributes == old(rootAttributes)["tests" := IntToString(exampleCount)]
        ["failures" := IntToString(failedCount)]["disabled" := IntToString(pendingCount)]
        ["time" := FormatDuration(duration)]
      ensures suites == old(suites)
      ensures currentExampleGroup == old(currentExampleGroup)
      ensures examplesInCurrentExampleGroup == old(examplesInCurrentExampleGroup)
      ensures currentExample == old(currentExample)
    {
      rootAttributes := rootAttributes["tests" := IntToString(exampleCount)];
      rootAttributes := rootAttributes["failures" := IntToString(failedCount)];
      rootAttributes := rootAttributes["disabled" := IntToString(pendingCount)];
      rootAttributes := rootAttributes["time" := FormatDuration(duration)];
    }
  }

  /** `element.get(key)`: the attribute's value, None when it is not set. */
  function Get(e: Element, key: string): Option<string> {
    if key in e.attributes then Some(e.attributes[key]) else None
  }

  /** The `name` attribute of an element ("" when it has none). */
  function NameOf(e: Element): string {
    if "name" in e.attributes then e.attributes["name"] else ""
  }

  function SuiteNames(suites: seq<Element>): (r: seq<string>)
    ensures |r| == |suites|
    ensures forall i :: 0 <= i < |suites| ==> r[i] == NameOf(suites[i])
  {
    seq(|suites|, i requires 0 <= i < |suites| => NameOf(suites[i]))
  }

  /** The number of testcases under all the suites. */
  function TestcaseCount(suites: seq<Element>): nat {
    if suites == [] then 0 else TestcaseCount(suites[..|suites| - 1]) + |suites[|suites| - 1].children|
  }

  lemma {:induction false} TestcaseCountUpdate(suites: seq<Element>, c: nat, e: Element)
    requires c < |suites|
    ensures TestcaseCount(suites[c := e]) == TestcaseCount(suites) - |suites[c].children| + |e.children|
  {
    var last := |suites| - 1;
    if c < last {
      assert suites[c := e][..last] == suites[..last][c := e];
      TestcaseCountUpdate(suites[..last], c, e);
    } else {
      assert suites[c := e][..last] == suites[..last];
    }
  }

  lemma TestcaseCountAppend(suites: seq<Element>, e: Element)
    ensures TestcaseCount(suites + [e]) == TestcaseCount(suites) + |e.children|
  {
    assert (suites + [e])[..|suites|] == suites;
  }

  /** The number of `example_group_started` calls in a sequence of events. */
  function GroupStarts(events: seq<Event>): nat {
    if events == [] then 0
    else GroupStarts(events[..|events| - 1]) + if events[|events| - 1].ExampleGroupStarted? then 1 else 0
  }

  /** The number of `example_started` calls in a sequence of events. */
  function ExampleStarts(events: seq<Event>): nat {
    if events == [] then 0
    else ExampleStarts(events[..|events| - 1]) + if events[|events| - 1].ExampleStarted? then 1 else 0
  }

  /** The subjects of the groups started, in order. */
  function StartedSubjects(events: seq<Event>): seq<string> {
    if events == [] then []
    else
      var e := events[|events| - 1];
      StartedSubjects(events[..|events| - 1]) + if e.ExampleGroupStarted? then [e.group.subject] else []
  }

  /** The last summary call, if any. */
  function LastSummary(events: seq<Event>): (r: Option<Event>)
    ensures r.Some? ==> r.value.Summary?
  {
    if events == [] then None
    else if events[|events| - 1].Summary? then Some(events[|events| - 1])
    else LastSummary(events[..|events| - 1])
  }

  /** The reporter's calls are such that no example starts, and no group
      finishes, before some group has started. */
  predicate InsideSomeGroup(events: seq<Event>) {
    forall i :: 0 <= i < |events| && (events[i].ExampleStarted? || events[i].ExampleGroupFinished?) ==>
      GroupStarts(events[..i]) > 0
  }

  /** The root's attributes once the given summary call (if any) has been
      made: the four totals overwrite whatever an earlier call set. */
  function RootAttributesAfter(last: Option<Event>): map<string, string>
    requires last.Some? ==> last.value.Summary?
  {
    match last
    case None => map["name" := "mamba"]
    case Some(s) =>
      map["name" := "mamba"]["tests" := IntToString(s.exampleCount)]["failures" := IntToString(s.failedCount)]
        ["disabled" := IntToString(s.pendingCount)]["time" := FormatDuration(s.duration)]
  }

  /** A summary call overwrites the totals an earlier one set. */
  lemma SummaryOverwrites(last: Option<Event>, e: Event)
    requires last.Some? ==> last.value.Summary?
    requires e.Summary?
    ensures RootAttributesAfter(last)["tests" := IntToString(e.exampleCount)]["failures" := IntToString(e.failedCount)]
      ["disabled" := IntToString(e.pendingCount)]["time" := FormatDuration(e.duration)] == RootAttributesAfter(Some(e))
  {
    var m := RootAttributesAfter(last)["tests" := IntToString(e.exampleCount)]["failures" := IntToString(e.failedCount)]
      ["disabled" := IntToString(e.pendingCount)]["time" := FormatDuration(e.duration)];
    var n := RootAttributesAfter(Some(e));
    assert m.Keys == n.Keys;
    assert forall k | k in m :: m[k] == n[k];
  }

  /** The root's children after the callbacks in `events`, built the way
      the formatter builds them. A group start appends a suite named by its
      subject. An example start appends a testcase to the LAST suite, the one
      started most recently. A group finish writes `tests` (the last suite's
      testcase count) and `time` (the finishing group's duration) onto the
      last suite, whichever group that suite belongs to. Other calls change
      nothing, and so do example starts and group finishes before any group
      has started (the formatter cannot receive those). */
  function Suites(events: seq<Event>): (r: seq<Element>)
    ensures |r| == GroupStarts(events)
  {
    if events == [] then []
    else
      var before := Suites(events[..|events| - 1]);
      Next(before, events[|events| - 1])
  }

  /** The children after one more callback. */
  function Next(before: seq<Element>, e: Event): (r: seq<Element>)
    ensures |r| == |before| + if e.ExampleGroupStarted? then 1 else 0
  {
    if e.ExampleGroupStarted? then before + [Testsuite(e.group.subject)]
    else if before == [] then before
    else
      var c := |before| - 1;
      if e.ExampleStarted? then
        before[c := before[c].(children := before[c].children + [Testcase(e.example.node.name)])]
      else if e.ExampleGroupFinished? then
        before[c := before[c].(attributes := before[c].attributes
          ["tests" := IntToString(|before[c].children|)]["time" := FormatDuration(e.group.elapsed)])]
      else before
  }

  /** The testcase of the last example started, if any. */
  function LastTestcase(events: seq<Event>): Option<Element> {
    if events == [] then None
    else if events[|events| - 1].ExampleStarted? then Some(Testcase(events[|events| - 1].example.node.name))
    else LastTestcase(events[..|events| - 1])
  }

  /** The testcases filed under the suite of the `k`-th group started
      (counting from 0): one per example started while that group was the
      latest to start, in order. */
  function CasesOf(events: seq<Event>, k: nat): seq<Element> {
    if events == [] then []
    else
      var prefix := events[..|events| - 1];
      var e := events[|events| - 1];
      if e.ExampleStarted? && GroupStarts(prefix) == k + 1 then CasesOf(prefix, k) + [Testcase(e.example.node.name)]
      else CasesOf(prefix, k)
  }

  /** The formatter's state is the one the callbacks in `events` determine:
      its suites, which of them is current (the last), the count of the
      current suite (kept by `Valid`), its last testcase and the root's
      attributes. */
  ghost predicate Tracks(formatter: XUnitFormatter, events: seq<Event>)
    reads formatter
  {
    && formatter.Valid()
    && formatter.suites == Suites(events)
    && formatter.currentExampleGroup == (if formatter.suites == [] then None else Some(|formatter.suites| - 1))
    && formatter.currentExample == LastTestcase(events)
    && formatter.rootAttributes == RootAttributesAfter(LastSummary(events))
  }

  lemma StepCounts(seen: seq<Event>, e: Event)
    ensures GroupStarts(seen + [e]) == GroupStarts(seen) + if e.ExampleGroupStarted? then 1 else 0
    ensures ExampleStarts(seen + [e]) == ExampleStarts(seen) + if e.ExampleStarted? then 1 else 0
    ensures StartedSubjects(seen + [e]) == StartedSubjects(seen) + if e.ExampleGroupStarted? then [e.group.subject] else []
    ensures LastSummary(seen + [e]) == if e.Summary? then Some(e) else LastSummary(seen)
    ensures Suites(seen + [e]) == Next(Suites(seen), e)
    ensures LastTestcase(seen + [e]) == if e.ExampleStarted? then Some(Testcase(e.example.node.name)) else LastTestcase(seen)
    ensures forall k: nat ::
      CasesOf(seen + [e], k) ==
        if e.ExampleStarted? && GroupStarts(seen) == k + 1 then CasesOf(seen, k) + [Testcase(e.example.node.name)] else CasesOf(seen, k)
  {
    assert (seen + [e])[..|seen|] == seen;
  }

  lemma SuiteNamesUpdate(suites: seq<Element>, c: nat, x: Element)
    requires c < |suites| && NameOf(x) == NameOf(suites[c])
    ensures SuiteNames(suites[c := x]) == SuiteNames(suites)
  {
  }

  lemma SuiteNamesAppend(suites: seq<Element>, x: Element)
    ensures SuiteNames(suites + [x]) == SuiteNames(suites) + [NameOf(x)]
  {
  }

  /** The suites are named by the subjects of the groups started, in start order. */
  lemma {:induction false} SuitesNamed(events: seq<Event>)
    ensures SuiteNames(Suites(events)) == StartedSubjects(events)
  {
    if events != [] {
      var prefix := events[..|events| - 1];
      var e := events[|events| - 1];
      assert events == prefix + [e];
      StepCounts(prefix, e);
      SuitesNamed(prefix);
      var before := Suites(prefix);
      if e.ExampleGroupStarted? {
        SuiteNamesAppend(before, Testsuite(e.group.subject));
      } else if before != [] && (e.ExampleStarted? || e.ExampleGroupFinished?) {
        var c := |before| - 1;
        SuiteNamesUpdate(before, c, Next(before, e)[c]);
      }
    }
  }

  /** Every example started inside some group is filed as exactly one testcase. */
  lemma {:induction false} SuitesCountExamples(events: seq<Event>)
    requires InsideSomeGroup(events)
    ensures TestcaseCount(Suites(events)) == ExampleStarts(events)
  {
    if events != [] {
      var prefix := events[..|events| - 1];
      var e := events[|events| - 1];
      assert events == prefix + [e];
      StepCounts(prefix, e);
      assert forall i :: 0 <= i < |prefix| ==> prefix[..i] == events[..i];
      SuitesCountExamples(prefix);
      var before := Suites(prefix);
      if e.ExampleGroupStarted? {
        TestcaseCountAppend(before, Testsuite(e.group.subject));
      } else if e.ExampleStarted? || e.ExampleGroupFinished? {
        assert GroupStarts(events[..|events| - 1]) > 0;
        var c := |before| - 1;
        TestcaseCountUpdate(before, c, Next(before, e)[c]);
      }
    }
  }

  /** No testcase is filed under a group before it starts. */
  lemma {:induction false} CasesOfNotYetStarted(events: seq<Event>, k: nat)
    requires GroupStarts(events) <= k
    ensures CasesOf(events, k) == []
  {
    if events != [] {
      var prefix := events[..|events| - 1];
      assert events == prefix + [events[|events| - 1]];
      StepCounts(prefix, events[|events| - 1]);
      CasesOfNotYetStarted(prefix, k);
    }
  }

  /** The `k`-th suite holds the testcases of the examples started while its
      group was the latest to start, in order: after a nested group
      finishes, later examples of the outer group still go to the inner
      suite. */
  lemma {:induction false} SuiteChildren(events: seq<Event>, k: nat)
    requires k < |Suites(events)|
    ensures Suites(events)[k].children == CasesOf(events, k)
  {
    var prefix := events[..|events| - 1];
    var e := events[|events| - 1];
    assert events == prefix + [e];
    StepCounts(prefix, e);
    var before := Suites(prefix);
    if k < |before| {
      SuiteChildren(prefix, k);
    } else {
      CasesOfNotYetStarted(prefix, k);
    }
  }

  /** A group's finish stamps the LATEST suite: it gets `tests` (its own
      testcase count) and `time` (the finishing group's duration), keeps its
      name and testcases, and no other suite changes. After a nested group,
      that suite is the inner one even when the outer group finishes. */
  lemma FinishStampsLatestSuite(seen: seq<Event>, group: ExampleGroup)
    requires GroupStarts(seen) > 0
    ensures var before := Suites(seen);
      var after := Suites(seen + [ExampleGroupFinished(group)]);
      var c := |before| - 1;
      && |after| == |before|
      && (forall j :: 0 <= j < c ==> after[j] == before[j])
      && NameOf(after[c]) == NameOf(before[c]) && after[c].children == before[c].children
      && Get(after[c], "tests") == Some(IntToString(|before[c].children|))
      && Get(after[c], "time") == Some(FormatDuration(group.elapsed))
  {
    StepCounts(seen, ExampleGroupFinished(group));
  }

  /** Makes the call an event stands for. The formatter's state becomes the
      one the events so far determine; the hooks the formatter does not
      override (`example_passed`, `failures`, ...) leave it unchanged. */
  method Receive(formatter: XUnitFormatter, e: Event, ghost seen: seq<Event>)
    requires Tracks(formatter, seen)
    requires e.ExampleStarted? || e.ExampleGroupFinished? ==> GroupStarts(seen) > 0
    modifies formatter
    ensures Tracks(formatter, seen + [e])
    ensures !(e.ExampleGroupStarted? || e.ExampleStarted? || e.ExampleGroupFinished? || e.Summary?) ==> unchanged(formatter)
  {
    StepCounts(seen, e);
    match e
    case ExampleGroupStarted(group) => ReceiveGroupStarted(formatter, group, seen);
    case ExampleStarted(example) => ReceiveExampleStarted(formatter, example, seen);
    case ExampleGroupFinished(group) => ReceiveGroupFinished(formatter, group, seen);
    case Summary(_, _, _, _) => ReceiveSummary(formatter, e, seen);
    case _ =>
  }

  method ReceiveSummary(formatter: XUnitFormatter, e: Event, ghost seen: seq<Event>)
    requires Tracks(formatter, seen) && e.Summary?
    modifies formatter
    ensures Tracks(formatter, seen + [e])
  {
    StepCounts(seen, e);
    SummaryOverwrites(LastSummary(seen), e);
    formatter.Summary(e.duration, e.exampleCount, e.failedCount, e.pendingCount);
  }

  method ReceiveGroupStarted(formatter: XUnitFormatter, group: ExampleGroup, ghost seen: seq<Event>)
    requires Tracks(formatter, seen)
    modifies formatter
    ensures Tracks(formatter, seen + [ExampleGroupStarted(group)])
  {
    StepCounts(seen, ExampleGroupStarted(group));
    formatter.ExampleGroupStarted(group);
  }

  method ReceiveExampleStarted(formatter: XUnitFormatter, example: Example, ghost seen: seq<Event>)
    requires Tracks(formatter, seen) && GroupStarts(seen) > 0
    modifies formatter
    ensures Tracks(formatter, seen + [ExampleStarted(example)])
  {
    StepCounts(seen, ExampleStarted(example));
    formatter.ExampleStarted(example);
  }

  method ReceiveGroupFinished(formatter: XUnitFormatter, group: ExampleGroup, ghost seen: seq<Event>)
    requires Tracks(formatter, seen) && GroupStarts(seen) > 0
    modifies formatter
    ensures Tracks(formatter, seen + [ExampleGroupFinished(group)])
  {
    StepCounts(seen, ExampleGroupFinished(group));
    formatter.ExampleGroupFinished(group);
  }

  /** Feeds a sequence of callbacks to a new formatter, as the reporter does,
      and returns the document. The suites are those `Suites` builds: one
      per group started, named in start order, each holding the testcases of
      the examples started while its group was the latest to start; the root
      totals are those of the last summary call, not recounted from the tree. */
  method Run(events: seq<Event>) returns (root: Element)
    requires InsideSomeGroup(events)
    ensures Describes(root, events)
    ensures |root.children| == GroupStarts(events)
    ensures SuiteNames(root.children) == StartedSubjects(events)
    ensures TestcaseCount(root.children) == ExampleStarts(events)
    ensures forall k :: 0 <= k < |root.children| ==> root.children[k].children == CasesOf(events, k)
  {
    var formatter := new XUnitFormatter();
    for i := 0 to |events|
      invariant Tracks(formatter, events[..i])
    {
      assert events[..i + 1] == events[..i] + [events[i]];
      Receive(formatter, events[i], events[..i]);
    }
    assert events[..|events|] == events;
    root := formatter.Root();
    TrackedRoot(formatter, events);
    DescribedSuites(root, events);
  }

  /** What `Describes` implies about the suites of a well-formed run. */
  lemma DescribedSuites(root: Element, events: seq<Event>)
    requires InsideSomeGroup(events) && Describes(root, events)
    ensures |root.children| == GroupStarts(events)
    ensures SuiteNames(root.children) == StartedSubjects(events)
    ensures TestcaseCount(root.children) == ExampleStarts(events)
    ensures forall k :: 0 <= k < |root.children| ==> root.children[k].children == CasesOf(events, k)
  {
    SuitesNamed(events);
    SuitesCountExamples(events);
    forall k | 0 <= k < |root.children|
      ensures root.children[k].children == CasesOf(events, k)
    {
      SuiteChildren(events, k);
    }
  }

  /** What the document written after `events` looks like: a `testsuites`
      root named `mamba` whose children are `Suites(events)`, each a
      well-formed suite, with the root totals of the last summary call if
      there was one and none otherwise. */
  predicate Describes(root: Element, events: seq<Event>) {
    && root.tag == "testsuites" && Get(root, "name") == Some("mamba")
    && root.children == Suites(events)
    && (forall i :: 0 <= i < |root.children| ==> IsTestsuite(root.children[i]))
    && (LastSummary(events).None? ==> root.attributes == map["name" := "mamba"])
    && (LastSummary(events).Some? ==>
          var s := LastSummary(events).value;
          && Get(root, "tests") == Some(IntToString(s.exampleCount))
          && Get(root, "failures") == Some(IntToString(s.failedCount))
          && Get(root, "disabled") == Some(IntToString(s.pendingCount))
          && Get(root, "time") == Some(FormatDuration(s.duration)))
  }

  /** The document of a formatter that tracks `events`. */
  lemma TrackedRoot(formatter: XUnitFormatter, events: seq<Event>)
    requires Tracks(formatter, events)
    ensures Describes(formatter.Root(), events)
  {
    RootTotals(formatter.Root(), LastSummary(events));
  }

  lemma RootTotals(root: Element, last: Option<Event>)
    requires last.Some? ==> last.value.Summary?
    requires root.attributes == RootAttributesAfter(last)
    ensures Get(root, "name") == Some("mamba")
    ensures last.Some? ==>
      && Get(root, "tests") == Some(IntToString(last.value.exampleCount))
      && Get(root, "failures") == Some(IntToString(last.value.failedCount))
      && Get(root, "disabled") == Some(IntToString(last.value.pendingCount))
      && Get(root, "time") == Some(FormatDuration(last.value.duration))
  {
  }

  /** The run of the formatter's own test: one group holding one example.
      The root carries the summary's totals, and the single suite names the
      group, counts one test, has a time other than "0" and holds one
      testcase named after the example. */
  method OneExampleRun(group: ExampleGroup, example: Example, duration: int) returns (root: Element)
    ensures root.tag == "testsuites" && Get(root, "name") == Some("mamba")
    ensures Get(root, "tests") == Some("1") && Get(root, "failures") == Some("0") && Get(root, "disabled") == Some("0")
    ensures Get(root, "time") == Some(FormatDuration(duration)) && Get(root, "time").value != "0"
    ensures |root.children| == 1
    ensures root.children[0].tag == "testsuite" && Get(root.children[0], "name") == Some(group.subject)
    ensures Get(root.children[0], "tests") == Some("1") && Get(root.children[0], "time") == Some(FormatDuration(group.elapsed))
    ensures Get(root.children[0], "time").value != "0"
    ensures root.children[0].children == [Testcase(example.node.name)]
  {
    var formatter := new XUnitFormatter();
    formatter.ExampleGroupStarted(group);
    formatter.ExampleStarted(example);
    formatter.ExampleGroupFinished(group);
    formatter.Summary(duration, 1, 0, 0);
    root := formatter.Root();
  }

  /** Nested groups: suites stay flat; the example started after the inner
      group finished is counted in the inner suite; the outer group's finish
      writes onto the inner suite, and the outer suite never gets `tests`
      or `time`. */
  method NestedGroupsRun(outer: ExampleGroup, inner: ExampleGroup, first: Example, second: Example, third: Example)
    returns (root: Element)
    ensures |root.children| == 2
    ensures root.children[0] == Element("testsuite", map["name" := outer.subject], [Testcase(first.node.name)])
    ensures Get(root.children[1], "name") == Some(inner.subject)
    ensures root.children[1].children == [Testcase(second.node.name), Testcase(third.node.name)]
    ensures Get(root.children[1], "tests") == Some("2")
    ensures Get(root.children[1], "time") == Some(FormatDuration(outer.elapsed))
  {
    var formatter := new XUnitFormatter();
    formatter.ExampleGroupStarted(outer);
    formatter.ExampleStarted(first);
    var outerSuite := Element("testsuite", map["name" := outer.subject], [Testcase(first.node.name)]);
    assert Testsuite(outer.subject).children + [Testcase(first.node.name)] == outerSuite.children;
    assert formatter.suites == [outerSuite];
    formatter.ExampleGroupStarted(inner);
    formatter.ExampleStarted(second);
    var innerCases := [Testcase(second.node.name)];
    assert Testsuite(inner.subject).children + innerCases == innerCases;
    assert formatter.suites == [outerSuite, Element("testsuite", map["name" := inner.subject], innerCases)];
    assert formatter.examplesInCurrentExampleGroup == Some(1);
    formatter.ExampleGroupFinished(inner);
    formatter.ExampleStarted(third);
    assert formatter.suites[0] == outerSuite && formatter.examplesInCurrentExampleGroup == Some(2);
    formatter.ExampleGroupFinished(outer);
    root := formatter.Root();
  }
}

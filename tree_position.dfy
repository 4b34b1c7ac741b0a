/** Where a result sits in the tree: its nesting depth and its fully qualified
    display name, both found by walking parent links. */
module TreePosition {
  import opened Wrappers
  import opened Results

  /** The display form of a name: every underscore becomes a space. */
  function FormatName(name: string): (r: string)
    ensures |r| == |name|
    ensures forall i :: 0 <= i < |name| ==> r[i] == (if name[i] == '_' then ' ' else name[i])
    ensures '_' !in r
  {
    if name == [] then []
    else [if name[0] == '_' then ' ' else name[0]] + FormatName(name[1..])
  }

  /** The ancestors of a node, from the top-level group down to its parent. */
  function Ancestors(n: Node): seq<Node>
  {
    match n.parent
    case None => []
    case Some(p) => Ancestors(p) + [p]
  }

  /** The number of parent links from `o` up to the top, counting `o` itself. */
  function Hops(o: Option<Node>): nat
  {
    match o
    case None => 0
    case Some(p) => 1 + Hops(p.parent)
  }

  /** Nesting depth: 0 for a top-level group, one more than its parent's otherwise. */
  function Depth(n: Node): nat
  {
    Hops(n.parent)
  }

  /** The ancestors form the parent chain: the first has no parent, each
      next one is the child of the one before, and the last is the node's
      parent; there are exactly Depth(n) of them. */
  lemma {:induction false} AncestorsChain(n: Node)
    ensures |Ancestors(n)| == Depth(n)
    ensures Ancestors(n) != [] ==> Ancestors(n)[0].parent == None
    ensures Ancestors(n) != [] ==> n.parent == Some(Ancestors(n)[|Ancestors(n)| - 1])
    ensures forall i :: 0 < i < |Ancestors(n)| ==> Ancestors(n)[i].parent == Some(Ancestors(n)[i - 1])
  {
    match n.parent
    case None =>
    case Some(p) =>
      AncestorsChain(p);
  }

  /** The depth of a top-level node is 0 and a child is one deeper than its parent. */
  lemma DepthOfChild(n: Node)
    ensures n.parent == None ==> Depth(n) == 0
    ensures n.parent.Some? ==> Depth(n) == Depth(n.parent.value) + 1
  {
  }

  /** The display names along the path from the top-level group to `n`. */
  function PathNames(n: Node): (r: seq<string>)
    ensures |r| == Depth(n) + 1
    ensures r[|r| - 1] == FormatName(n.name)
  {
    match n.parent
    case None => [FormatName(n.name)]
    case Some(p) => PathNames(p) + [FormatName(n.name)]
  }

  /** `' '.join(segments)`. */
  function Join(segments: seq<string>): string
  {
    if segments == [] then ""
    else if |segments| == 1 then segments[0]
    else segments[0] + " " + Join(segments[1..])
  }

  lemma {:induction false} JoinSnoc(segments: seq<string>, last: string)
    requires segments != []
    ensures Join(segments + [last]) == Join(segments) + " " + last
  {
    if |segments| > 1 {
      assert (segments + [last])[1..] == segments[1..] + [last];
      JoinSnoc(segments[1..], last);
    }
  }

  /** The fully qualified display name: the path names joined by single spaces. */
  function FullName(n: Node): string
  {
    Join(PathNames(n))
  }

  /** A top-level node's full name is its display name; any other node's is its
      parent's full name, a space and its own display name. */
  lemma FullNameOfChild(n: Node)
    ensures n.parent == None ==> FullName(n) == FormatName(n.name)
    ensures n.parent.Some? ==> FullName(n) == FullName(n.parent.value) + " " + FormatName(n.name)
  {
    if n.parent.Some? {
      JoinSnoc(PathNames(n.parent.value), FormatName(n.name));
    }
  }

  /** No underscore survives in a full name. */
  lemma {:induction false} FullNameHasNoUnderscore(n: Node)
    ensures '_' !in FullName(n)
  {
    FullNameOfChild(n);
    if n.parent.Some? {
      FullNameHasNoUnderscore(n.parent.value);
    }
  }

  /** The segments of a full name, root first. */
  lemma {:induction false} PathNamesAreAncestorNames(n: Node)
    ensures |PathNames(n)| == |Ancestors(n)| + 1
    ensures forall i :: 0 <= i < |Ancestors(n)| ==> PathNames(n)[i] == FormatName(Ancestors(n)[i].name)
  {
    AncestorsChain(n);
    if n.parent.Some? {
      PathNamesAreAncestorNames(n.parent.value);
    }
  }

  /** `_depth`: counts the parent links by walking them. */
  method DepthOf(n: Node) returns (depth: nat)
    ensures depth == Depth(n)
    ensures depth == |Ancestors(n)|
  {
    AncestorsChain(n);
    depth := 0;
    var current := n.parent;
    while current != None
      invariant depth + Hops(current) == Depth(n)
      decreases Hops(current)
    {
      depth := depth + 1;
      current := current.value.parent;
    }
  }

  /** `list.reverse()`, on a value. */
  function Reversed(s: seq<string>): (r: seq<string>)
    ensures |r| == |s|
  {
    if s == [] then [] else [s[|s| - 1]] + Reversed(s[..|s| - 1])
  }

  lemma ReversedSnoc(s: seq<string>, x: string)
    ensures Reversed(s + [x]) == [x] + Reversed(s)
  {
    assert (s + [x])[..|s|] == s;
  }

  /** `_format_full_example_name`: collects the display names from the node
      upwards, reverses them and joins them with spaces. */
  method FullNameOf(n: Node) returns (name: string)
    ensures name == FullName(n)
  {
    var result := [FormatName(n.name)];
    var current := n;
    while current.parent != None
      invariant result != []
      invariant PathNames(n) == Init(PathNames(current)) + Reversed(result)
      decreases current
    {
      var p := current.parent.value;
      ClimbStep(PathNames(n), current, result);
      result := result + [FormatName(p.name)];
      current := p;
    }
    assert Init(PathNames(current)) == [];
    assert Reversed(result) == PathNames(n);
    result := Reversed(result);
    name := Join(result);
  }

  /** All but the last segment. */
  function Init(s: seq<string>): seq<string>
    requires s != []
  {
    s[..|s| - 1]
  }

  /** One step up the tree keeps the loop's account of the path. */
  lemma ClimbStep(path: seq<string>, current: Node, result: seq<string>)
    requires current.parent.Some?
    requires path == Init(PathNames(current)) + Reversed(result)
    ensures path == Init(PathNames(current.parent.value)) + Reversed(result + [FormatName(current.parent.value.name)])
  {
    var p := current.parent.value;
    var segment := FormatName(p.name);
    var prefix := Init(PathNames(p));
    assert Init(PathNames(current)) == PathNames(p);
    assert PathNames(p) == prefix + [segment];
    ReversedSnoc(result, segment);
    assert (prefix + [segment]) + Reversed(result) == prefix + ([segment] + Reversed(result));
  }
}

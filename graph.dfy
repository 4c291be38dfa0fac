/** The diagram of a machine's states: nodes, "continue" edges, "guard"
    edges, an initial and a final node, and their Mermaid text.

    The program keeps its nodes in a `Set` and its edges in a `Map` from
    a source node to a `Set` of targets; both iterate in insertion order,
    so here a set is a duplicate-free sequence and a map is an `EdgeMap`:
    its keys in insertion order and, per key, its targets. */
module Diagram {
  import opened Common

  predicate Distinct(s: seq<string>) {
    forall i, j :: 0 <= i < j < |s| ==> s[i] != s[j]
  }

  /** `set.add(x)` on an insertion-ordered set: `x` is appended unless it
      is already there. */
  function Insert(s: seq<string>, x: string): (r: seq<string>)
    ensures x in r
    ensures forall y :: y in r <==> y in s || y == x
    ensures s <= r && |r| <= |s| + 1
    ensures Distinct(s) ==> Distinct(r)
  {
    if x in s then s else s + [x]
  }

  // ---------------------------------------------------------------------
  // Edge maps

  /** A `Map<string, Set<string>>`: its keys in insertion order and the
      targets of each key. */
  datatype EdgeMap = EdgeMap(keys: seq<string>, targets: map<string, seq<string>>)

  const NoEdges := EdgeMap([], map[])

  /** The keys are listed once each, they are exactly the map's keys, and
      every target set is duplicate-free. */
  predicate WellFormed(m: EdgeMap) {
    && Distinct(m.keys)
    && (forall k :: k in m.keys ==> k in m.targets)
    && (forall k :: k in m.targets ==> k in m.keys)
    && (forall k :: k in m.targets ==> Distinct(m.targets[k]))
  }

  /** The targets of `from`; a node that is not a key has none. */
  function TargetsOf(m: EdgeMap, from: string): seq<string> {
    if from in m.targets then m.targets[from] else []
  }

  /** Adding the edge `from` to `to`: a source that is not yet a key gets an
      empty target set appended, then the target is added to its set. */
  function AddTarget(m: EdgeMap, from: string, to: string): (r: EdgeMap)
    ensures WellFormed(m) ==> WellFormed(r) && r.keys == Insert(m.keys, from)
    ensures TargetsOf(r, from) == Insert(TargetsOf(m, from), to)
    ensures forall k :: k != from ==> TargetsOf(r, k) == TargetsOf(m, k)
  {
    var tos := if from in m.targets then m.targets[from] else [];
    var keys := if from in m.targets then m.keys else m.keys + [from];
    EdgeMap(keys, m.targets[from := Insert(tos, to)])
  }

  /** Adding an edge that is already there changes nothing. */
  lemma AddTargetIdempotent(m: EdgeMap, from: string, to: string)
    requires WellFormed(m)
    ensures AddTarget(AddTarget(m, from, to), from, to) == AddTarget(m, from, to)
  {
    var r := AddTarget(m, from, to);
    assert from in r.targets;
    assert r.targets[from := Insert(r.targets[from], to)] == r.targets;
  }

  /** Edges added in either order give the same target sets; only the
      order in which keys and targets are listed can differ. */
  lemma AddTargetCommutes(m: EdgeMap, from1: string, to1: string, from2: string, to2: string)
    ensures var a := AddTarget(AddTarget(m, from1, to1), from2, to2);
            var b := AddTarget(AddTarget(m, from2, to2), from1, to1);
            forall k, x :: x in TargetsOf(a, k) <==> x in TargetsOf(b, k)
  {
  }

  // ---------------------------------------------------------------------
  // Mermaid text

  const Header := "graph TD\n"
  const ContinueArrow := " --> "
  const GuardArrow := " o.-> "
  const InitialFill := "#9f9"
  const FinalFill := "#f99"
  const StyleStroke := ",stroke:#333,stroke-width:4px"

  function NodeLine(node: string): string {
    "  " + node + "\n"
  }

  function EdgeLine(from: string, arrow: string, to: string): string {
    "  " + from + arrow + to + "\n"
  }

  /** The node lines, in the nodes' order. */
  function NodeLines(nodes: seq<string>): string
    decreases |nodes|
  {
    if nodes == [] then "" else NodeLines(nodes[..|nodes| - 1]) + NodeLine(nodes[|nodes| - 1])
  }

  /** The lines of the edges from `from` to each of `tos`, in order. */
  function TargetLines(from: string, arrow: string, tos: seq<string>): string
    decreases |tos|
  {
    if tos == [] then "" else TargetLines(from, arrow, tos[..|tos| - 1]) + EdgeLine(from, arrow, tos[|tos| - 1])
  }

  /** The lines of the edges from each of `keys`, key by key. */
  function EdgeLines(m: EdgeMap, arrow: string, keys: seq<string>): string
    decreases |keys|
  {
    if keys == [] then ""
    else
      var from := keys[|keys| - 1];
      EdgeLines(m, arrow, keys[..|keys| - 1]) + TargetLines(from, arrow, TargetsOf(m, from))
  }

  /** One more key adds the lines of its edges at the end. */
  lemma EdgeLinesStep(m: EdgeMap, arrow: string, keys: seq<string>, i: nat)
    requires i < |keys|
    ensures EdgeLines(m, arrow, keys[..i + 1])
         == EdgeLines(m, arrow, keys[..i]) + TargetLines(keys[i], arrow, TargetsOf(m, keys[i]))
  {
    assert keys[..i + 1][..i] == keys[..i];
  }

  /** The style line of the initial or final node; a node that is unset
      or the empty string (both falsy) has none. */
  function StyleLine(node: Option<string>, fill: string): (line: string)
    ensures line == "" <==> node.None? || node.value == ""
    ensures line != "" ==> Occurs(node.value, line) && line[|line| - 1] == '\n'
  {
    if node.Some? && node.value != "" then
      var line := "  style " + node.value + " fill:" + fill + StyleStroke + "\n";
      assert line[8..8 + |node.value|] == node.value;
      assert OccursAt(node.value, line, 8);
      line
    else ""
  }

  /** `toMermaid()`: the header, the nodes, the continue edges, the guard
      edges, then the styles of the initial and the final node. */
  function Mermaid(nodes: seq<string>, continueEdges: EdgeMap, guardEdges: EdgeMap,
                   initialNode: Option<string>, finalNode: Option<string>): (text: string)
    ensures Header <= text
  {
    var p1 := Header + NodeLines(nodes);
    var p2 := p1 + EdgeLines(continueEdges, ContinueArrow, continueEdges.keys);
    var p3 := p2 + EdgeLines(guardEdges, GuardArrow, guardEdges.keys);
    var p4 := p3 + StyleLine(initialNode, InitialFill);
    assert Header <= p1 <= p2 <= p3 <= p4 <= p4 + StyleLine(finalNode, FinalFill);
    p4 + StyleLine(finalNode, FinalFill)
  }

  // ---------------------------------------------------------------------
  // What the text contains

  /** `needle` is found in `hay` at position `i`. */
  predicate OccursAt(needle: string, hay: string, i: int) {
    0 <= i <= |hay| - |needle| && hay[i..i + |needle|] == needle
  }

  /** `needle` is a substring of `hay`. */
  predicate Occurs(needle: string, hay: string) {
    exists i :: 0 <= i <= |hay| && OccursAt(needle, hay, i)
  }

  lemma OccursSelf(s: string)
    ensures Occurs(s, s)
  {
    assert OccursAt(s, s, 0);
  }

  lemma OccursBefore(needle: string, a: string, b: string)
    requires Occurs(needle, a)
    ensures Occurs(needle, a + b)
  {
    var i :| 0 <= i <= |a| && OccursAt(needle, a, i);
    assert (a + b)[i..i + |needle|] == a[i..i + |needle|];
    assert OccursAt(needle, a + b, i);
  }

  lemma OccursAfter(needle: string, a: string, b: string)
    requires Occurs(needle, b)
    ensures Occurs(needle, a + b)
  {
    var i :| 0 <= i <= |b| && OccursAt(needle, b, i);
    assert (a + b)[|a| + i..|a| + i + |needle|] == b[i..i + |needle|];
    assert OccursAt(needle, a + b, |a| + i);
  }

  lemma {:induction false} NodeLinesList(nodes: seq<string>, node: string)
    requires node in nodes
    ensures Occurs(NodeLine(node), NodeLines(nodes))
    decreases |nodes|
  {
    var last := nodes[|nodes| - 1];
    if node == last {
      OccursSelf(NodeLine(node));
      OccursAfter(NodeLine(node), NodeLines(nodes[..|nodes| - 1]), NodeLine(node));
    } else {
      assert node in nodes[..|nodes| - 1] by {
        var i :| 0 <= i < |nodes| && nodes[i] == node;
        assert nodes[..|nodes| - 1][i] == node;
      }
      NodeLinesList(nodes[..|nodes| - 1], node);
      OccursBefore(NodeLine(node), NodeLines(nodes[..|nodes| - 1]), NodeLine(last));
    }
  }

  lemma {:induction false} TargetLinesList(from: string, arrow: string, tos: seq<string>, to: string)
    requires to in tos
    ensures Occurs(EdgeLine(from, arrow, to), TargetLines(from, arrow, tos))
    decreases |tos|
  {
    var last := tos[|tos| - 1];
    var init := TargetLines(from, arrow, tos[..|tos| - 1]);
    if to == last {
      OccursSelf(EdgeLine(from, arrow, to));
      OccursAfter(EdgeLine(from, arrow, to), init, EdgeLine(from, arrow, to));
    } else {
      assert to in tos[..|tos| - 1] by {
        var i :| 0 <= i < |tos| && tos[i] == to;
        assert tos[..|tos| - 1][i] == to;
      }
      TargetLinesList(from, arrow, tos[..|tos| - 1], to);
      OccursBefore(EdgeLine(from, arrow, to), init, EdgeLine(from, arrow, last));
    }
  }

  lemma {:induction false} EdgeLinesList(m: EdgeMap, arrow: string, keys: seq<string>, from: string, to: string)
    requires from in keys && to in TargetsOf(m, from)
    ensures Occurs(EdgeLine(from, arrow, to), EdgeLines(m, arrow, keys))
    decreases |keys|
  {
    var last := keys[|keys| - 1];
    var init := EdgeLines(m, arrow, keys[..|keys| - 1]);
    if from == last {
      TargetLinesList(from, arrow, TargetsOf(m, from), to);
      OccursAfter(EdgeLine(from, arrow, to), init, TargetLines(from, arrow, TargetsOf(m, from)));
    } else {
      assert from in keys[..|keys| - 1] by {
        var i :| 0 <= i < |keys| && keys[i] == from;
        assert keys[..|keys| - 1][i] == from;
      }
      EdgeLinesList(m, arrow, keys[..|keys| - 1], from, to);
      OccursBefore(EdgeLine(from, arrow, to), init, TargetLines(last, arrow, TargetsOf(m, last)));
    }
  }

  /** A needle in the node lines is in the whole text. */
  lemma OccursFromNodes(needle: string, nodes: seq<string>, continueEdges: EdgeMap, guardEdges: EdgeMap,
                        initialNode: Option<string>, finalNode: Option<string>)
    requires Occurs(needle, NodeLines(nodes))
    ensures Occurs(needle, Mermaid(nodes, continueEdges, guardEdges, initialNode, finalNode))
  {
    var p0 := Header + NodeLines(nodes);
    OccursAfter(needle, Header, NodeLines(nodes));
    OccursBefore(needle, p0, EdgeLines(continueEdges, ContinueArrow, continueEdges.keys));
    OccursFromGuardPrefix(needle, p0 + EdgeLines(continueEdges, ContinueArrow, continueEdges.keys),
                          guardEdges, initialNode, finalNode);
  }

  /** A needle in the text before the guard edges is in the whole text. */
  lemma OccursFromGuardPrefix(needle: string, prefix: string, guardEdges: EdgeMap,
                              initialNode: Option<string>, finalNode: Option<string>)
    requires Occurs(needle, prefix)
    ensures Occurs(needle, prefix + EdgeLines(guardEdges, GuardArrow, guardEdges.keys)
                           + StyleLine(initialNode, InitialFill) + StyleLine(finalNode, FinalFill))
  {
    var p1 := prefix + EdgeLines(guardEdges, GuardArrow, guardEdges.keys);
    OccursBefore(needle, prefix, EdgeLines(guardEdges, GuardArrow, guardEdges.keys));
    OccursBefore(needle, p1, StyleLine(initialNode, InitialFill));
    OccursBefore(needle, p1 + StyleLine(initialNode, InitialFill), StyleLine(finalNode, FinalFill));
  }

  /** Every node has its line in the text. */
  lemma MermaidListsNodes(nodes: seq<string>, continueEdges: EdgeMap, guardEdges: EdgeMap,
                          initialNode: Option<string>, finalNode: Option<string>, node: string)
    requires node in nodes
    ensures Occurs(NodeLine(node), Mermaid(nodes, continueEdges, guardEdges, initialNode, finalNode))
  {
    NodeLinesList(nodes, node);
    OccursFromNodes(NodeLine(node), nodes, continueEdges, guardEdges, initialNode, finalNode);
  }

  /** Every continue edge has its `-->` line in the text. */
  lemma MermaidListsContinueEdges(nodes: seq<string>, continueEdges: EdgeMap, guardEdges: EdgeMap,
                                  initialNode: Option<string>, finalNode: Option<string>, from: string, to: string)
    requires from in continueEdges.keys && to in TargetsOf(continueEdges, from)
    ensures Occurs(EdgeLine(from, ContinueArrow, to), Mermaid(nodes, continueEdges, guardEdges, initialNode, finalNode))
  {
    var line := EdgeLine(from, ContinueArrow, to);
    var continueText := EdgeLines(continueEdges, ContinueArrow, continueEdges.keys);
    EdgeLinesList(continueEdges, ContinueArrow, continueEdges.keys, from, to);
    OccursAfter(line, Header + NodeLines(nodes), continueText);
    OccursFromGuardPrefix(line, Header + NodeLines(nodes) + continueText, guardEdges, initialNode, finalNode);
  }

  /** Every guard edge has its `o.->` line in the text. */
  lemma MermaidListsGuardEdges(nodes: seq<string>, continueEdges: EdgeMap, guardEdges: EdgeMap,
                               initialNode: Option<string>, finalNode: Option<string>, from: string, to: string)
    requires from in guardEdges.keys && to in TargetsOf(guardEdges, from)
    ensures Occurs(EdgeLine(from, GuardArrow, to), Mermaid(nodes, continueEdges, guardEdges, initialNode, finalNode))
  {
    var line := EdgeLine(from, GuardArrow, to);
    var prefix := Header + NodeLines(nodes) + EdgeLines(continueEdges, ContinueArrow, continueEdges.keys);
    var guardText := EdgeLines(guardEdges, GuardArrow, guardEdges.keys);
    EdgeLinesList(guardEdges, GuardArrow, guardEdges.keys, from, to);
    OccursAfter(line, prefix, guardText);
    OccursBefore(line, prefix + guardText, StyleLine(initialNode, InitialFill));
    OccursBefore(line, prefix + guardText + StyleLine(initialNode, InitialFill), StyleLine(finalNode, FinalFill));
  }

  // ---------------------------------------------------------------------
  // How many lines the text has

  function Newlines(s: string): nat
    decreases |s|
  {
    if s == [] then 0 else Newlines(s[..|s| - 1]) + (if s[|s| - 1] == '\n' then 1 else 0)
  }

  lemma {:induction false} NewlinesConcat(a: string, b: string)
    ensures Newlines(a + b) == Newlines(a) + Newlines(b)
    decreases |b|
  {
    if b != [] {
      assert (a + b)[..|a + b| - 1] == a + b[..|b| - 1];
      assert (a + b)[|a + b| - 1] == b[|b| - 1];
      NewlinesConcat(a, b[..|b| - 1]);
    } else {
      assert a + b == a;
    }
  }

  predicate NoNewline(s: string) {
    '\n' !in s
  }

  lemma NoNewlineCount(s: string)
    requires NoNewline(s)
    ensures Newlines(s) == 0
    decreases |s|
  {
    if s != [] {
      NoNewlineCount(s[..|s| - 1]);
    }
  }

  /** A text without a newline, ended by one newline, is one line. */
  lemma LineCount(s: string)
    requires NoNewline(s)
    ensures Newlines(s + "\n") == 1
  {
    NoNewlineCount(s);
    assert (s + "\n")[..|s + "\n"| - 1] == s;
  }

  /** The number of edges listed under `keys`. */
  function EdgeCount(m: EdgeMap, keys: seq<string>): nat
    decreases |keys|
  {
    if keys == [] then 0 else EdgeCount(m, keys[..|keys| - 1]) + |TargetsOf(m, keys[|keys| - 1])|
  }

  predicate NamesWithoutNewline(m: EdgeMap) {
    && (forall k :: k in m.keys ==> NoNewline(k))
    && (forall k, x :: k in m.targets && x in m.targets[k] ==> NoNewline(x))
  }

  lemma {:induction false} NodeLinesCount(nodes: seq<string>)
    requires forall n :: n in nodes ==> NoNewline(n)
    ensures Newlines(NodeLines(nodes)) == |nodes|
    decreases |nodes|
  {
    if nodes != [] {
      var last := nodes[|nodes| - 1];
      NodeLinesCount(nodes[..|nodes| - 1]);
      assert last in nodes;
      LineCount("  " + last);
      NewlinesConcat(NodeLines(nodes[..|nodes| - 1]), NodeLine(last));
    }
  }

  lemma {:induction false} TargetLinesCount(from: string, arrow: string, tos: seq<string>)
    requires NoNewline(from) && NoNewline(arrow) && forall x :: x in tos ==> NoNewline(x)
    ensures Newlines(TargetLines(from, arrow, tos)) == |tos|
    decreases |tos|
  {
    if tos != [] {
      var last := tos[|tos| - 1];
      TargetLinesCount(from, arrow, tos[..|tos| - 1]);
      assert last in tos;
      LineCount("  " + from + arrow + last);
      NewlinesConcat(TargetLines(from, arrow, tos[..|tos| - 1]), EdgeLine(from, arrow, last));
    }
  }

  lemma {:induction false} EdgeLinesCount(m: EdgeMap, arrow: string, keys: seq<string>)
    requires NamesWithoutNewline(m) && NoNewline(arrow) && forall k :: k in keys ==> NoNewline(k)
    ensures Newlines(EdgeLines(m, arrow, keys)) == EdgeCount(m, keys)
    decreases |keys|
  {
    if keys != [] {
      var last := keys[|keys| - 1];
      EdgeLinesCount(m, arrow, keys[..|keys| - 1]);
      TargetLinesCount(last, arrow, TargetsOf(m, last));
      NewlinesConcat(EdgeLines(m, arrow, keys[..|keys| - 1]), TargetLines(last, arrow, TargetsOf(m, last)));
    }
  }

  lemma StyleLineCount(node: Option<string>, fill: string)
    requires node.Some? ==> NoNewline(node.value)
    requires NoNewline(fill)
    ensures Newlines(StyleLine(node, fill)) == if node.Some? && node.value != "" then 1 else 0
  {
    if node.Some? && node.value != "" {
      LineCount("  style " + node.value + " fill:" + fill + StyleStroke);
    }
  }

  /** When no name holds a newline, the text has one line for the header,
      one per node, one per edge of either kind, and one per initial or
      final node that is set and non-empty. */
  lemma MermaidLineCount(nodes: seq<string>, continueEdges: EdgeMap, guardEdges: EdgeMap,
                         initialNode: Option<string>, finalNode: Option<string>)
    requires forall n :: n in nodes ==> NoNewline(n)
    requires NamesWithoutNewline(continueEdges) && NamesWithoutNewline(guardEdges)
    requires initialNode.Some? ==> NoNewline(initialNode.value)
    requires finalNode.Some? ==> NoNewline(finalNode.value)
    ensures Newlines(Mermaid(nodes, continueEdges, guardEdges, initialNode, finalNode))
         == 1 + |nodes| + EdgeCount(continueEdges, continueEdges.keys) + EdgeCount(guardEdges, guardEdges.keys)
            + (if initialNode.Some? && initialNode.value != "" then 1 else 0)
            + (if finalNode.Some? && finalNode.value != "" then 1 else 0)
  {
    var nodeText := NodeLines(nodes);
    var continueText := EdgeLines(continueEdges, ContinueArrow, continueEdges.keys);
    var guardText := EdgeLines(guardEdges, GuardArrow, guardEdges.keys);
    var initialStyle := StyleLine(initialNode, InitialFill);
    var finalStyle := StyleLine(finalNode, FinalFill);
    assert Header == "graph TD" + "\n";
    LineCount("graph TD");
    NodeLinesCount(nodes);
    EdgeLinesCount(continueEdges, ContinueArrow, continueEdges.keys);
    EdgeLinesCount(guardEdges, GuardArrow, guardEdges.keys);
    StyleLineCount(initialNode, InitialFill);
    StyleLineCount(finalNode, FinalFill);
    NewlinesConcat(Header, nodeText);
    NewlinesConcat(Header + nodeText, continueText);
    NewlinesConcat(Header + nodeText + continueText, guardText);
    NewlinesConcat(Header + nodeText + continueText + guardText, initialStyle);
    NewlinesConcat(Header + nodeText + continueText + guardText + initialStyle, finalStyle);
  }

  // ---------------------------------------------------------------------
  // The graph object

  /** The edge kind that `addEdge` sends to the continue edges. */
  const ContinueKind := "continue"

  class Graph {
    var nodes: seq<string>
    var continueEdges: EdgeMap
    var guardEdges: EdgeMap
    var initialNode: Option<string>
    var finalNode: Option<string>

    /** Every node is listed once and both edge maps are well formed. */
    predicate Valid()
      reads this
    {
      Distinct(nodes) && WellFormed(continueEdges) && WellFormed(guardEdges)
    }

    constructor ()
      ensures Valid()
      ensures nodes == [] && continueEdges == NoEdges && guardEdges == NoEdges
      ensures initialNode == None && finalNode == None
    {
      nodes := [];
      continueEdges := NoEdges;
      guardEdges := NoEdges;
      initialNode := None;
      finalNode := None;
    }

    method AddNode(node: string)
      requires Valid()
      modifies this
      ensures Valid()
      ensures nodes == Insert(old(nodes), node)
      ensures continueEdges == old(continueEdges) && guardEdges == old(guardEdges)
      ensures initialNode == old(initialNode) && finalNode == old(finalNode)
    {
      nodes := Insert(nodes, node);
    }

    method SetInitialNode(node: string)
      requires Valid()
      modifies this
      ensures Valid()
      ensures initialNode == Some(node) && nodes == Insert(old(nodes), node)
      ensures continueEdges == old(continueEdges) && guardEdges == old(guardEdges)
      ensures finalNode == old(finalNode)
    {
      initialNode := Some(node);
      AddNode(node);
    }

    method SetFinalNode(node: string)
      requires Valid()
      modifies this
      ensures Valid()
      ensures finalNode == Some(node) && nodes == Insert(old(nodes), node)
      ensures continueEdges == old(continueEdges) && guardEdges == old(guardEdges)
      ensures initialNode == old(initialNode)
    {
      finalNode := Some(node);
      AddNode(node);
    }

    /** An edge of kind `"continue"` goes to the continue edges; any
        other kind to the guard edges. Neither end becomes a node. */
    method AddEdge(from: string, to: string, kind: string)
      requires Valid()
      modifies this
      ensures Valid()
      ensures kind == ContinueKind ==> continueEdges == AddTarget(old(continueEdges), from, to) && guardEdges == old(guardEdges)
      ensures kind != ContinueKind ==> guardEdges == AddTarget(old(guardEdges), from, to) && continueEdges == old(continueEdges)
      ensures nodes == old(nodes) && initialNode == old(initialNode) && finalNode == old(finalNode)
    {
      if kind == ContinueKind {
        AddContinueEdge(from, to);
      } else {
        AddGuardEdge(from, to);
      }
    }

    /** The `"continue"` branch of `addEdge`. */
    method AddContinueEdge(from: string, to: string)
      requires Valid()
      modifies this
      ensures Valid()
      ensures continueEdges == AddTarget(old(continueEdges), from, to) && guardEdges == old(guardEdges)
      ensures nodes == old(nodes) && initialNode == old(initialNode) && finalNode == old(finalNode)
    {
      var edges := AddTo(continueEdges, from, to);
      assert WellFormed(edges);
      continueEdges := edges;
    }

    /** The branch of `addEdge` for every other kind. */
    method AddGuardEdge(from: string, to: string)
      requires Valid()
      modifies this
      ensures Valid()
      ensures guardEdges == AddTarget(old(guardEdges), from, to) && continueEdges == old(continueEdges)
      ensures nodes == old(nodes) && initialNode == old(initialNode) && finalNode == old(finalNode)
    {
      var edges := AddTo(guardEdges, from, to);
      assert WellFormed(edges);
      guardEdges := edges;
    }

    /** The two updates of the chosen edge map: an empty target set for a
        new source, then the target added to the source's set. */
    static method AddTo(edges: EdgeMap, from: string, to: string) returns (r: EdgeMap)
      ensures r == AddTarget(edges, from, to)
    {
      r := edges;
      if from !in r.targets {
        r := EdgeMap(r.keys + [from], r.targets[from := []]);
      }
      r := EdgeMap(r.keys, r.targets[from := Insert(r.targets[from], to)]);
    }

    method ToMermaid() returns (mermaid: string)
      ensures mermaid == Mermaid(nodes, continueEdges, guardEdges, initialNode, finalNode)
    {
      mermaid := AppendNodes(Header, nodes);
      mermaid := AppendEdges(mermaid, continueEdges, ContinueArrow);
      mermaid := AppendEdges(mermaid, guardEdges, GuardArrow);
      var body := mermaid;
      if initialNode.Some? && initialNode.value != "" {
        mermaid := mermaid + StyleLine(initialNode, InitialFill);
      }
      assert mermaid == body + StyleLine(initialNode, InitialFill);
      body := mermaid;
      if finalNode.Some? && finalNode.value != "" {
        mermaid := mermaid + StyleLine(finalNode, FinalFill);
      }
      assert mermaid == body + StyleLine(finalNode, FinalFill);
    }

    /** The loop over the nodes. */
    static method AppendNodes(prefix: string, nodes: seq<string>) returns (mermaid: string)
      ensures mermaid == prefix + NodeLines(nodes)
    {
      mermaid := prefix;
      for i := 0 to |nodes|
        invariant mermaid == prefix + NodeLines(nodes[..i])
      {
        assert nodes[..i + 1][..i] == nodes[..i];
        mermaid := mermaid + NodeLine(nodes[i]);
      }
      assert nodes[..|nodes|] == nodes;
    }

    /** The outer loop over one edge map's entries. */
    static method AppendEdges(prefix: string, edges: EdgeMap, arrow: string) returns (mermaid: string)
      ensures mermaid == prefix + EdgeLines(edges, arrow, edges.keys)
    {
      mermaid := prefix;
      for i := 0 to |edges.keys|
        invariant mermaid == prefix + EdgeLines(edges, arrow, edges.keys[..i])
      {
        var from := edges.keys[i];
        ghost var done := EdgeLines(edges, arrow, edges.keys[..i]);
        ghost var added := TargetLines(from, arrow, TargetsOf(edges, from));
        EdgeLinesStep(edges, arrow, edges.keys, i);
        mermaid := AppendTargets(mermaid, from, arrow, TargetsOf(edges, from));
        assert mermaid == (prefix + done) + added == prefix + (done + added);
      }
      assert edges.keys[..|edges.keys|] == edges.keys;
    }

    /** The inner loop over the targets of one entry. */
    static method AppendTargets(prefix: string, from: string, arrow: string, tos: seq<string>) returns (mermaid: string)
      ensures mermaid == prefix + TargetLines(from, arrow, tos)
    {
      mermaid := prefix;
      for j := 0 to |tos|
        invariant mermaid == prefix + TargetLines(from, arrow, tos[..j])
      {
        assert tos[..j + 1][..j] == tos[..j];
        mermaid := mermaid + EdgeLine(from, arrow, tos[j]);
      }
      assert tos[..|tos|] == tos;
    }
  }
}

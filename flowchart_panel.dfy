/** The Mermaid text the flowchart panel renders (components/panels/FlowchartPanel.tsx): one
    line per node, one line per edge, then two style classes. Drawing the text is left to the
    Mermaid library and is not part of this model. */
module FlowchartPanel {
  import opened Wrappers
  import opened Strings
  import opened Types
  import opened AppStore

  // ---------------------------------------------------------------------------------------
  // Identifiers
  // ---------------------------------------------------------------------------------------

  /** The characters `/[^a-zA-Z0-9]/` does not match. */
  predicate IsAlnum(c: char) {
    ('a' <= c <= 'z') || ('A' <= c <= 'Z') || ('0' <= c <= '9')
  }

  /** A character Mermaid accepts in a node identifier here. */
  predicate IsIdChar(c: char) {
    IsAlnum(c) || c == '_'
  }

  /** `id.replace(/[^a-zA-Z0-9]/g, '_')`. */
  function SanitizeId(id: string): (r: string)
    ensures |r| == |id|
  {
    if id == [] then [] else [if IsAlnum(id[0]) then id[0] else '_'] + SanitizeId(id[1..])
  }

  /** Each letter and digit stays where it is, every other character becomes an underscore,
      so the result is made of identifier characters only. */
  lemma {:induction false} SanitizeIdAt(id: string)
    ensures forall i :: 0 <= i < |id| ==>
              SanitizeId(id)[i] == if IsAlnum(id[i]) then id[i] else '_'
    ensures forall i :: 0 <= i < |id| ==> IsIdChar(SanitizeId(id)[i])
  {
    if id != [] {
      SanitizeIdAt(id[1..]);
      forall i | 0 <= i < |id|
        ensures SanitizeId(id)[i] == if IsAlnum(id[i]) then id[i] else '_'
      {
        if i > 0 {
          assert SanitizeId(id)[i] == SanitizeId(id[1..])[i - 1];
        }
      }
    }
  }

  /** Sanitising twice changes nothing more, and an identifier of letters and digits only is
      left as it is. */
  lemma SanitizeIdIdempotent(id: string)
    ensures SanitizeId(SanitizeId(id)) == SanitizeId(id)
    ensures (forall i :: 0 <= i < |id| ==> IsAlnum(id[i])) ==> SanitizeId(id) == id
  {
    SanitizeIdAt(id);
    SanitizeIdAt(SanitizeId(id));
  }

  /** Sanitising distributes over concatenation. */
  lemma {:induction false} SanitizeIdConcat(a: string, b: string)
    ensures SanitizeId(a + b) == SanitizeId(a) + SanitizeId(b)
  {
    if a != [] {
      assert (a + b)[0] == a[0];
      assert (a + b)[1..] == a[1..] + b;
      SanitizeIdConcat(a[1..], b);
      var c := if IsAlnum(a[0]) then a[0] else '_';
      calc {
        SanitizeId(a + b);
        [c] + SanitizeId(a[1..] + b);
        [c] + (SanitizeId(a[1..]) + SanitizeId(b));
        ([c] + SanitizeId(a[1..])) + SanitizeId(b);
      }
    } else {
      assert a + b == b;
    }
  }

  /** The sanitised milestone node ids: the two dashes of `node-<milestone>-<time>` become
      underscores and nothing else changes. */
  lemma SanitizedNodeId(m: Milestone, now: nat)
    ensures SanitizeId(NodeId(m, now)) == "node_" + MilestoneName(m) + "_" + NatToString(now)
  {
    var name, digits := MilestoneName(m), NatToString(now);
    var prefix, dash := "node-", "-";
    assert NodeId(m, now) == prefix + name + dash + digits;
    SanitizeIdConcat(prefix + name + dash, digits);
    SanitizeIdConcat(prefix + name, dash);
    SanitizeIdConcat(prefix, name);
    MilestoneNameAlnum(m);
    SanitizeIdIdempotent(name);
    SanitizeIdIdempotent(digits);
    SanitizeIdAt(prefix);
    SanitizeIdAt(dash);
    assert SanitizeId(prefix) == "node_";
    assert SanitizeId(dash) == "_";
  }

  lemma MilestoneNameAlnum(m: Milestone)
    ensures forall i :: 0 <= i < |MilestoneName(m)| ==> IsAlnum(MilestoneName(m)[i])
  {
  }

  /** Sanitising keeps milestone node ids apart: two milestone nodes get the same Mermaid
      identifier exactly when they have the same id. */
  lemma SanitizedNodeIdsDistinct(m1: Milestone, t1: nat, m2: Milestone, t2: nat)
    ensures SanitizeId(NodeId(m1, t1)) == SanitizeId(NodeId(m2, t2)) <==> m1 == m2 && t1 == t2
  {
    SanitizedNodeId(m1, t1);
    SanitizedNodeId(m2, t2);
    var a, b := SanitizeId(NodeId(m1, t1)), SanitizeId(NodeId(m2, t2));
    if m1 == m2 {
      var n := 5 + |MilestoneName(m1)| + 1;
      assert a[n..] == NatToString(t1);
      assert b[n..] == NatToString(t2);
      if a == b {
        NatToStringInjective(t1, t2);
      }
    } else {
      assert a[5] == MilestoneName(m1)[0] && a[6] == MilestoneName(m1)[1];
      assert b[5] == MilestoneName(m2)[0] && b[6] == MilestoneName(m2)[1];
    }
  }

  // ---------------------------------------------------------------------------------------
  // Labels
  // ---------------------------------------------------------------------------------------

  /** `label.replace(/"/g, '\\"')`: a backslash before every double quote. */
  function EscapeLabel(s: string): string {
    if s == [] then [] else (if s[0] == '"' then "\\\"" else [s[0]]) + EscapeLabel(s[1..])
  }

  /** Reading an escaped label back: a backslash followed by a double quote is a quote. */
  function UnescapeLabel(s: string): string {
    if |s| >= 2 && s[0] == '\\' && s[1] == '"' then "\"" + UnescapeLabel(s[2..])
    else if s == [] then []
    else [s[0]] + UnescapeLabel(s[1..])
  }

  /** An escaped label never starts with a quote: every quote in it follows a backslash. */
  lemma EscapedStart(s: string)
    ensures EscapeLabel(s) == [] || EscapeLabel(s)[0] != '"'
  {
  }

  /** Escaping loses nothing: reading the escaped label back gives the label. */
  lemma {:induction false} UnescapeEscape(s: string)
    ensures UnescapeLabel(EscapeLabel(s)) == s
  {
    if s != [] {
      var rest := EscapeLabel(s[1..]);
      UnescapeEscape(s[1..]);
      if s[0] == '"' {
        assert EscapeLabel(s) == "\\\"" + rest;
        assert ("\\\"" + rest)[2..] == rest;
      } else {
        EscapedStart(s[1..]);
        assert EscapeLabel(s) == [s[0]] + rest;
        assert ([s[0]] + rest)[1..] == rest;
      }
    }
  }

  /** Escaping leaves every character but the double quote alone and adds one character per
      quote, so a label without quotes is unchanged. */
  lemma {:induction false} EscapeWithoutQuotes(s: string)
    requires forall i :: 0 <= i < |s| ==> s[i] != '"'
    ensures EscapeLabel(s) == s
  {
    if s != [] {
      EscapeWithoutQuotes(s[1..]);
    }
  }

  /** Every double quote of `e` is preceded by a backslash. */
  predicate QuotesEscaped(e: string) {
    forall i :: 0 <= i < |e| && e[i] == '"' ==> i > 0 && e[i - 1] == '\\'
  }

  /** No bare double quote survives escaping: every double quote of an escaped label is
      preceded by a backslash. */
  lemma {:induction false} EscapedQuotes(s: string)
    ensures QuotesEscaped(EscapeLabel(s))
  {
    if s != [] {
      EscapedQuotes(s[1..]);
      var head := if s[0] == '"' then "\\\"" else [s[0]];
      var e, rest := EscapeLabel(s), EscapeLabel(s[1..]);
      assert e == head + rest;
      forall i | 0 <= i < |e| && e[i] == '"' ensures i > 0 && e[i - 1] == '\\' {
        if i >= |head| {
          var k := i - |head|;
          assert rest[k] == '"';
          if k > 0 {
            assert rest[k - 1] == '\\';
            assert e[i - 1] == rest[k - 1];
          } else {
            assert false;
          }
        } else {
          assert e[i] == head[i];
          if i > 0 {
            assert e[i - 1] == head[i - 1];
          }
        }
      }
    }
  }

  // ---------------------------------------------------------------------------------------
  // Lines
  // ---------------------------------------------------------------------------------------

  const Header := "graph TD\n"
  const ClassDefs :=
    "\n  classDef default fill:#334155,stroke:#7c3aed,stroke-width:2px,color:#fff\n"
    + "  classDef decision fill:#9333ea,stroke:#a78bfa,stroke-width:2px,color:#fff\n"

  /** The shape a node type is drawn with, around its escaped label: a stadium for start and
      end, a rhombus for a decision, a rectangle for a process step. */
  function Shape(nodeType: NodeType, text: string): string {
    Opening(nodeType) + text + Closing(nodeType)
  }

  function Opening(nodeType: NodeType): string {
    match nodeType
    case Start => "(["
    case End => "(["
    case Decision => "{"
    case Process => "["
  }

  function Closing(nodeType: NodeType): string {
    match nodeType
    case Start => "])"
    case End => "])"
    case Decision => "}"
    case Process => "]"
  }

  function NodeLine(node: FlowchartNode): string {
    "  " + SanitizeId(node.id) + Shape(node.nodeType, EscapeLabel(node.labelText)) + "\n"
  }

  /** A node line is the sanitised id followed by the node's shape: `([...])` for start and
      end, `{...}` for a decision, `[...]` for a process step. The label reads back exactly
      from between the brackets. */
  lemma NodeLineReadsBack(node: FlowchartNode)
    ensures var line := NodeLine(node);
      var o, c := Opening(node.nodeType), Closing(node.nodeType);
      var k := 2 + |node.id| + |o|;
      && ((node.nodeType == Start || node.nodeType == End) ==> o == "([" && c == "])")
      && (node.nodeType == Decision ==> o == "{" && c == "}")
      && (node.nodeType == Process ==> o == "[" && c == "]")
      && k <= |line| - |c| - 1
      && line[..2 + |node.id|] == "  " + SanitizeId(node.id)
      && line[k - |o|..k] == o
      && line[|line| - |c| - 1..] == c + "\n"
      && UnescapeLabel(line[k..|line| - |c| - 1]) == node.labelText
  {
    var o, c := Opening(node.nodeType), Closing(node.nodeType);
    var id, e := "  " + SanitizeId(node.id), EscapeLabel(node.labelText);
    var a := id + o;
    var line := NodeLine(node);
    ConcatAssociative(o, e, c);
    ConcatAssociative(id, o + e, c);
    ConcatAssociative(id, o, e);
    assert line == ((a + e) + c) + "\n";
    ConcatAssociative(a + e, c, "\n");
    ConcatAssociative(a, e, c + "\n");
    assert line == a + (e + (c + "\n"));
    var k := |a|;
    assert line[..|id|] == id;
    assert line[k - |o|..k] == o;
    assert line[k..|line| - |c| - 1] == e;
    assert line[|line| - |c| - 1..] == c + "\n";
    UnescapeEscape(node.labelText);
  }

  /** An edge is labelled when it has a non-empty label; the label is written as it is. */
  function EdgeLabel(text: Option<string>): string {
    if text.Some? && text.value != "" then "|" + text.value + "|" else ""
  }

  function EdgeLine(edge: FlowchartEdge): string {
    "  " + SanitizeId(edge.from) + " -->" + EdgeLabel(edge.labelText) + " " + SanitizeId(edge.to) + "\n"
  }

  /** The node lines, in the order of the nodes. */
  function NodeLines(nodes: seq<FlowchartNode>): string {
    if nodes == [] then "" else NodeLines(nodes[..|nodes| - 1]) + NodeLine(nodes[|nodes| - 1])
  }

  /** The edge lines, in the order of the edges. */
  function EdgeLines(edges: seq<FlowchartEdge>): string {
    if edges == [] then "" else EdgeLines(edges[..|edges| - 1]) + EdgeLine(edges[|edges| - 1])
  }

  /** The text the panel hands to Mermaid: nothing without nodes. */
  function MermaidSyntax(nodes: seq<FlowchartNode>, edges: seq<FlowchartEdge>): Option<string> {
    if nodes == [] then None else Some(Header + NodeLines(nodes) + EdgeLines(edges) + ClassDefs)
  }

  /** The node lines start with the first node's line and go on with the others'. */
  lemma {:induction false} NodeLinesCons(nodes: seq<FlowchartNode>)
    requires nodes != []
    ensures NodeLines(nodes) == NodeLine(nodes[0]) + NodeLines(nodes[1..])
  {
    if |nodes| > 1 {
      var init := nodes[..|nodes| - 1];
      NodeLinesCons(init);
      assert init[1..] == nodes[1..][..|nodes[1..]| - 1];
    } else {
      assert nodes[..0] == [];
    }
  }

  /** The edge lines start with the first edge's line and go on with the others'. */
  lemma {:induction false} EdgeLinesCons(edges: seq<FlowchartEdge>)
    requires edges != []
    ensures EdgeLines(edges) == EdgeLine(edges[0]) + EdgeLines(edges[1..])
  {
    if |edges| > 1 {
      var init := edges[..|edges| - 1];
      EdgeLinesCons(init);
      assert init[1..] == edges[1..][..|edges[1..]| - 1];
    } else {
      assert edges[..0] == [];
    }
  }

  /** The line of a plain arrow between two nodes. */
  function ArrowLine(from: string, to: string): string {
    "  " + SanitizeId(from) + " --> " + SanitizeId(to) + "\n"
  }

  /** An edge without a label, or with an empty one, is drawn as a plain arrow. */
  lemma UnlabelledEdgeLine(edge: FlowchartEdge)
    requires edge.labelText.None? || edge.labelText == Some("")
    ensures EdgeLine(edge) == ArrowLine(edge.from, edge.to)
  {
    var a := "  " + SanitizeId(edge.from);
    assert EdgeLabel(edge.labelText) == "";
    assert a + " -->" + "" == a + " -->";
    ConcatAssociative(a, " -->", " ");
    assert " -->" + " " == " --> ";
  }

  /** A labelled edge writes its label, unescaped, between two bars right after the arrow, and
      the target's sanitised id after them. */
  lemma LabelledEdgeLine(edge: FlowchartEdge)
    requires edge.labelText.Some? && edge.labelText.value != ""
    ensures var line, p, l := EdgeLine(edge), "  " + SanitizeId(edge.from) + " -->|", edge.labelText.value;
      && IsPrefix(p, line)
      && |line| == |p| + |l| + 2 + |SanitizeId(edge.to)| + 1
      && line[|p|..|p| + |l|] == l
      && line[|p| + |l|..] == "| " + SanitizeId(edge.to) + "\n"
  {
    var a, l, z := "  " + SanitizeId(edge.from), edge.labelText.value, SanitizeId(edge.to);
    var p := a + " -->|";
    var rest := "| " + z + "\n";
    var line := EdgeLine(edge);
    assert line == (((a + " -->" + ("|" + l + "|")) + " ") + z) + "\n" by {
      assert EdgeLabel(edge.labelText) == "|" + l + "|";
    }
    assert a + " -->" + ("|" + l + "|") == (p + l) + "|" by {
      LabelRegroup(a, l);
    }
    assert line == (p + l) + rest by {
      TailRegroup(p + l, z);
    }
    assert line == p + (l + rest) by {
      ConcatAssociative(p, l, rest);
    }
    ConcatSlices(p, l, rest);
  }

  /** The arrow, then the label between bars, regrouped around the label. */
  lemma LabelRegroup(a: string, l: string)
    ensures a + " -->" + ("|" + l + "|") == ((a + " -->|") + l) + "|"
  {
    ConcatAssociative(a, " -->", "|");
    ConcatAssociative(a + " -->", "|" + l, "|");
    ConcatAssociative(a + " -->", "|", l);
  }

  /** The closing bar, the space, the target and the newline, regrouped as one tail. */
  lemma TailRegroup(q: string, z: string)
    ensures (((q + "|") + " ") + z) + "\n" == q + ("| " + z + "\n")
  {
    ConcatAssociative(q, "|", " ");
    ConcatAssociative(q, "| ", z);
    ConcatAssociative(q, "| " + z, "\n");
  }

  /** The edge lines of the store's chain: one plain arrow from each node to the next. */
  function ChainLines(nodes: seq<FlowchartNode>): string
    requires |nodes| >= 1
  {
    if |nodes| == 1 then ""
    else ArrowLine(nodes[0].id, nodes[1].id) + ChainLines(nodes[1..])
  }

  /** The flowchart the store builds is drawn as one path: after the node lines, the text links
      each node to the next with a plain arrow, and to nothing else. */
  lemma {:induction false} ChainIsDrawnAsPath(nodes: seq<FlowchartNode>, edges: seq<FlowchartEdge>)
    requires nodes != [] && IsChain(nodes, edges)
    ensures MermaidSyntax(nodes, edges) == Some(Header + NodeLines(nodes) + ChainLines(nodes) + ClassDefs)
  {
    ChainEdgeLines(nodes, edges);
  }

  lemma {:induction false} ChainEdgeLines(nodes: seq<FlowchartNode>, edges: seq<FlowchartEdge>)
    requires nodes != [] && IsChain(nodes, edges)
    ensures EdgeLines(edges) == ChainLines(nodes)
  {
    if |nodes| > 1 {
      EdgeLinesCons(edges);
      assert edges[0] == FlowchartEdge(nodes[0].id, nodes[1].id, None);
      UnlabelledEdgeLine(edges[0]);
      assert IsChain(nodes[1..], edges[1..]) by {
        forall i | 0 <= i < |edges[1..]|
          ensures edges[1..][i] == FlowchartEdge(nodes[1..][i].id, nodes[1..][i + 1].id, None)
        {
          assert edges[1..][i] == edges[i + 1];
        }
      }
      ChainEdgeLines(nodes[1..], edges[1..]);
    } else {
      assert edges == [];
    }
  }

  lemma NodeLinesSnoc(nodes: seq<FlowchartNode>, i: nat)
    requires i < |nodes|
    ensures NodeLines(nodes[..i + 1]) == NodeLines(nodes[..i]) + NodeLine(nodes[i])
  {
    assert nodes[..i + 1][..i] == nodes[..i];
  }

  lemma EdgeLinesSnoc(edges: seq<FlowchartEdge>, j: nat)
    requires j < |edges|
    ensures EdgeLines(edges[..j + 1]) == EdgeLines(edges[..j]) + EdgeLine(edges[j])
  {
    assert edges[..j + 1][..j] == edges[..j];
  }

  // ---------------------------------------------------------------------------------------
  // The effect that builds the text
  // ---------------------------------------------------------------------------------------

  /** `nodes.forEach(...)`: one `+=` per node. */
  method AddNodeLines(start: string, nodes: seq<FlowchartNode>) returns (text: string)
    ensures text == start + NodeLines(nodes)
  {
    text := start;
    var i := 0;
    while i < |nodes|
      invariant 0 <= i <= |nodes|
      invariant text == start + NodeLines(nodes[..i])
    {
      var line := NodeLine(nodes[i]);
      NodeLinesSnoc(nodes, i);
      ConcatAssociative(start, NodeLines(nodes[..i]), line);
      text := text + line;
      i := i + 1;
    }
    assert i == |nodes|;
    assert nodes[..i] == nodes;
  }

  /** `edges.forEach(...)`: one `+=` per edge. */
  method AddEdgeLines(start: string, edges: seq<FlowchartEdge>) returns (text: string)
    ensures text == start + EdgeLines(edges)
  {
    text := start;
    var j := 0;
    while j < |edges|
      invariant 0 <= j <= |edges|
      invariant text == start + EdgeLines(edges[..j])
    {
      var line := EdgeLine(edges[j]);
      EdgeLinesSnoc(edges, j);
      ConcatAssociative(start, EdgeLines(edges[..j]), line);
      text := text + line;
      j := j + 1;
    }
    assert j == |edges|;
    assert edges[..j] == edges;
  }

  /** The text as the panel builds it: the header, the node lines, the edge lines, then the
      style classes; nothing when there are no nodes. */
  method GenerateMermaidSyntax(nodes: seq<FlowchartNode>, edges: seq<FlowchartEdge>)
    returns (syntax: Option<string>)
    ensures syntax == MermaidSyntax(nodes, edges)
  {
    if |nodes| == 0 {
      return None;
    }
    var text := AddNodeLines(Header, nodes);
    text := AddEdgeLines(text, edges);
    text := text + ClassDefs;
    syntax := Some(text);
  }

  /** With at least one node the text starts with the header followed by the node lines and
      ends with the two style classes. */
  lemma MermaidFrame(nodes: seq<FlowchartNode>, edges: seq<FlowchartEdge>)
    requires nodes != []
    ensures var t := MermaidSyntax(nodes, edges).value;
      && IsPrefix(Header + NodeLines(nodes), t)
      && IsPrefix(Header, t)
      && |t| >= |ClassDefs| && t[|t| - |ClassDefs|..] == ClassDefs
  {
    var t := MermaidSyntax(nodes, edges).value;
    var head := Header + NodeLines(nodes);
    var body := head + EdgeLines(edges);
    assert t == body + ClassDefs;
    ConcatAssociative(head, EdgeLines(edges), ClassDefs);
    assert t == head + (EdgeLines(edges) + ClassDefs);
    assert t[..|head|] == head;
    ConcatAssociative(Header, NodeLines(nodes), EdgeLines(edges) + ClassDefs);
    assert t == Header + (NodeLines(nodes) + (EdgeLines(edges) + ClassDefs));
    assert t[..|Header|] == Header;
    assert t[|body|..] == ClassDefs;
  }
}

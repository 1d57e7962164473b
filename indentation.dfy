/**
 * The indentation of a node: the whitespace that starts the line it
 * begins on, found through the syntax tree; and the analysis that also
 * looks at the lines above it for an indentation of a different width.
 *
 * The tree is an oracle: nodes are numbered so that every parent has a
 * smaller number than its children, and the host's token lookup and line
 * table are functions of the tree.
 */
module Indentation {
  import opened Wrappers
  import opened SyntaxTrivia

  /** A span of text from `start` (inclusive) to `end` (exclusive). */
  datatype TextSpan = TextSpan(start: int, end: int)

  predicate Contains(s: TextSpan, x: int)
  {
    s.start <= x < s.end
  }

  /**
   * A single-line documentation comment node, with the leading trivia list
   * that holds the comment when there is one, or any other node.
   */
  datatype NodeKind = DocumentationComment(containingLeading: Option<seq<Trivia>>) | OtherNode

  /**
   * A node: its kind, its span without and with its trivia, its parent, and
   * its parent when leaving structured trivia for the token that holds it.
   */
  datatype NodeInfo = NodeInfo(kind: NodeKind, span: TextSpan, fullSpan: TextSpan,
                               parent: Option<nat>, parentOutOfTrivia: Option<nat>)

  /** The token found at a position, with its leading trivia and their span; or the none token. */
  datatype FoundToken = NoToken | FoundToken(span: TextSpan, leading: seq<Trivia>, leadingSpan: TextSpan)

  /**
   * A syntax tree: the length of its text, its nodes, the token a node
   * finds at a position (outside and inside trivia), and the start of the
   * line that holds a position.
   */
  datatype Tree = Tree(textLength: nat, nodes: seq<NodeInfo>,
                       findToken: (nat, int) -> FoundToken,
                       findTokenInsideTrivia: (nat, int) -> FoundToken,
                       lineStart: int -> int)

  datatype IndentationAnalysis = IndentationAnalysis(node: nat, indentation: Trivia, indentation2: Trivia)

  function EmptyWhitespace(): Trivia
  {
    Trivia(WhitespaceTrivia, "")
  }

  predicate ParentBelow(p: Option<nat>, n: nat)
  {
    p.Some? ==> p.value < n
  }

  predicate CoversText(s: TextSpan, textLength: nat)
  {
    s.start <= 0 && textLength <= s.end
  }

  /**
   * What the host guarantees of a tree: parents come before children, a
   * node without a parent spans the whole text, nodes start inside the
   * text, a line starts no later than any position on it, tokens found start
   * inside the text, and a documentation comment's trivia list holds it.
   */
  predicate WellFormed(tree: Tree)
  {
    && (forall n :: 0 <= n < |tree.nodes| ==>
          ParentBelow(tree.nodes[n].parent, n) && ParentBelow(tree.nodes[n].parentOutOfTrivia, n))
    && (forall n :: 0 <= n < |tree.nodes| && (tree.nodes[n].parent.None? || tree.nodes[n].parentOutOfTrivia.None?) ==>
          CoversText(tree.nodes[n].fullSpan, tree.textLength))
    && (forall n :: 0 <= n < |tree.nodes| ==> 0 <= tree.nodes[n].span.start < tree.textLength)
    && (forall x :: 0 <= x < tree.textLength ==> 0 <= tree.lineStart(x) <= x)
    && (forall n, x :: 0 <= n < |tree.nodes| && 0 <= x < tree.textLength && tree.findTokenInsideTrivia(n, x).FoundToken? ==>
          0 <= tree.findTokenInsideTrivia(n, x).span.start < tree.textLength)
    && (forall n :: 0 <= n < |tree.nodes| && tree.nodes[n].kind.DocumentationComment? && tree.nodes[n].kind.containingLeading.Some? ==>
          |tree.nodes[n].kind.containingLeading.value| > 0)
  }

  /** The parent taken when a node does not contain the position. */
  function ParentOf(tree: Tree, n: nat, outOfTrivia: bool): (p: nat)
    requires WellFormed(tree) && n < |tree.nodes|
    requires !CoversText(tree.nodes[n].fullSpan, tree.textLength)
    ensures p < n
  {
    if outOfTrivia then tree.nodes[n].parentOutOfTrivia.value else tree.nodes[n].parent.value
  }

  /** The nearest node, from `n` up its parents, whose full span contains `x`. */
  function Ascend(tree: Tree, n: nat, x: int, outOfTrivia: bool): (m: nat)
    requires WellFormed(tree) && n < |tree.nodes| && 0 <= x < tree.textLength
    ensures m <= n && Contains(tree.nodes[m].fullSpan, x)
    decreases n
  {
    if Contains(tree.nodes[n].fullSpan, x) then n
    else Ascend(tree, ParentOf(tree, n, outOfTrivia), x, outOfTrivia)
  }

  /**
   * The indentation in node `m` at line start `x`: in a documentation
   * comment, the last trivia of the list holding it; elsewhere the last
   * leading trivia of the token at `x`, when that list is not empty and
   * spans `x`; in both cases only when it is whitespace.
   */
  function IndentationIn(tree: Tree, m: nat, x: int): (r: Trivia)
    requires WellFormed(tree) && m < |tree.nodes|
    ensures IsWhitespace(r)
  {
    match tree.nodes[m].kind
    case DocumentationComment(containing) =>
      if containing.Some? && IsWhitespace(containing.value[|containing.value| - 1])
      then containing.value[|containing.value| - 1]
      else EmptyWhitespace()
    case OtherNode =>
      var token := tree.findToken(m, x);
      if token.FoundToken? && |token.leading| > 0 && Contains(token.leadingSpan, x)
         && IsWhitespace(token.leading[|token.leading| - 1])
      then token.leading[|token.leading| - 1]
      else EmptyWhitespace()
  }

  /** The indentation of the line that starts at `x`, looked up from node `n`. */
  function IndentationAt(tree: Tree, n: nat, x: int): Trivia
    requires WellFormed(tree) && n < |tree.nodes| && 0 <= x < tree.textLength
  {
    IndentationIn(tree, Ascend(tree, n, x, true), x)
  }

  /** The start of the line a node begins on. */
  function LineStartOf(tree: Tree, n: nat): (x: int)
    requires WellFormed(tree) && n < |tree.nodes|
    ensures 0 <= x < tree.textLength
  {
    tree.lineStart(tree.nodes[n].span.start)
  }

  /** A node's indentation: none without a tree, else the indentation of the line it begins on. */
  function NodeIndentation(tree: Option<Tree>, n: nat): Trivia
    requires tree.Some? ==> WellFormed(tree.value) && n < |tree.value.nodes|
  {
    match tree
    case None => EmptyWhitespace()
    case Some(t) => IndentationAt(t, n, LineStartOf(t, n))
  }

  /** The indentation is always a whitespace trivia, possibly the empty one: never the none trivia. */
  lemma IndentationIsWhitespace(tree: Option<Tree>, n: nat)
    requires tree.Some? ==> WellFormed(tree.value) && n < |tree.value.nodes|
    ensures IsWhitespace(NodeIndentation(tree, n))
    ensures tree.None? ==> NodeIndentation(tree, n) == EmptyWhitespace()
  {
  }

  /**
   * The look at the lines above, one position back at a time from `x`:
   * stops at the first line start whose indentation differs in width from
   * `indentation`, or with the empty second indentation at the start of the
   * text or where no token is found.
   */
  function Scan(tree: Tree, n: nat, indentation: Trivia, x: int): IndentationAnalysis
    requires WellFormed(tree) && n < |tree.nodes| && 0 <= x < tree.textLength
    decreases x
  {
    if x <= 0 then IndentationAnalysis(n, indentation, EmptyWhitespace())
    else
      var y := x - 1;
      var m := Ascend(tree, n, y, false);
      var token := tree.findTokenInsideTrivia(m, y);
      if token.NoToken? then IndentationAnalysis(m, indentation, EmptyWhitespace())
      else
        var indentation2 := IndentationAt(tree, m, tree.lineStart(token.span.start));
        if |indentation.text| != |indentation2.text| then IndentationAnalysis(m, indentation, indentation2)
        else if y == 0 then IndentationAnalysis(m, indentation, EmptyWhitespace())
        else Scan(tree, m, indentation, y)
  }

  function Analysis(tree: Option<Tree>, n: nat): IndentationAnalysis
    requires tree.Some? ==> WellFormed(tree.value) && n < |tree.value.nodes|
  {
    match tree
    case None => IndentationAnalysis(n, EmptyWhitespace(), EmptyWhitespace())
    case Some(t) =>
      var x := LineStartOf(t, n);
      Scan(t, n, IndentationAt(t, n, x), x)
  }

  /** The scan keeps the first indentation; the second is whitespace, and either empty or of another width. */
  lemma {:induction false} ScanDiffers(tree: Tree, n: nat, indentation: Trivia, x: int)
    requires WellFormed(tree) && n < |tree.nodes| && 0 <= x < tree.textLength
    ensures var r := Scan(tree, n, indentation, x);
      r.indentation == indentation && r.node <= n && IsWhitespace(r.indentation2)
      && (r.indentation2 == EmptyWhitespace() || |r.indentation2.text| != |indentation.text|)
    decreases x
  {
    if x > 0 {
      var y := x - 1;
      var m := Ascend(tree, n, y, false);
      var token := tree.findTokenInsideTrivia(m, y);
      if token.FoundToken? && y != 0 {
        var indentation2 := IndentationAt(tree, m, tree.lineStart(token.span.start));
        if |indentation.text| == |indentation2.text| {
          ScanDiffers(tree, m, indentation, y);
        }
      }
    }
  }

  /**
   * The analysis holds the node's own indentation first; the second
   * indentation is the empty sentinel or one of a different width; without
   * a tree both are empty.
   */
  lemma AnalysisShape(tree: Option<Tree>, n: nat)
    requires tree.Some? ==> WellFormed(tree.value) && n < |tree.value.nodes|
    ensures var r := Analysis(tree, n);
      r.indentation == NodeIndentation(tree, n) && IsWhitespace(r.indentation) && IsWhitespace(r.indentation2)
      && (r.indentation2 == EmptyWhitespace() || |r.indentation2.text| != |r.indentation.text|)
    ensures tree.None? ==> Analysis(tree, n) == IndentationAnalysis(n, EmptyWhitespace(), EmptyWhitespace())
  {
    if tree.Some? {
      var t := tree.value;
      var x := LineStartOf(t, n);
      ScanDiffers(t, n, IndentationAt(t, n, x), x);
    }
  }

  /** One step of the scan back from a line start `x` past the start of the text. */
  lemma ScanUnfold(tree: Tree, n: nat, indentation: Trivia, x: int)
    requires WellFormed(tree) && n < |tree.nodes| && 0 < x < tree.textLength
    ensures var m := Ascend(tree, n, x - 1, false);
      var token := tree.findTokenInsideTrivia(m, x - 1);
      && (token.NoToken? ==> Scan(tree, n, indentation, x) == IndentationAnalysis(m, indentation, EmptyWhitespace()))
      && (token.FoundToken? ==>
            var indentation2 := IndentationAt(tree, m, tree.lineStart(token.span.start));
            && 0 <= tree.lineStart(token.span.start) < tree.textLength
            && (|indentation.text| != |indentation2.text| ==> Scan(tree, n, indentation, x) == IndentationAnalysis(m, indentation, indentation2))
            && (|indentation.text| == |indentation2.text| && x == 1 ==> Scan(tree, n, indentation, x) == IndentationAnalysis(m, indentation, EmptyWhitespace()))
            && (|indentation.text| == |indentation2.text| && x != 1 ==> Scan(tree, n, indentation, x) == Scan(tree, m, indentation, x - 1)))
  {
  }

  /** The climb from a node to the first ancestor whose full span contains `x`. */
  method AscendTo(tree: Tree, node: nat, x: int, outOfTrivia: bool) returns (n: nat)
    requires WellFormed(tree) && node < |tree.nodes| && 0 <= x < tree.textLength
    ensures n == Ascend(tree, node, x, outOfTrivia)
  {
    n := node;
    while !Contains(tree.nodes[n].fullSpan, x)
      invariant n < |tree.nodes| && Ascend(tree, n, x, outOfTrivia) == Ascend(tree, node, x, outOfTrivia)
      decreases n
    {
      if outOfTrivia {
        n := tree.nodes[n].parentOutOfTrivia.value;
      } else {
        n := tree.nodes[n].parent.value;
      }
    }
  }

  /** DetermineIndentation at a line start: climbs out of the nodes that do not contain it, then looks at the trivia. */
  method DetermineIndentationAt(tree: Tree, node: nat, lineStartIndex: int) returns (r: Trivia)
    requires WellFormed(tree) && node < |tree.nodes| && 0 <= lineStartIndex < tree.textLength
    ensures r == IndentationAt(tree, node, lineStartIndex)
  {
    var n := AscendTo(tree, node, lineStartIndex, true);
    match tree.nodes[n].kind {
      case DocumentationComment(containing) =>
        if containing.Some? {
          var trivia := containing.value[|containing.value| - 1];
          if trivia.kind == WhitespaceTrivia {
            return trivia;
          }
        }
      case OtherNode =>
        var token := tree.findToken(n, lineStartIndex);
        if token.FoundToken? {
          var leading := token.leading;
          if |leading| > 0 && Contains(token.leadingSpan, lineStartIndex) {
            var trivia := leading[|leading| - 1];
            if trivia.kind == WhitespaceTrivia {
              return trivia;
            }
          }
        }
    }
    return EmptyWhitespace();
  }

  /** DetermineIndentation of a node: the empty whitespace without a tree, else that of the line the node begins on. */
  method DetermineIndentation(tree: Option<Tree>, node: nat) returns (r: Trivia)
    requires tree.Some? ==> WellFormed(tree.value) && node < |tree.value.nodes|
    ensures r == NodeIndentation(tree, node)
  {
    if tree.None? {
      return EmptyWhitespace();
    }
    var t := tree.value;
    var lineStartIndex := t.lineStart(t.nodes[node].span.start);
    r := DetermineIndentationAt(t, node, lineStartIndex);
  }

  /**
   * AnalyzeIndentation: the node's indentation, and the first indentation
   * of another width met walking back through the text before its line.
   */
  method AnalyzeIndentation(tree: Option<Tree>, node: nat) returns (r: IndentationAnalysis)
    requires tree.Some? ==> WellFormed(tree.value) && node < |tree.value.nodes|
    ensures r == Analysis(tree, node)
  {
    if tree.None? {
      return IndentationAnalysis(node, EmptyWhitespace(), EmptyWhitespace());
    }
    var t := tree.value;
    var lineStartIndex := t.lineStart(t.nodes[node].span.start);
    var indentation := DetermineIndentationAt(t, node, lineStartIndex);
    var n: nat := node;
    while lineStartIndex > 0
      invariant n < |t.nodes| && 0 <= lineStartIndex < t.textLength
      invariant Scan(t, n, indentation, lineStartIndex) == Analysis(tree, node)
      decreases lineStartIndex
    {
      ScanUnfold(t, n, indentation, lineStartIndex);
      lineStartIndex := lineStartIndex - 1;
      n := AscendTo(t, n, lineStartIndex, false);
      var token := t.findTokenInsideTrivia(n, lineStartIndex);
      if token.NoToken? {
        break;
      }
      var lineStartIndex2 := t.lineStart(token.span.start);
      var indentation2 := DetermineIndentationAt(t, n, lineStartIndex2);
      if |indentation.text| != |indentation2.text| {
        return IndentationAnalysis(n, indentation, indentation2);
      }
      if lineStartIndex == 0 {
        break;
      }
    }
    return IndentationAnalysis(n, indentation, EmptyWhitespace());
  }
}

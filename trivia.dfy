/**
 * The shape of the trivia around tokens: whitespace, line ends and
 * single-line comments, and the questions the analyzers ask about them
 * (is a token's line broken before it or after it, is a list exactly an
 * optional whitespace and a line end).
 */
module SyntaxTrivia {

  datatype TriviaKind = WhitespaceTrivia | EndOfLineTrivia | SingleLineCommentTrivia | OtherTrivia

  datatype Trivia = Trivia(kind: TriviaKind, text: string)

  /** A token with the trivia in front of it and the trivia after it on its line. */
  datatype Token = Token(leading: seq<Trivia>, trailing: seq<Trivia>)

  /** A node (or an expression), by its first and last token: its exterior trivia is theirs. */
  datatype Node = Node(firstToken: Token, lastToken: Token)

  function Kinds(ts: seq<Trivia>): (ks: seq<TriviaKind>)
    ensures |ks| == |ts| && forall i :: 0 <= i < |ts| ==> ks[i] == ts[i].kind
  {
    seq(|ts|, i requires 0 <= i < |ts| => ts[i].kind)
  }

  predicate IsWhitespace(t: Trivia)
  {
    t.kind == WhitespaceTrivia
  }

  predicate IsEndOfLine(t: Trivia)
  {
    t.kind == EndOfLineTrivia
  }

  /** Every trivia of the list is whitespace or a line end (an empty list included). */
  predicate IsEmptyOrWhitespace(ts: seq<Trivia>)
  {
    forall i :: 0 <= i < |ts| ==> ts[i].kind == WhitespaceTrivia || ts[i].kind == EndOfLineTrivia
  }

  /** The list holds exactly one trivia and it is whitespace (a missing single element is not whitespace). */
  predicate SingleIsWhitespace(ts: seq<Trivia>)
  {
    |ts| == 1 && IsWhitespace(ts[0])
  }

  function LeadingTrivia(n: Node): seq<Trivia>
  {
    n.firstToken.leading
  }

  function TrailingTrivia(n: Node): seq<Trivia>
  {
    n.lastToken.trailing
  }

  predicate IsExteriorTriviaEmptyOrWhitespace(t: Token)
  {
    IsEmptyOrWhitespace(t.leading) && IsEmptyOrWhitespace(t.trailing)
  }

  /**
   * A node's exterior trivia is blank exactly when its first token's leading
   * and its last token's trailing trivia are: the node's own leading and
   * trailing trivia are those of its boundary tokens.
   */
  predicate IsNodeExteriorTriviaEmptyOrWhitespace(n: Node)
  {
    IsEmptyOrWhitespace(LeadingTrivia(n)) && IsEmptyOrWhitespace(TrailingTrivia(n))
  }

  predicate IsEmptyOrSingleWhitespaceTrivia(ts: seq<Trivia>)
  {
    |ts| == 0 || (|ts| == 1 && IsWhitespace(ts[0]))
  }

  /** No trivia or one whitespace is blank; the converse fails, as a lone line end shows. */
  lemma EmptyOrSingleWhitespaceIsBlank(ts: seq<Trivia>)
    ensures IsEmptyOrSingleWhitespaceTrivia(ts) ==> IsEmptyOrWhitespace(ts)
    ensures IsEmptyOrSingleWhitespaceTrivia(ts) <==> ts == [] || SingleIsWhitespace(ts)
    ensures !IsEmptyOrSingleWhitespaceTrivia([Trivia(EndOfLineTrivia, "\n")]) && IsEmptyOrWhitespace([Trivia(EndOfLineTrivia, "\n")])
  {
    var eol := [Trivia(EndOfLineTrivia, "\n")];
    assert eol[0].kind == EndOfLineTrivia;
  }

  /** Where an optional leading whitespace ends: at 1 when the list starts with whitespace, else at 0. */
  function AfterWhitespace(ts: seq<Trivia>): nat
    requires |ts| > 0
  {
    if IsWhitespace(ts[0]) then 1 else 0
  }

  /** An optional whitespace, then a line end, and nothing more. */
  predicate IsOptionalWhitespaceThenEndOfLineTrivia(ts: seq<Trivia>)
  {
    |ts| > 0
    && var k := AfterWhitespace(ts);
    k < |ts| && IsEndOfLine(ts[k]) && k + 1 == |ts|
  }

  /** An optional whitespace, an optional single-line comment, a line end, and nothing more. */
  predicate IsOptionalWhitespaceThenOptionalSingleLineCommentThenEndOfLineTrivia(ts: seq<Trivia>)
  {
    |ts| > 0
    && var k := AfterWhitespace(ts);
    k < |ts|
    && var j := if ts[k].kind == SingleLineCommentTrivia then k + 1 else k;
    j < |ts| && IsEndOfLine(ts[j]) && j + 1 == |ts|
  }

  /** An optional whitespace, then a line end, whatever follows. */
  predicate StartsWithOptionalWhitespaceThenEndOfLineTrivia(ts: seq<Trivia>)
  {
    |ts| > 0
    && var k := AfterWhitespace(ts);
    k < |ts| && IsEndOfLine(ts[k])
  }

  /** The exact shapes: a line end, or a whitespace and a line end. */
  lemma OptionalWhitespaceThenEndOfLineShapes(ts: seq<Trivia>)
    ensures IsOptionalWhitespaceThenEndOfLineTrivia(ts) <==>
      Kinds(ts) == [EndOfLineTrivia] || Kinds(ts) == [WhitespaceTrivia, EndOfLineTrivia]
  {
    var ks := Kinds(ts);
    if IsOptionalWhitespaceThenEndOfLineTrivia(ts) {
      if IsWhitespace(ts[0]) {
        assert ks == [WhitespaceTrivia, EndOfLineTrivia];
      } else {
        assert ks == [EndOfLineTrivia];
      }
    }
    if ks == [EndOfLineTrivia] {
      assert ts[0].kind == ks[0];
    }
    if ks == [WhitespaceTrivia, EndOfLineTrivia] {
      assert ts[0].kind == ks[0] && ts[1].kind == ks[1];
    }
  }

  /** The exact shapes with a comment: `[EOL]`, `[WS, EOL]`, `[C, EOL]`, `[WS, C, EOL]`. */
  lemma OptionalCommentShapes(ts: seq<Trivia>)
    ensures IsOptionalWhitespaceThenOptionalSingleLineCommentThenEndOfLineTrivia(ts) <==>
      || Kinds(ts) == [EndOfLineTrivia]
      || Kinds(ts) == [WhitespaceTrivia, EndOfLineTrivia]
      || Kinds(ts) == [SingleLineCommentTrivia, EndOfLineTrivia]
      || Kinds(ts) == [WhitespaceTrivia, SingleLineCommentTrivia, EndOfLineTrivia]
  {
    var ks := Kinds(ts);
    if IsOptionalWhitespaceThenOptionalSingleLineCommentThenEndOfLineTrivia(ts) {
      var k := AfterWhitespace(ts);
      var j := if ts[k].kind == SingleLineCommentTrivia then k + 1 else k;
      assert |ks| == j + 1;
      if k == 1 && j == 2 {
        assert ks == [WhitespaceTrivia, SingleLineCommentTrivia, EndOfLineTrivia];
      } else if k == 1 {
        assert ks == [WhitespaceTrivia, EndOfLineTrivia];
      } else if j == 1 {
        assert ks == [SingleLineCommentTrivia, EndOfLineTrivia];
      } else {
        assert ks == [EndOfLineTrivia];
      }
    }
    if ks == [EndOfLineTrivia] {
      assert ts[0].kind == ks[0];
    }
    if ks == [WhitespaceTrivia, EndOfLineTrivia] || ks == [SingleLineCommentTrivia, EndOfLineTrivia] {
      assert ts[0].kind == ks[0] && ts[1].kind == ks[1];
    }
    if ks == [WhitespaceTrivia, SingleLineCommentTrivia, EndOfLineTrivia] {
      assert ts[0].kind == ks[0] && ts[1].kind == ks[1] && ts[2].kind == ks[2];
    }
  }

  /** The empty list and a lone whitespace are rejected by all three shape tests. */
  lemma BlankShapesRejected(w: Trivia)
    requires IsWhitespace(w)
    ensures !IsOptionalWhitespaceThenEndOfLineTrivia([]) && !IsOptionalWhitespaceThenEndOfLineTrivia([w])
    ensures !IsOptionalWhitespaceThenOptionalSingleLineCommentThenEndOfLineTrivia([])
    ensures !IsOptionalWhitespaceThenOptionalSingleLineCommentThenEndOfLineTrivia([w])
    ensures !StartsWithOptionalWhitespaceThenEndOfLineTrivia([]) && !StartsWithOptionalWhitespaceThenEndOfLineTrivia([w])
  {
  }

  /** The exact shape is a special case of the shape with a comment. */
  lemma WithoutCommentIsWithOptionalComment(ts: seq<Trivia>)
    ensures IsOptionalWhitespaceThenEndOfLineTrivia(ts) ==>
      IsOptionalWhitespaceThenOptionalSingleLineCommentThenEndOfLineTrivia(ts)
  {
  }

  /** A list starts with the shape exactly when some non-empty prefix of it has the exact shape. */
  lemma StartsWithIffShapedPrefix(ts: seq<Trivia>)
    ensures StartsWithOptionalWhitespaceThenEndOfLineTrivia(ts) <==>
      exists k :: 0 < k <= |ts| && IsOptionalWhitespaceThenEndOfLineTrivia(ts[..k])
    ensures IsOptionalWhitespaceThenEndOfLineTrivia(ts) ==> StartsWithOptionalWhitespaceThenEndOfLineTrivia(ts)
  {
    if StartsWithOptionalWhitespaceThenEndOfLineTrivia(ts) {
      var k := AfterWhitespace(ts);
      var p := ts[..k + 1];
      assert p[0] == ts[0] && p[k] == ts[k];
      assert IsOptionalWhitespaceThenEndOfLineTrivia(p);
    }
    if exists k :: 0 < k <= |ts| && IsOptionalWhitespaceThenEndOfLineTrivia(ts[..k]) {
      var k :| 0 < k <= |ts| && IsOptionalWhitespaceThenEndOfLineTrivia(ts[..k]);
      var p := ts[..k];
      assert p[0] == ts[0];
      assert p[AfterWhitespace(p)] == ts[AfterWhitespace(p)];
    }
    if IsOptionalWhitespaceThenEndOfLineTrivia(ts) {
      assert ts[..|ts|] == ts;
    }
  }

  /**
   * The operator token starts its line: the left operand's trailing trivia
   * ends the line, the token has only blank trivia before it and one
   * whitespace after it, and the right operand has no leading trivia.
   */
  predicate IsTokenPrecededWithNewLineAndNotFollowedWithNewLine(left: Node, token: Token, right: Node)
  {
    IsOptionalWhitespaceThenEndOfLineTrivia(TrailingTrivia(left))
    && IsEmptyOrWhitespace(token.leading)
    && SingleIsWhitespace(token.trailing)
    && |LeadingTrivia(right)| == 0
  }

  /**
   * The operator token ends its line: the left operand ends with one
   * whitespace, the token has no leading trivia and its trailing trivia ends
   * the line, and the right operand has only blank trivia before it.
   */
  predicate IsTokenFollowedWithNewLineAndNotPrecededWithNewLine(left: Node, token: Token, right: Node)
  {
    SingleIsWhitespace(TrailingTrivia(left))
    && |token.leading| == 0
    && IsOptionalWhitespaceThenEndOfLineTrivia(token.trailing)
    && IsEmptyOrWhitespace(LeadingTrivia(right))
  }

  /** A token cannot both start and end its line in these two senses. */
  lemma PrecededAndFollowedExclusive(left: Node, token: Token, right: Node)
    ensures !(IsTokenPrecededWithNewLineAndNotFollowedWithNewLine(left, token, right)
              && IsTokenFollowedWithNewLineAndNotPrecededWithNewLine(left, token, right))
  {
  }

  /** Either way the token's own exterior trivia is blank, and exactly one side of it breaks the line. */
  lemma LineBreakSides(left: Node, token: Token, right: Node)
    ensures IsTokenPrecededWithNewLineAndNotFollowedWithNewLine(left, token, right) ==>
      IsExteriorTriviaEmptyOrWhitespace(token)
      && StartsWithOptionalWhitespaceThenEndOfLineTrivia(TrailingTrivia(left))
      && !StartsWithOptionalWhitespaceThenEndOfLineTrivia(token.trailing)
    ensures IsTokenFollowedWithNewLineAndNotPrecededWithNewLine(left, token, right) ==>
      IsExteriorTriviaEmptyOrWhitespace(token)
      && StartsWithOptionalWhitespaceThenEndOfLineTrivia(token.trailing)
      && !StartsWithOptionalWhitespaceThenEndOfLineTrivia(TrailingTrivia(left))
  {
    if IsTokenPrecededWithNewLineAndNotFollowedWithNewLine(left, token, right) {
      StartsWithIffShapedPrefix(TrailingTrivia(left));
      var t := token.trailing;
      assert IsEmptyOrWhitespace(t);
    }
    if IsTokenFollowedWithNewLineAndNotPrecededWithNewLine(left, token, right) {
      StartsWithIffShapedPrefix(token.trailing);
      var t := token.trailing;
      var k := AfterWhitespace(t);
      forall i | 0 <= i < |t|
        ensures t[i].kind == WhitespaceTrivia || t[i].kind == EndOfLineTrivia
      {
        if i < k {
          assert IsWhitespace(t[0]);
        }
      }
    }
  }
}

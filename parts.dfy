/**
 * Display parts: the tagged text segments a symbol is rendered into, and the
 * four-counter depth scan that every structural edit of a rendering reuses.
 */
module DisplayParts {

  /** The kinds of display part the rewriters distinguish. */
  datatype PartKind =
    | Punctuation | Space | LineBreak | Indentation | Keyword
    | ClassName | InterfaceName | PropertyName | TypeParameterName
    | NumericLiteral | StringLiteral | OtherKind

  datatype Part = Part(kind: PartKind, text: string)

  /** The kind of the symbol being rendered; it decides which bracket opens a parameter list. */
  datatype SymbolKind = Method | NamedType | Property | OtherSymbol

  // Part factories. Only the kind of a space, line break or indentation part
  // matters to the scans; the texts are fixed here.
  function SpacePart(): Part { Part(Space, " ") }
  function LineBreakPart(): Part { Part(LineBreak, "\n") }
  function IndentationPart(indentChars: string): Part { Part(Indentation, indentChars) }
  function Punct(c: char): Part { Part(Punctuation, [c]) }
  function KeywordPart(text: string): Part { Part(Keyword, text) }

  /**
   * The character of a one-character punctuation part, and NUL for every other
   * part: comparing a punctuation part's text with "(" is comparing this with '('.
   */
  function Glyph(p: Part): (c: char)
    ensures c != '\0' ==> p.kind == Punctuation && p.text == [c]
    ensures p.kind == Punctuation && |p.text| == 1 && p.text[0] != '\0' ==> c == p.text[0]
  {
    if p.kind == Punctuation && |p.text| == 1 then p.text[0] else '\0'
  }

  /** `p` is the punctuation part whose text is the single character `c`. */
  predicate IsPunct(p: Part, c: char) { c != '\0' && Glyph(p) == c }

  predicate IsKeyword(p: Part, text: string) { p.kind == Keyword && p.text == text }

  /** Nesting depths of parentheses, braces, brackets and angle brackets. */
  datatype Depths = Depths(paren: int, braces: int, brackets: int, angle: int)

  const Zero := Depths(0, 0, 0, 0)

  /** One step of the scan: only a punctuation part with one of the eight bracket texts moves a counter. */
  function Step(d: Depths, p: Part): (r: Depths)
    ensures p.kind != Punctuation ==> r == d
  {
    match Glyph(p)
    case '(' => d.(paren := d.paren + 1)
    case ')' => d.(paren := d.paren - 1)
    case '[' => d.(brackets := d.brackets + 1)
    case ']' => d.(brackets := d.brackets - 1)
    case '{' => d.(braces := d.braces + 1)
    case '}' => d.(braces := d.braces - 1)
    case '<' => d.(angle := d.angle + 1)
    case '>' => d.(angle := d.angle - 1)
    case _ => d
  }

  /** The counters after scanning all of `s`, starting from `d`. */
  function After(d: Depths, s: seq<Part>): Depths
    decreases |s|
  {
    if s == [] then d else Step(After(d, s[..|s| - 1]), s[|s| - 1])
  }

  function Plus(a: Depths, b: Depths): Depths
  {
    Depths(a.paren + b.paren, a.braces + b.braces, a.brackets + b.brackets, a.angle + b.angle)
  }

  /** The scan only adds: the counters after `s` are the start plus what `s` alone contributes. */
  lemma {:induction false} AfterIsShift(d: Depths, s: seq<Part>)
    ensures After(d, s) == Plus(d, After(Zero, s))
    decreases |s|
  {
    if s != [] {
      AfterIsShift(d, s[..|s| - 1]);
    }
  }

  /** Scanning a concatenation is scanning its halves one after the other. */
  lemma {:induction false} AfterConcat(d: Depths, a: seq<Part>, b: seq<Part>)
    ensures After(d, a + b) == After(After(d, a), b)
    decreases |b|
  {
    if b == [] {
      assert a + b == a;
    } else {
      assert (a + b)[..|a + b| - 1] == a + b[..|b| - 1];
      AfterConcat(d, a, b[..|b| - 1]);
    }
  }

  /** Scanning one more part. */
  lemma AfterSnoc(d: Depths, s: seq<Part>, p: Part)
    ensures After(d, s + [p]) == Step(After(d, s), p)
  {
    assert (s + [p])[..|s + [p]| - 1] == s;
  }

  /** Scanning the single part at `k`. */
  lemma AfterOne(d: Depths, s: seq<Part>, k: nat)
    requires k < |s|
    ensures After(d, s[k..k + 1]) == Step(d, s[k])
  {
    AfterSnoc(d, [], s[k]);
    assert [] + [s[k]] == s[k..k + 1];
  }

  /** A `, ` moves no counter. */
  lemma SkipCommaSpace(d: Depths, s: seq<Part>, k: nat, c: nat)
    requires k + 2 <= c <= |s| && IsPunct(s[k], ',') && s[k + 1].kind == Space
    ensures After(d, s[k..c]) == After(d, s[k + 2..c])
  {
    assert Step(d, s[k]) == d;
    AfterFront(d, s, k, c);
    AfterFront(d, s, k + 1, c);
  }

  /** Scanning `s[k..c]` is scanning `s[k]` and then the rest. */
  lemma AfterFront(d: Depths, s: seq<Part>, k: nat, c: nat)
    requires k < c <= |s|
    ensures After(d, s[k..c]) == After(Step(d, s[k]), s[k + 1..c])
  {
    AfterOne(d, s, k);
    AfterConcat(d, s[k..k + 1], s[k + 1..c]);
    assert s[k..c] == s[k..k + 1] + s[k + 1..c];
  }

  /** Appends `s[from..to]` to `b` one part at a time. */
  method AppendRange(b: seq<Part>, s: seq<Part>, from: nat, to: nat) returns (r: seq<Part>)
    requires from <= to <= |s|
    ensures r == b + s[from..to]
  {
    r := b;
    var j := from;
    while j < to
      invariant from <= j <= to
      invariant r == b + s[from..j]
    {
      r := r + [s[j]];
      j := j + 1;
      assert s[from..j] == s[from..j - 1] + [s[j - 1]];
    }
  }

  /** A rendering whose brackets of every kind are balanced. */
  predicate Balanced(s: seq<Part>) { After(Zero, s) == Zero }

  lemma BalancedConcat(a: seq<Part>, b: seq<Part>)
    requires Balanced(a) && Balanced(b)
    ensures Balanced(a + b)
  {
    AfterConcat(Zero, a, b);
  }

  /** The builder a rendering is assembled in: a list updated in place. */
  class PartBuilder {
    var items: seq<Part>

    constructor (initial: seq<Part>)
      ensures items == initial
    {
      items := initial;
    }

    method Add(p: Part)
      modifies this
      ensures items == old(items) + [p]
    {
      items := items + [p];
    }

    method AddRange(ps: seq<Part>)
      modifies this
      ensures items == old(items) + ps
    {
      items := items + ps;
    }

    method Insert(index: nat, p: Part)
      requires index <= |items|
      modifies this
      ensures items == old(items)[..index] + [p] + old(items)[index..]
    {
      items := items[..index] + [p] + items[index..];
    }

    method Set(index: nat, p: Part)
      requires index < |items|
      modifies this
      ensures items == old(items)[index := p]
    {
      items := items[index := p];
    }
  }
}

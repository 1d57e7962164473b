/**
 * Multi-line parameter layout: after the parameter-list opener and after each
 * top-level `, ` the rendering is broken onto a new, indented line.
 */
module ParameterFormatting {
  import opened DisplayParts
  import opened ParameterList

  /**
   * What the scan makes of `s[k..]`, arriving at `k` with counters `d`: the
   * space after a top-level comma becomes a line break followed by an
   * indentation; the part that closes the list and everything after it are kept.
   */
  function Reflow(kind: SymbolKind, s: seq<Part>, k: nat, d: Depths, indent: string): seq<Part>
    requires k <= |s|
    decreases |s| - k
  {
    if k == |s| then []
    else if IsBreakPoint(s, k, d) then
      [s[k], LineBreakPart(), IndentationPart(indent)] + Reflow(kind, s, k + 2, d, indent)
    else if Closes(kind, Step(d, s[k]), s[k]) then s[k..]
    else [s[k]] + Reflow(kind, s, k + 1, Step(d, s[k]), indent)
  }

  /** The builder once a line break and an indentation follow the opener at `index`. */
  function OpenerBroken(parts: seq<Part>, index: nat, indent: string): (s: seq<Part>)
    requires index < |parts|
    ensures |s| == |parts| + 2
  {
    parts[..index + 1] + [LineBreakPart(), IndentationPart(indent)] + parts[index + 1..]
  }

  /**
   * The builder after FormatParameters. The scan starts at position 1 of the
   * builder (not at the opener) with all four counters at 0.
   */
  function Formatted(kind: SymbolKind, parts: seq<Part>, indent: string): seq<Part>
  {
    var index := ListStart(kind, parts);
    if index == -1 then parts
    else
      var s := OpenerBroken(parts, index, indent);
      s[..1] + Reflow(kind, s, 1, Zero, indent)
  }

  /** How one part reads in the whitespace-insensitive view. */
  function RelaxPart(p: Part): seq<Part>
  {
    if p.kind == Space || p.kind == LineBreak then [SpacePart()]
    else if p.kind == Indentation then []
    else [p]
  }

  /** Whitespace-insensitive view: spaces and line breaks read as one space, indentation is dropped. */
  function Relax(xs: seq<Part>): seq<Part>
    decreases |xs|
  {
    if xs == [] then [] else RelaxPart(xs[0]) + Relax(xs[1..])
  }

  lemma {:induction false} RelaxConcat(a: seq<Part>, b: seq<Part>)
    ensures Relax(a + b) == Relax(a) + Relax(b)
    decreases |a|
  {
    if a != [] {
      assert (a + b)[1..] == a[1..] + b;
      RelaxConcat(a[1..], b);
    } else {
      assert a + b == b;
    }
  }

  /** A line break followed by an indentation reads as a single space. */
  lemma BreakRelaxesToSpace(indent: string)
    ensures Relax([LineBreakPart(), IndentationPart(indent)]) == [SpacePart()]
  {
    var ind := IndentationPart(indent);
    assert [ind][1..] == [];
    assert RelaxPart(ind) == [];
    assert Relax([ind]) == RelaxPart(ind) + Relax([]);
    assert [LineBreakPart(), ind][1..] == [ind];
    assert RelaxPart(LineBreakPart()) == [SpacePart()];
  }

  /** Reflowing changes nothing but whitespace: only a space turns into a line break plus indentation. */
  lemma {:induction false} ReflowOnlyBreaksSpaces(kind: SymbolKind, s: seq<Part>, k: nat, d: Depths, indent: string)
    requires k <= |s|
    ensures Relax(Reflow(kind, s, k, d, indent)) == Relax(s[k..])
    decreases |s| - k, 1
  {
    if k == |s| {
    } else if IsBreakPoint(s, k, d) {
      BreakOnlyBreaksSpace(kind, s, k, d, indent);
    } else if Closes(kind, Step(d, s[k]), s[k]) {
    } else {
      PassOnlyBreaksSpaces(kind, s, k, d, indent);
    }
  }

  lemma {:induction false} BreakOnlyBreaksSpace(kind: SymbolKind, s: seq<Part>, k: nat, d: Depths, indent: string)
    requires k < |s| && IsBreakPoint(s, k, d)
    ensures Relax(Reflow(kind, s, k, d, indent)) == Relax(s[k..])
    decreases |s| - k, 0
  {
    ReflowOnlyBreaksSpaces(kind, s, k + 2, d, indent);
    ReflowBreak(kind, s, k, d, indent);
    var tail := Reflow(kind, s, k + 2, d, indent);
    assert s[k..] == [s[k], s[k + 1]] + s[k + 2..];
    RelaxConcat([s[k], LineBreakPart(), IndentationPart(indent)], tail);
    RelaxConcat([s[k], s[k + 1]], s[k + 2..]);
    BreakRelaxesToSpace(indent);
    assert [s[k], LineBreakPart(), IndentationPart(indent)][1..] == [LineBreakPart(), IndentationPart(indent)];
    assert [s[k], s[k + 1]][1..] == [s[k + 1]];
    assert Relax([s[k + 1]]) == [SpacePart()] by {
      assert [s[k + 1]][1..] == [];
    }
  }

  lemma {:induction false} PassOnlyBreaksSpaces(kind: SymbolKind, s: seq<Part>, k: nat, d: Depths, indent: string)
    requires k < |s| && !IsBreakPoint(s, k, d) && !Closes(kind, Step(d, s[k]), s[k])
    ensures Relax(Reflow(kind, s, k, d, indent)) == Relax(s[k..])
    decreases |s| - k, 0
  {
    ReflowOnlyBreaksSpaces(kind, s, k + 1, Step(d, s[k]), indent);
    ReflowPass(kind, s, k, d, indent);
    assert s[k..] == [s[k]] + s[k + 1..];
    RelaxConcat([s[k]], Reflow(kind, s, k + 1, Step(d, s[k]), indent));
    RelaxConcat([s[k]], s[k + 1..]);
  }

  /** Where the scan of `s[k..]` meets the part that closes the list, or -1 when it runs to the end. */
  function CloseIndex(kind: SymbolKind, s: seq<Part>, k: nat, d: Depths): (c: int)
    requires k <= |s|
    ensures c == -1 || (k <= c < |s| && (IsPunct(s[c], ')') || IsPunct(s[c], ']')))
    decreases |s| - k
  {
    if k == |s| then -1
    else if IsBreakPoint(s, k, d) then
      CloseIndex(kind, s, k + 2, d)
    else if Closes(kind, Step(d, s[k]), s[k]) then k
    else CloseIndex(kind, s, k + 1, Step(d, s[k]))
  }

  /** `r` ends with `tail`. */
  predicate EndsWith(r: seq<Part>, tail: seq<Part>)
  {
    |tail| <= |r| && r[|r| - |tail|..] == tail
  }

  /** Whatever ends with `tail` still does with something put in front. */
  lemma EndsWithConcat(pre: seq<Part>, r: seq<Part>, tail: seq<Part>)
    requires EndsWith(r, tail)
    ensures EndsWith(pre + r, tail)
  {
    assert (pre + r)[|pre + r| - |tail|..] == r[|r| - |tail|..];
  }

  /** Nothing from the closing `)` or `]` on is touched: the reflowed text ends with it unchanged. */
  lemma {:induction false} ReflowKeepsTail(kind: SymbolKind, s: seq<Part>, k: nat, d: Depths, indent: string, c: nat)
    requires k <= |s|
    requires c == CloseIndex(kind, s, k, d)
    ensures EndsWith(Reflow(kind, s, k, d, indent), s[c..])
    decreases |s| - k
  {
    assert k < |s|;
    if IsBreakPoint(s, k, d) {
      KeepsTailBreak(kind, s, k, d, indent, c);
    } else if Closes(kind, Step(d, s[k]), s[k]) {
      CommaCloses(kind, Step(d, s[k]), s[k]);
      ReflowStop(kind, s, k, d, indent);
    } else {
      KeepsTailPass(kind, s, k, d, indent, c);
    }
  }

  lemma {:induction false} KeepsTailBreak(kind: SymbolKind, s: seq<Part>, k: nat, d: Depths, indent: string, c: nat)
    requires k <= |s| && IsBreakPoint(s, k, d)
    requires c == CloseIndex(kind, s, k, d)
    ensures EndsWith(Reflow(kind, s, k, d, indent), s[c..])
    decreases |s| - k, 0
  {
    assert CloseIndex(kind, s, k + 2, d) == c;
    ReflowBreak(kind, s, k, d, indent);
    ReflowKeepsTail(kind, s, k + 2, d, indent, c);
    EndsWithConcat([s[k], LineBreakPart(), IndentationPart(indent)], Reflow(kind, s, k + 2, d, indent), s[c..]);
  }

  lemma {:induction false} KeepsTailPass(kind: SymbolKind, s: seq<Part>, k: nat, d: Depths, indent: string, c: nat)
    requires k < |s| && !IsBreakPoint(s, k, d) && !Closes(kind, Step(d, s[k]), s[k])
    requires c == CloseIndex(kind, s, k, d)
    ensures EndsWith(Reflow(kind, s, k, d, indent), s[c..])
    decreases |s| - k, 0
  {
    assert CloseIndex(kind, s, k + 1, Step(d, s[k])) == c;
    ReflowPass(kind, s, k, d, indent);
    ReflowKeepsTail(kind, s, k + 1, Step(d, s[k]), indent, c);
    EndsWithConcat([s[k]], Reflow(kind, s, k + 1, Step(d, s[k]), indent), s[c..]);
  }

  /**
   * Whole-call view: with no list start the builder is untouched; otherwise,
   * whitespace aside, the result is the input with one break after the opener.
   */
  lemma FormattedOnlyBreaksLines(kind: SymbolKind, parts: seq<Part>, indent: string)
    ensures ListStart(kind, parts) == -1 ==> Formatted(kind, parts, indent) == parts
    ensures var index := ListStart(kind, parts);
      index != -1 ==>
        Relax(Formatted(kind, parts, indent)) == Relax(parts[..index + 1]) + [SpacePart()] + Relax(parts[index + 1..])
  {
    var index := ListStart(kind, parts);
    if index != -1 {
      var s := OpenerBroken(parts, index, indent);
      ReflowOnlyBreaksSpaces(kind, s, 1, Zero, indent);
      assert s == s[..1] + s[1..];
      RelaxConcat(s[..1], s[1..]);
      RelaxConcat(s[..1], Reflow(kind, s, 1, Zero, indent));
      RelaxConcat(parts[..index + 1] + [LineBreakPart(), IndentationPart(indent)], parts[index + 1..]);
      RelaxConcat(parts[..index + 1], [LineBreakPart(), IndentationPart(indent)]);
      BreakRelaxesToSpace(indent);
    }
  }

  /** A comma moves no counter and closes nothing. */
  lemma CommaIsNeutral(kind: SymbolKind, d: Depths, p: Part)
    requires IsPunct(p, ',')
    ensures Step(d, p) == d && !Closes(kind, d, p)
  {
  }

  /** A part that closes the list is a bracket, not a comma. */
  lemma CommaCloses(kind: SymbolKind, d: Depths, p: Part)
    requires Closes(kind, d, p)
    ensures !IsPunct(p, ',')
  {
  }

  /** A break point: the comma is kept, the space after it becomes a line break and an indentation. */
  lemma ReflowBreak(kind: SymbolKind, s: seq<Part>, j: nat, d: Depths, indent: string)
    requires IsBreakPoint(s, j, d)
    ensures Reflow(kind, s, j, d, indent) == [s[j], LineBreakPart(), IndentationPart(indent)] + Reflow(kind, s, j + 2, d, indent)
  {
  }

  /** Any other part that does not close the list is kept, and the scan moves on. */
  lemma ReflowPass(kind: SymbolKind, s: seq<Part>, j: nat, d: Depths, indent: string)
    requires j < |s|
    requires !IsBreakPoint(s, j, d)
    requires !Closes(kind, Step(d, s[j]), s[j])
    ensures Reflow(kind, s, j, d, indent) == [s[j]] + Reflow(kind, s, j + 1, Step(d, s[j]), indent)
  {
  }

  /** The part that closes the list is kept with everything after it. */
  lemma ReflowStop(kind: SymbolKind, s: seq<Part>, j: nat, d: Depths, indent: string)
    requires j < |s| && !IsPunct(s[j], ',') && Closes(kind, Step(d, s[j]), s[j])
    ensures Reflow(kind, s, j, d, indent) == s[j..]
  {
  }

  /** The scan's invariant after a break point has been passed. */
  lemma AdvanceBreak(kind: SymbolKind, s: seq<Part>, j: nat, d: Depths, indent: string, done: seq<Part>, target: seq<Part>)
    requires IsBreakPoint(s, j, d)
    requires done + [] + Reflow(kind, s, j, d, indent) == target
    ensures (done + [s[j]]) + [LineBreakPart(), IndentationPart(indent)] + Reflow(kind, s, j + 2, d, indent) == target
  {
    ReflowBreak(kind, s, j, d, indent);
  }

  /** The scan's invariant after an original part has been passed. */
  lemma AdvancePass(kind: SymbolKind, s: seq<Part>, j: nat, d: Depths, indent: string, done: seq<Part>, target: seq<Part>)
    requires j < |s|
    requires !IsBreakPoint(s, j, d)
    requires !Closes(kind, Step(d, s[j]), s[j])
    requires done + [] + Reflow(kind, s, j, d, indent) == target
    ensures (done + [s[j]]) + [] + Reflow(kind, s, j + 1, Step(d, s[j]), indent) == target
  {
    ReflowPass(kind, s, j, d, indent);
  }

  /** The scan's invariant after an inserted part has been passed. */
  lemma AdvancePending(done: seq<Part>, pending: seq<Part>, r: seq<Part>, target: seq<Part>)
    requires pending != [] && done + pending + r == target
    ensures (done + [pending[0]]) + pending[1..] + r == target
  {
    assert pending == [pending[0]] + pending[1..];
  }

  /** The builder is unchanged by a scan step that passes one part. */
  lemma AdvanceItems(done: seq<Part>, pending: seq<Part>, s: seq<Part>, j: nat)
    requires j <= |s| && (pending != [] || j < |s|)
    ensures pending != [] ==> done + pending + s[j..] == (done + [pending[0]]) + pending[1..] + s[j..]
    ensures pending == [] ==> done + pending + s[j..] == (done + [s[j]]) + [] + s[j + 1..]
  {
    if pending != [] {
      assert pending == [pending[0]] + pending[1..];
    } else {
      assert s[j..] == [s[j]] + s[j + 1..];
    }
  }

  /** The builder's shape after the space following a comma is replaced and an indentation inserted. */
  lemma BreakShape(done: seq<Part>, rest: seq<Part>, items: seq<Part>, mid: seq<Part>, after: seq<Part>, indent: string)
    requires |rest| >= 2 && items == done + rest
    requires mid == items[|done| + 1 := LineBreakPart()]
    requires after == mid[..|done| + 2] + [IndentationPart(indent)] + mid[|done| + 2..]
    ensures after == (done + [rest[0]]) + [LineBreakPart(), IndentationPart(indent)] + rest[2..]
  {
  }

  /**
   * The scan's invariant: the builder is `done + pending + s[j..]`, where `done`
   * has been scanned, `pending` are parts inserted after a comma that the scan
   * has yet to pass, and `s[j..]` is still as the opener's break left it; and
   * scanning the rest yields `target`.
   */
  ghost predicate Scanning(kind: SymbolKind, s: seq<Part>, target: seq<Part>, indent: string,
                           items: seq<Part>, i: nat, d: Depths, done: seq<Part>, pending: seq<Part>, j: nat)
  {
    && j <= |s| && |done| == i
    && (pending == [] || pending == [IndentationPart(indent)] || pending == [LineBreakPart(), IndentationPart(indent)])
    && items == done + pending + s[j..]
    && done + pending + Reflow(kind, s, j, d, indent) == target
  }

  /**
   * One pass of FormatParameters' loop over `builder[i]`: a top-level comma
   * followed by a space turns the space into a line break and inserts an
   * indentation; a bracket moves its counter; the part closing the list ends
   * the scan (`closed`).
   */
  method ScanPart(kind: SymbolKind, builder: PartBuilder, indentChars: string, i: nat, d: Depths,
                  ghost s: seq<Part>, ghost target: seq<Part>, ghost done: seq<Part>, ghost pending: seq<Part>, ghost j: nat)
    returns (closed: bool, d': Depths, ghost done': seq<Part>, ghost pending': seq<Part>, ghost j': nat)
    requires i < |builder.items|
    requires Scanning(kind, s, target, indentChars, builder.items, i, d, done, pending, j)
    modifies builder
    ensures closed ==> builder.items == target
    ensures !closed ==> Scanning(kind, s, target, indentChars, builder.items, i + 1, d', done', pending', j')
    ensures !closed ==> 3 * (|s| - j') + |pending'| < 3 * (|s| - j) + |pending|
  {
    var part := builder.items[i];
    AdvanceItems(done, pending, s, j);
    d', done', pending', j' := d, done, pending, j;
    closed := false;
    if Glyph(part) == ',' {
      if TopLevel(d) && i < |builder.items| - 1 && builder.items[i + 1].kind == Space {
        ghost var items := builder.items;
        builder.Set(i + 1, LineBreakPart());
        ghost var mid := builder.items;
        builder.Insert(i + 2, IndentationPart(indentChars));
        BreakShape(done, s[j..], items, mid, builder.items, indentChars);
        AdvanceBreak(kind, s, j, d, indentChars, done, target);
        assert s[j..][2..] == s[j + 2..];
        done', pending', j' := done + [s[j]], [LineBreakPart(), IndentationPart(indentChars)], j + 2;
      } else {
        CommaIsNeutral(kind, d, part);
        AdvancePass(kind, s, j, d, indentChars, done, target);
        done', j' := done + [s[j]], j + 1;
      }
    } else {
      d' := Step(d, part);
      if Closes(kind, d', part) {
        ReflowStop(kind, s, j, d, indentChars);
        closed := true;
      } else if pending != [] {
        AdvancePending(done, pending, Reflow(kind, s, j, d, indentChars), target);
        done', pending' := done + [pending[0]], pending[1..];
      } else {
        AdvancePass(kind, s, j, d, indentChars, done, target);
        done', j' := done + [s[j]], j + 1;
      }
    }
  }

  /**
   * FormatParameters: rewrites the builder in place. It inserts a line break and
   * an indentation after the opener, then turns the space after each top-level
   * comma into a line break and inserts an indentation after it, stopping at
   * the part that closes the list.
   */
  method FormatParameters(kind: SymbolKind, builder: PartBuilder, indentChars: string)
    modifies builder
    ensures builder.items == Formatted(kind, old(builder.items), indentChars)
    ensures ListStart(kind, old(builder.items)) == -1 ==> builder.items == old(builder.items)
  {
    var d := Zero;
    var i := 0;
    var index := FindParameterListStart(kind, builder.items);
    if index == -1 {
      return;
    }
    ghost var parts := builder.items;
    builder.Insert(index + 1, IndentationPart(indentChars));
    builder.Insert(index + 1, LineBreakPart());
    ghost var s := builder.items;
    assert s == OpenerBroken(parts, index, indentChars);
    ghost var target := s[..1] + Reflow(kind, s, 1, Zero, indentChars);
    i := i + 1;
    ghost var done := s[..1];
    ghost var pending: seq<Part> := [];
    ghost var j := 1;
    assert builder.items == done + pending + s[j..];
    while i < |builder.items|
      invariant Scanning(kind, s, target, indentChars, builder.items, i, d, done, pending, j)
      decreases 3 * (|s| - j) + |pending|
    {
      var closed;
      closed, d, done, pending, j := ScanPart(kind, builder, indentChars, i, d, s, target, done, pending, j);
      if closed {
        return;
      }
      i := i + 1;
    }
  }

  // The scan above starts at position 1 of the builder, not at the opener. When
  // attributes are already in front of the declaration, their brackets are
  // counted too (the leading `[` is skipped, its `]` is not), and no comma of the
  // parameter list is top-level any more.

  /** Corrected layout: the scan starts at the opener itself, with all counters at 0. */
  function FormattedFromOpener(kind: SymbolKind, parts: seq<Part>, indent: string): seq<Part>
  {
    var index := ListStart(kind, parts);
    if index == -1 then parts
    else
      var s := OpenerBroken(parts, index, indent);
      s[..index] + Reflow(kind, s, index, Zero, indent)
  }

  /** FormatParameters with the scan started at the opener, as the corrected layout has it. */
  method FormatParametersFromOpener(kind: SymbolKind, builder: PartBuilder, indentChars: string)
    modifies builder
    ensures builder.items == FormattedFromOpener(kind, old(builder.items), indentChars)
  {
    var d := Zero;
    var index := FindParameterListStart(kind, builder.items);
    if index == -1 {
      return;
    }
    ghost var parts := builder.items;
    builder.Insert(index + 1, IndentationPart(indentChars));
    builder.Insert(index + 1, LineBreakPart());
    ghost var s := builder.items;
    assert s == OpenerBroken(parts, index, indentChars);
    ghost var target := s[..index] + Reflow(kind, s, index, Zero, indentChars);
    var i := index;
    ghost var done := s[..index];
    ghost var pending: seq<Part> := [];
    ghost var j := index;
    assert builder.items == done + pending + s[j..];
    while i < |builder.items|
      invariant Scanning(kind, s, target, indentChars, builder.items, i, d, done, pending, j)
      decreases 3 * (|s| - j) + |pending|
    {
      var closed;
      closed, d, done, pending, j := ScanPart(kind, builder, indentChars, i, d, s, target, done, pending, j);
      if closed {
        return;
      }
      i := i + 1;
    }
  }

  /** One attribute, `[A]`, on its own line. */
  function AttributeLine(): seq<Part>
  {
    [Punct('['), Part(ClassName, "A"), Punct(']'), LineBreakPart()]
  }

  /** `M(a, b)`. */
  function TwoParameters(): seq<Part>
  {
    [Part(OtherKind, "M"), Punct('('), Part(OtherKind, "a"), Punct(','), SpacePart(), Part(OtherKind, "b"), Punct(')')]
  }

  /** `[A]`, a line break, then `M(` broken onto a new line and `a, b)`. */
  function BrokenExample(indent: string): seq<Part>
  {
    [Punct('['), Part(ClassName, "A"), Punct(']'), LineBreakPart(),
     Part(OtherKind, "M"), Punct('('), LineBreakPart(), IndentationPart(indent),
     Part(OtherKind, "a"), Punct(','), SpacePart(), Part(OtherKind, "b"), Punct(')')]
  }

  lemma AttributeLineHasNoListStart()
    ensures Balanced(AttributeLine()) && ListStart(Method, AttributeLine()) == -1
  {
    var a := AttributeLine();
    AfterSnoc(Zero, [], a[0]);
    assert [] + [a[0]] == [a[0]];
    assert After(Zero, [a[0]]) == Depths(0, 0, 1, 0);
    AfterSnoc(Zero, [a[0]], a[1]);
    assert [a[0]] + [a[1]] == [a[0], a[1]];
    AfterSnoc(Zero, [a[0], a[1]], a[2]);
    assert [a[0], a[1]] + [a[2]] == [a[0], a[1], a[2]];
    assert After(Zero, [a[0], a[1], a[2]]) == Zero;
    AfterSnoc(Zero, [a[0], a[1], a[2]], a[3]);
    assert [a[0], a[1], a[2]] + [a[3]] == a;
    assert forall i | 0 <= i < |a| :: !IsOpener(Method, a[i]);
  }

  /**
   * For an indexer the opener is `[`, so the search stops at the `[` of an
   * attribute in front of the declaration; the correction above does not cover it.
   */
  lemma IndexerListStartInAttribute(parts: seq<Part>)
    ensures ListStart(Property, AttributeLine() + parts) == 0
  {
    var a := AttributeLine() + parts;
    assert a[..1] == [Punct('[')];
    AfterSnoc(Zero, [], a[0]);
    assert [] + [a[0]] == a[..1];
    assert IsListStart(Property, a, 0);
  }

  lemma TwoParametersListStart()
    ensures ListStart(Method, TwoParameters()) == 1
  {
    var t := TwoParameters();
    assert t[..2][..1][..0] == [];
    assert t[..2][..1] == [t[0]];
    assert IsListStart(Method, t, 1);
  }

  lemma ExampleListStart(indent: string)
    ensures ListStart(Method, AttributeLine() + TwoParameters()) == 5
    ensures OpenerBroken(AttributeLine() + TwoParameters(), 5, indent) == BrokenExample(indent)
  {
    AttributeLineHasNoListStart();
    TwoParametersListStart();
    PrefixedListStart(Method, AttributeLine(), TwoParameters());
  }

  /** A part that is kept, in front of a rest that the scan leaves as it is, is itself left as it is. */
  lemma ReflowKeeps(kind: SymbolKind, s: seq<Part>, j: nat, d: Depths, indent: string)
    requires j < |s|
    requires !IsBreakPoint(s, j, d)
    requires !Closes(kind, Step(d, s[j]), s[j])
    requires Reflow(kind, s, j + 1, Step(d, s[j]), indent) == s[j + 1..]
    ensures Reflow(kind, s, j, d, indent) == s[j..]
  {
    ReflowPass(kind, s, j, d, indent);
    assert s[j..] == [s[j]] + s[j + 1..];
  }

  lemma ExampleAsWrittenEnd(indent: string)
    ensures Reflow(Method, BrokenExample(indent), 11, Depths(1, 0, -1, 0), indent) == BrokenExample(indent)[11..]
  {
    var s := BrokenExample(indent);
    var dp := Depths(1, 0, -1, 0);
    ReflowStop(Method, s, 12, dp, indent);
    ReflowKeeps(Method, s, 11, dp, indent);
  }

  lemma ExampleAsWrittenTail(indent: string)
    ensures Reflow(Method, BrokenExample(indent), 9, Depths(1, 0, -1, 0), indent) == BrokenExample(indent)[9..]
  {
    var s := BrokenExample(indent);
    var dp := Depths(1, 0, -1, 0);
    ExampleAsWrittenEnd(indent);
    assert Step(dp, s[10]) == dp;
    ReflowKeeps(Method, s, 10, dp, indent);
    assert Step(dp, s[9]) == dp;
    ReflowKeeps(Method, s, 9, dp, indent);
  }

  lemma ExampleAsWrittenParameters(indent: string)
    ensures Reflow(Method, BrokenExample(indent), 7, Depths(1, 0, -1, 0), indent) == BrokenExample(indent)[7..]
  {
    var s := BrokenExample(indent);
    var dp := Depths(1, 0, -1, 0);
    ExampleAsWrittenTail(indent);
    assert Step(dp, s[8]) == dp;
    ReflowKeeps(Method, s, 8, dp, indent);
    assert Step(dp, s[7]) == dp;
    ReflowKeeps(Method, s, 7, dp, indent);
  }

  lemma ExampleAsWrittenMiddle(indent: string)
    ensures Reflow(Method, BrokenExample(indent), 5, Depths(0, 0, -1, 0), indent) == BrokenExample(indent)[5..]
  {
    var s := BrokenExample(indent);
    var dp, dm := Depths(1, 0, -1, 0), Depths(0, 0, -1, 0);
    ExampleAsWrittenParameters(indent);
    assert Step(dp, s[6]) == dp;
    ReflowKeeps(Method, s, 6, dp, indent);
    assert Step(dm, s[5]) == dp;
    ReflowKeeps(Method, s, 5, dm, indent);
  }

  lemma ExampleAsWrittenAttribute(indent: string)
    ensures Reflow(Method, BrokenExample(indent), 3, Depths(0, 0, -1, 0), indent) == BrokenExample(indent)[3..]
  {
    var s := BrokenExample(indent);
    var dm := Depths(0, 0, -1, 0);
    ExampleAsWrittenMiddle(indent);
    assert Step(dm, s[4]) == dm;
    ReflowKeeps(Method, s, 4, dm, indent);
    assert Step(dm, s[3]) == dm;
    ReflowKeeps(Method, s, 3, dm, indent);
  }

  /** As written: from position 1 the `]` leaves the bracket counter at -1, and nothing is broken. */
  lemma ExampleAsWritten(indent: string)
    ensures Reflow(Method, BrokenExample(indent), 1, Zero, indent) == BrokenExample(indent)[1..]
  {
    var s := BrokenExample(indent);
    var dm := Depths(0, 0, -1, 0);
    ExampleAsWrittenAttribute(indent);
    assert Step(Zero, s[2]) == dm;
    ReflowKeeps(Method, s, 2, Zero, indent);
    assert Step(Zero, s[1]) == Zero;
    ReflowKeeps(Method, s, 1, Zero, indent);
  }

  lemma ExampleCorrectedTail(indent: string)
    ensures Reflow(Method, BrokenExample(indent), 9, Depths(1, 0, 0, 0), indent)
         == [Punct(','), LineBreakPart(), IndentationPart(indent), Part(OtherKind, "b"), Punct(')')]
  {
    var s := BrokenExample(indent);
    var d1 := Depths(1, 0, 0, 0);
    ReflowStop(Method, s, 12, d1, indent);
    ReflowPass(Method, s, 11, d1, indent);
    ReflowBreak(Method, s, 9, d1, indent);
  }

  lemma ExampleCorrectedParameters(indent: string)
    ensures Reflow(Method, BrokenExample(indent), 7, Depths(1, 0, 0, 0), indent)
         == [IndentationPart(indent), Part(OtherKind, "a"), Punct(','), LineBreakPart(), IndentationPart(indent),
             Part(OtherKind, "b"), Punct(')')]
  {
    var s := BrokenExample(indent);
    var d1 := Depths(1, 0, 0, 0);
    ExampleCorrectedTail(indent);
    assert Step(d1, s[8]) == d1;
    ReflowPass(Method, s, 8, d1, indent);
    assert Step(d1, s[7]) == d1;
    ReflowPass(Method, s, 7, d1, indent);
  }

  /** Corrected: from the opener the comma is top-level and the space after it becomes a line break and an indentation. */
  lemma ExampleCorrected(indent: string)
    ensures Reflow(Method, BrokenExample(indent), 5, Zero, indent)
         == [Punct('('), LineBreakPart(), IndentationPart(indent), Part(OtherKind, "a"), Punct(','),
             LineBreakPart(), IndentationPart(indent), Part(OtherKind, "b"), Punct(')')]
  {
    var s := BrokenExample(indent);
    var d1 := Depths(1, 0, 0, 0);
    ExampleCorrectedParameters(indent);
    assert Step(d1, s[6]) == d1;
    ReflowPass(Method, s, 6, d1, indent);
    assert Step(Zero, s[5]) == d1;
    ReflowPass(Method, s, 5, Zero, indent);
  }

  /**
   * As written, `[A]` on the line before `M(a, b)` keeps the parameters on one
   * line (only the opener is broken), while the corrected scan breaks them.
   */
  lemma AttributeSuppressesFormatting()
    ensures Formatted(Method, AttributeLine() + TwoParameters(), "  ")
         == OpenerBroken(AttributeLine() + TwoParameters(), 5, "  ")
    ensures FormattedFromOpener(Method, AttributeLine() + TwoParameters(), "  ")
         != Formatted(Method, AttributeLine() + TwoParameters(), "  ")
  {
    ExampleListStart("  ");
    ExampleAsWritten("  ");
    ExampleCorrected("  ");
    var s := BrokenExample("  ");
    assert s == s[..1] + s[1..];
  }

  /** `prefix + parts` scanned from `|prefix| + k` finds what `parts` scanned from `k` does, shifted. */
  lemma {:induction false} ListStartFromShift(kind: SymbolKind, prefix: seq<Part>, parts: seq<Part>, k: nat)
    requires Balanced(prefix) && k <= |parts|
    ensures var r := ListStartFrom(kind, parts, k);
      ListStartFrom(kind, prefix + parts, |prefix| + k) == if r == -1 then -1 else |prefix| + r
    decreases |parts| - k
  {
    if k < |parts| {
      ListStartShiftAt(kind, prefix, parts, k);
      ListStartFromShift(kind, prefix, parts, k + 1);
    }
  }

  /** Behind a balanced prefix, a position is a list start exactly when it is one in `parts`. */
  lemma ListStartShiftAt(kind: SymbolKind, prefix: seq<Part>, parts: seq<Part>, k: nat)
    requires Balanced(prefix) && k < |parts|
    ensures IsListStart(kind, prefix + parts, |prefix| + k) == IsListStart(kind, parts, k)
  {
    var all := prefix + parts;
    assert all[..|prefix| + k + 1] == prefix + parts[..k + 1];
    AfterConcat(Zero, prefix, parts[..k + 1]);
    AfterIsShift(Zero, parts[..k + 1]);
    assert all[|prefix| + k] == parts[k];
  }

  /** A prefix holding no list start of its own does not change where the scan of `prefix + rest` stops before it. */
  lemma {:induction false} ListStartFromSkipsPrefix(kind: SymbolKind, prefix: seq<Part>, parts: seq<Part>, k: nat)
    requires k <= |prefix| && ListStartFrom(kind, prefix, k) == -1
    ensures ListStartFrom(kind, prefix + parts, k) == ListStartFrom(kind, prefix + parts, |prefix|)
    decreases |prefix| - k
  {
    if k < |prefix| {
      assert (prefix + parts)[..k + 1] == prefix[..k + 1];
      assert !IsListStart(kind, prefix, k);
      ListStartFromSkipsPrefix(kind, prefix, parts, k + 1);
    }
  }

  /** Reflowing depends only on the parts from `k` on. */
  lemma {:induction false} ReflowShift(kind: SymbolKind, prefix: seq<Part>, t: seq<Part>, k: nat, d: Depths, indent: string)
    requires k <= |t|
    ensures Reflow(kind, prefix + t, |prefix| + k, d, indent) == Reflow(kind, t, k, d, indent)
    decreases |t| - k
  {
    var all := prefix + t;
    if k < |t| {
      assert all[|prefix| + k] == t[k];
      if k + 1 < |t| {
        assert all[|prefix| + k + 1] == t[k + 1];
      }
      if IsBreakPoint(t, k, d) {
        ReflowShift(kind, prefix, t, k + 2, d, indent);
      } else if Closes(kind, Step(d, t[k]), t[k]) {
        assert all[|prefix| + k..] == t[k..];
      } else {
        ReflowShift(kind, prefix, t, k + 1, Step(d, t[k]), indent);
      }
    }
  }

  lemma OpenerBrokenShift(prefix: seq<Part>, parts: seq<Part>, index: nat, indent: string)
    requires index < |parts|
    ensures OpenerBroken(prefix + parts, |prefix| + index, indent) == prefix + OpenerBroken(parts, index, indent)
  {
    assert (prefix + parts)[..|prefix| + index + 1] == prefix + parts[..index + 1];
    assert (prefix + parts)[|prefix| + index + 1..] == parts[index + 1..];
  }

  /** The list start of `prefix + parts` is that of `parts`, shifted past the prefix. */
  lemma PrefixedListStart(kind: SymbolKind, prefix: seq<Part>, parts: seq<Part>)
    requires Balanced(prefix) && ListStart(kind, prefix) == -1
    ensures var r := ListStart(kind, parts);
      ListStart(kind, prefix + parts) == if r == -1 then -1 else |prefix| + r
  {
    ListStartFromSkipsPrefix(kind, prefix, parts, 0);
    ListStartFromShift(kind, prefix, parts, 0);
  }

  /**
   * Corrected property: attributes rendered in front of the declaration (any
   * balanced prefix that holds no list start of its own) are left alone and do
   * not change how the parameter list is laid out.
   */
  lemma FormattedFromOpenerIgnoresPrefix(kind: SymbolKind, prefix: seq<Part>, parts: seq<Part>, indent: string)
    requires Balanced(prefix) && ListStart(kind, prefix) == -1
    ensures FormattedFromOpener(kind, prefix + parts, indent) == prefix + FormattedFromOpener(kind, parts, indent)
  {
    PrefixedListStart(kind, prefix, parts);
    var index := ListStart(kind, parts);
    if index != -1 {
      var s := OpenerBroken(parts, index, indent);
      var sa := OpenerBroken(prefix + parts, |prefix| + index, indent);
      FromOpenerAt(kind, parts, index, indent);
      FromOpenerAt(kind, prefix + parts, |prefix| + index, indent);
      OpenerBrokenShift(prefix, parts, index, indent);
      ReflowShift(kind, prefix, s, index, Zero, indent);
      Assemble(prefix, s, sa, index, Reflow(kind, s, index, Zero, indent), Reflow(kind, sa, |prefix| + index, Zero, indent));
    }
  }

  /** The corrected layout where the list starts at `index`. */
  lemma FromOpenerAt(kind: SymbolKind, parts: seq<Part>, index: nat, indent: string)
    requires index == ListStart(kind, parts) && index < |parts|
    ensures var s := OpenerBroken(parts, index, indent);
      FormattedFromOpener(kind, parts, indent) == s[..index] + Reflow(kind, s, index, Zero, indent)
  {
  }

  lemma Assemble(prefix: seq<Part>, s: seq<Part>, sa: seq<Part>, n: nat, r: seq<Part>, ra: seq<Part>)
    requires sa == prefix + s && n <= |s| && ra == r
    ensures sa[..|prefix| + n] + ra == prefix + (s[..n] + r)
  {
    PrefixTake(prefix, s, n);
  }

  lemma PrefixTake(prefix: seq<Part>, s: seq<Part>, n: nat)
    requires n <= |s|
    ensures (prefix + s)[..|prefix| + n] == prefix + s[..n]
  {
  }
}

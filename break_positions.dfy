/**
 * Where the parameter layout breaks lines, stated without the scan: a break
 * position is a top-level `, ` reached before anything closes the list, and
 * the layout is the input with the space after each such position replaced
 * by a line break and an indentation.
 */
module ParameterBreaks {
  import opened DisplayParts
  import opened ParameterList
  import opened ParameterFormatting

  /** `c` is -1, or the part at `c` closes the list under the counters of the scan of `s[k..c + 1]` from `d`. */
  predicate ClosedAt(kind: SymbolKind, s: seq<Part>, k: nat, d: Depths, c: int)
  {
    c != -1 ==> k <= c < |s| && Closes(kind, After(d, s[k..c + 1]), s[c])
  }

  /** The part CloseIndex finds does close the list, with the counters the scan has once it has read it. */
  lemma {:induction false} CloseIndexCloses(kind: SymbolKind, s: seq<Part>, k: nat, d: Depths)
    requires k <= |s|
    ensures ClosedAt(kind, s, k, d, CloseIndex(kind, s, k, d))
    decreases |s| - k
  {
    if k < |s| {
      var c := CloseIndex(kind, s, k, d);
      if IsBreakPoint(s, k, d) {
        assert c == CloseIndex(kind, s, k + 2, d);
        CloseIndexCloses(kind, s, k + 2, d);
        ClosedAtSkip(kind, s, k, d, c);
      } else if Closes(kind, Step(d, s[k]), s[k]) {
        assert c == k;
        AfterOne(d, s, k);
      } else {
        assert c == CloseIndex(kind, s, k + 1, Step(d, s[k]));
        CloseIndexCloses(kind, s, k + 1, Step(d, s[k]));
        ClosedAtFront(kind, s, k, d, c);
      }
    }
  }

  /** A `, ` in front of where the list closes changes nothing. */
  lemma ClosedAtSkip(kind: SymbolKind, s: seq<Part>, k: nat, d: Depths, c: int)
    requires k + 1 < |s| && IsPunct(s[k], ',') && s[k + 1].kind == Space
    requires ClosedAt(kind, s, k + 2, d, c)
    ensures ClosedAt(kind, s, k, d, c)
  {
    if c != -1 {
      SkipCommaSpace(d, s, k, c + 1);
    }
  }

  /** One more part scanned in front of where the list closes. */
  lemma ClosedAtFront(kind: SymbolKind, s: seq<Part>, k: nat, d: Depths, c: int)
    requires k < |s| && ClosedAt(kind, s, k + 1, Step(d, s[k]), c)
    ensures ClosedAt(kind, s, k, d, c)
  {
    if c != -1 {
      AfterFront(d, s, k, c + 1);
    }
  }

  /**
   * No part of `s[from..k]` closes the list, each judged with the counters a
   * scan started at `from` with all counters at 0 has once it has read it.
   */
  predicate OpenBefore(kind: SymbolKind, s: seq<Part>, from: nat, k: nat)
    requires from <= k <= |s|
  {
    forall j :: from <= j < k ==> !Closes(kind, After(Zero, s[from..j + 1]), s[j])
  }

  /**
   * `k` is where a scan started at `from` breaks a line: a `, ` at top level,
   * with nothing before it in the scan having closed the list.
   */
  predicate BreakAt(kind: SymbolKind, s: seq<Part>, from: nat, k: nat)
  {
    && from <= k < |s|
    && OpenBefore(kind, s, from, k)
    && IsBreakPoint(s, k, After(Zero, s[from..k]))
  }

  /** Every position where the scan started at `from` breaks a line. */
  function Breaks(kind: SymbolKind, s: seq<Part>, from: nat): set<nat>
  {
    set k: nat | from <= k < |s| && BreakAt(kind, s, from, k)
  }

  /**
   * `s` from `k` on, with the part right after each position in `breaks`
   * replaced by a line break and an indentation; every other part is kept.
   */
  function BreakAfter(s: seq<Part>, k: nat, breaks: set<nat>, indent: string): seq<Part>
    requires k <= |s|
    decreases |s| - k
  {
    if k == |s| then []
    else
      (if k > 0 && k - 1 in breaks then [LineBreakPart(), IndentationPart(indent)] else [s[k]])
      + BreakAfter(s, k + 1, breaks, indent)
  }

  /** Where no break falls just before a position of `s[m..k]`, those parts are kept as they are. */
  lemma {:induction false} BreakAfterSplit(s: seq<Part>, m: nat, k: nat, breaks: set<nat>, indent: string)
    requires m <= k <= |s|
    requires forall b | b in breaks :: b + 1 < m || k <= b + 1
    ensures BreakAfter(s, m, breaks, indent) == s[m..k] + BreakAfter(s, k, breaks, indent)
    decreases k - m
  {
    if m < k {
      if m > 0 {
        var b := m - 1;
        assert b in breaks ==> b + 1 < m || k <= b + 1;
      }
      assert BreakAfter(s, m, breaks, indent) == [s[m]] + BreakAfter(s, m + 1, breaks, indent);
      BreakAfterSplit(s, m + 1, k, breaks, indent);
      assert s[m..k] == [s[m]] + s[m + 1..k];
      Associate([s[m]], s[m + 1..k], BreakAfter(s, k, breaks, indent));
    }
  }

  /** Concatenation is associative. */
  lemma Associate(a: seq<Part>, b: seq<Part>, c: seq<Part>)
    ensures a + (b + c) == (a + b) + c
  {
  }

  /** Scanning one more part of `s[from..]`. */
  lemma CountersStep(s: seq<Part>, from: nat, k: nat)
    requires from <= k < |s|
    ensures After(Zero, s[from..k + 1]) == Step(After(Zero, s[from..k]), s[k])
  {
    AfterSnoc(Zero, s[from..k], s[k]);
    assert s[from..k + 1] == s[from..k] + [s[k]];
  }

  /** The list stays open past a part that does not close it. */
  lemma OpenBeforeStep(kind: SymbolKind, s: seq<Part>, from: nat, k: nat)
    requires from <= k < |s| && OpenBefore(kind, s, from, k)
    requires !Closes(kind, After(Zero, s[from..k + 1]), s[k])
    ensures OpenBefore(kind, s, from, k + 1)
  {
  }

  /** Once a part has closed the list, no later position is a break, and every break is at a comma. */
  lemma NoBreakAfterClose(kind: SymbolKind, s: seq<Part>, from: nat, k: nat, b: nat)
    requires from <= k < |s| && Closes(kind, After(Zero, s[from..k + 1]), s[k])
    ensures b in Breaks(kind, s, from) ==> b <= k && IsPunct(s[b], ',')
  {
    if b in Breaks(kind, s, from) {
      assert BreakAt(kind, s, from, b);
    }
  }

  /**
   * The scan, arriving at `k` with the counters of `s[from..k]` and with
   * nothing closed yet, does exactly what BreakAfter does with the break
   * positions of the scan from `from`.
   */
  lemma {:induction false} ReflowIsBreakAfter(kind: SymbolKind, s: seq<Part>, from: nat, k: nat, indent: string)
    requires from <= k <= |s|
    requires OpenBefore(kind, s, from, k)
    requires k == 0 || k - 1 !in Breaks(kind, s, from)
    ensures Reflow(kind, s, k, After(Zero, s[from..k]), indent) == BreakAfter(s, k, Breaks(kind, s, from), indent)
    decreases |s| - k, 1
  {
    if k < |s| {
      var d := After(Zero, s[from..k]);
      if IsBreakPoint(s, k, d) {
        ReflowBreakAt(kind, s, from, k, indent);
      } else if Closes(kind, Step(d, s[k]), s[k]) {
        ReflowCloseAt(kind, s, from, k, indent);
      } else {
        ReflowPassAt(kind, s, from, k, indent);
      }
    }
  }

  /** The break case of ReflowIsBreakAfter: the comma is kept and the space after it is replaced. */
  lemma {:induction false} ReflowBreakAt(kind: SymbolKind, s: seq<Part>, from: nat, k: nat, indent: string)
    requires from <= k < |s|
    requires OpenBefore(kind, s, from, k)
    requires k == 0 || k - 1 !in Breaks(kind, s, from)
    requires IsBreakPoint(s, k, After(Zero, s[from..k]))
    ensures Reflow(kind, s, k, After(Zero, s[from..k]), indent) == BreakAfter(s, k, Breaks(kind, s, from), indent)
    decreases |s| - k, 0
  {
    var breaks := Breaks(kind, s, from);
    assert BreakAt(kind, s, from, k);
    SkipBreak(kind, s, from, k);
    ReflowIsBreakAfter(kind, s, from, k + 2, indent);
    ReflowBreak(kind, s, k, After(Zero, s[from..k]), indent);
    BreakAfterAtBreak(s, k, breaks, indent);
  }

  /** BreakAfter at a break: the comma is kept and the space after it is replaced. */
  lemma BreakAfterAtBreak(s: seq<Part>, k: nat, breaks: set<nat>, indent: string)
    requires k + 1 < |s| && k in breaks && k + 1 !in breaks
    requires k == 0 || k - 1 !in breaks
    ensures BreakAfter(s, k, breaks, indent)
         == [s[k], LineBreakPart(), IndentationPart(indent)] + BreakAfter(s, k + 2, breaks, indent)
  {
    var rest := BreakAfter(s, k + 2, breaks, indent);
    assert BreakAfter(s, k + 1, breaks, indent) == [LineBreakPart(), IndentationPart(indent)] + rest;
    assert BreakAfter(s, k, breaks, indent) == [s[k]] + ([LineBreakPart(), IndentationPart(indent)] + rest);
  }

  /** Past a break the counters are as before the comma, the list is still open, and the space is no break. */
  lemma SkipBreak(kind: SymbolKind, s: seq<Part>, from: nat, k: nat)
    requires from <= k < |s|
    requires OpenBefore(kind, s, from, k)
    requires IsBreakPoint(s, k, After(Zero, s[from..k]))
    ensures After(Zero, s[from..k + 2]) == After(Zero, s[from..k])
    ensures OpenBefore(kind, s, from, k + 2)
    ensures !BreakAt(kind, s, from, k + 1)
    ensures k in Breaks(kind, s, from) && k + 1 !in Breaks(kind, s, from)
  {
    SkipBreakCounters(kind, s, from, k);
    assert BreakAt(kind, s, from, k);
    assert !IsPunct(s[k + 1], ',');
  }

  /** Neither the comma nor the space after it changes the counters or closes the list. */
  lemma SkipBreakCounters(kind: SymbolKind, s: seq<Part>, from: nat, k: nat)
    requires from <= k < |s|
    requires OpenBefore(kind, s, from, k)
    requires IsBreakPoint(s, k, After(Zero, s[from..k]))
    ensures After(Zero, s[from..k + 2]) == After(Zero, s[from..k])
    ensures OpenBefore(kind, s, from, k + 2)
  {
    var d := After(Zero, s[from..k]);
    CommaIsNeutral(kind, d, s[k]);
    SkipNeutral(kind, s, from, k);
    assert s[k + 1].kind == Space && !Closes(kind, d, s[k + 1]);
    SkipNeutral(kind, s, from, k + 1);
  }

  /** A part that leaves the counters as they are and does not close the list is skipped over. */
  lemma SkipNeutral(kind: SymbolKind, s: seq<Part>, from: nat, k: nat)
    requires from <= k < |s| && OpenBefore(kind, s, from, k)
    requires Step(After(Zero, s[from..k]), s[k]) == After(Zero, s[from..k])
    requires !Closes(kind, After(Zero, s[from..k]), s[k])
    ensures After(Zero, s[from..k + 1]) == After(Zero, s[from..k])
    ensures OpenBefore(kind, s, from, k + 1)
  {
    CountersStep(s, from, k);
    OpenBeforeStep(kind, s, from, k);
  }

  /** The closing case of ReflowIsBreakAfter: no break lies beyond it, and the rest is kept. */
  lemma {:induction false} ReflowCloseAt(kind: SymbolKind, s: seq<Part>, from: nat, k: nat, indent: string)
    requires from <= k < |s|
    requires k == 0 || k - 1 !in Breaks(kind, s, from)
    requires !IsBreakPoint(s, k, After(Zero, s[from..k]))
    requires Closes(kind, Step(After(Zero, s[from..k]), s[k]), s[k])
    ensures Reflow(kind, s, k, After(Zero, s[from..k]), indent) == BreakAfter(s, k, Breaks(kind, s, from), indent)
  {
    var breaks := Breaks(kind, s, from);
    var d := After(Zero, s[from..k]);
    CountersStep(s, from, k);
    CommaCloses(kind, Step(d, s[k]), s[k]);
    BreaksBeforeClose(kind, s, from, k);
    BreakAfterSplit(s, k, |s|, breaks, indent);
    ReflowStop(kind, s, k, d, indent);
    assert s[k..|s|] == s[k..];
  }

  /** Every break lies before the part that closes the list. */
  lemma BreaksBeforeClose(kind: SymbolKind, s: seq<Part>, from: nat, k: nat)
    requires from <= k < |s| && !IsPunct(s[k], ',')
    requires k == 0 || k - 1 !in Breaks(kind, s, from)
    requires Closes(kind, After(Zero, s[from..k + 1]), s[k])
    ensures forall b | b in Breaks(kind, s, from) :: b + 1 < k || |s| <= b + 1
  {
    forall b | b in Breaks(kind, s, from)
      ensures b + 1 < k || |s| <= b + 1
    {
      NoBreakAfterClose(kind, s, from, k, b);
      assert b != k;
    }
  }

  /** The remaining case of ReflowIsBreakAfter: the part is kept and the scan moves on. */
  lemma {:induction false} ReflowPassAt(kind: SymbolKind, s: seq<Part>, from: nat, k: nat, indent: string)
    requires from <= k < |s|
    requires OpenBefore(kind, s, from, k)
    requires k == 0 || k - 1 !in Breaks(kind, s, from)
    requires !IsBreakPoint(s, k, After(Zero, s[from..k]))
    requires !Closes(kind, Step(After(Zero, s[from..k]), s[k]), s[k])
    ensures Reflow(kind, s, k, After(Zero, s[from..k]), indent) == BreakAfter(s, k, Breaks(kind, s, from), indent)
    decreases |s| - k, 0
  {
    var d := After(Zero, s[from..k]);
    assert !BreakAt(kind, s, from, k);
    CountersStep(s, from, k);
    OpenBeforeStep(kind, s, from, k);
    ReflowIsBreakAfter(kind, s, from, k + 1, indent);
    ReflowPass(kind, s, k, d, indent);
  }

  /**
   * The exact layout FormatParameters produces: with a list start, the builder
   * with the opener broken, and the space after each position where the scan
   * from position 1 breaks replaced by a line break and an indentation.
   */
  lemma FormattedBreaksAt(kind: SymbolKind, parts: seq<Part>, indent: string)
    ensures ListStart(kind, parts) == -1 ==> Formatted(kind, parts, indent) == parts
    ensures var index := ListStart(kind, parts);
      index != -1 ==>
        var s := OpenerBroken(parts, index, indent);
        Formatted(kind, parts, indent) == BreakAfter(s, 0, Breaks(kind, s, 1), indent)
  {
    var index := ListStart(kind, parts);
    if index != -1 {
      var s := OpenerBroken(parts, index, indent);
      assert s[1..1] == [];
      ReflowIsBreakAfter(kind, s, 1, 1, indent);
      BreakAfterSplit(s, 0, 1, Breaks(kind, s, 1), indent);
    }
  }

  /**
   * The exact corrected layout: the opener is followed by a line break and an
   * indentation, everything before it is kept, and the space after each
   * position where the scan from the opener breaks is replaced likewise.
   */
  lemma FormattedFromOpenerBreaksAt(kind: SymbolKind, parts: seq<Part>, indent: string)
    ensures ListStart(kind, parts) == -1 ==> FormattedFromOpener(kind, parts, indent) == parts
    ensures var index := ListStart(kind, parts);
      index != -1 ==>
        var s := OpenerBroken(parts, index, indent);
        var r := FormattedFromOpener(kind, parts, indent);
        && r == BreakAfter(s, 0, Breaks(kind, s, index), indent)
        && |r| >= index + 3
        && r[..index + 3] == parts[..index + 1] + [LineBreakPart(), IndentationPart(indent)]
  {
    var index := ListStart(kind, parts);
    if index != -1 {
      var s := OpenerBroken(parts, index, indent);
      var breaks := Breaks(kind, s, index);
      FromOpenerIsBreakAfter(kind, parts, index, indent);
      OpenerIsNoBreak(kind, parts, index, indent);
      BreakAfterSplit(s, 0, index + 3, breaks, indent);
    }
  }

  lemma FromOpenerIsBreakAfter(kind: SymbolKind, parts: seq<Part>, index: nat, indent: string)
    requires index == ListStart(kind, parts) && index < |parts|
    ensures var s := OpenerBroken(parts, index, indent);
      FormattedFromOpener(kind, parts, indent) == BreakAfter(s, 0, Breaks(kind, s, index), indent)
  {
    var s := OpenerBroken(parts, index, indent);
    var breaks := Breaks(kind, s, index);
    assert s[index..index] == [];
    ReflowIsBreakAfter(kind, s, index, index, indent);
    BreakAfterSplit(s, 0, index, breaks, indent);
  }

  /** Neither the opener nor the line break after it is a break position, and none lies before the opener. */
  lemma OpenerIsNoBreak(kind: SymbolKind, parts: seq<Part>, index: nat, indent: string)
    requires index == ListStart(kind, parts) && index < |parts|
    ensures var s := OpenerBroken(parts, index, indent);
      && s[..index + 3] == parts[..index + 1] + [LineBreakPart(), IndentationPart(indent)]
      && forall b | b in Breaks(kind, s, index) :: index + 2 <= b
  {
    var s := OpenerBroken(parts, index, indent);
    assert IsListStart(kind, parts, index);
    assert s[index] == parts[index] && s[index + 1] == LineBreakPart();
    assert !BreakAt(kind, s, index, index);
    assert !BreakAt(kind, s, index, index + 1);
  }

  /** No comma and no closing bracket: a part the scan only counts and keeps. */
  predicate Counted(p: Part)
  {
    !IsPunct(p, ',') && !IsPunct(p, ')') && !IsPunct(p, ']')
  }

  /** A stretch of parts the scan only counts and keeps. */
  predicate OnlyCounted(t: seq<Part>)
  {
    forall j :: 0 <= j < |t| ==> Counted(t[j])
  }

  /** The positions `k` to `m` of `s` hold only counted parts. */
  predicate CountedBetween(s: seq<Part>, k: nat, m: nat)
  {
    forall j :: k <= j < m && j < |s| ==> Counted(s[j])
  }

  /** Parts that are neither a comma nor a closing bracket are passed over, counted and kept. */
  lemma {:induction false} ReflowPassesOver(kind: SymbolKind, s: seq<Part>, k: nat, m: nat, d: Depths, indent: string)
    requires k <= m <= |s| && CountedBetween(s, k, m)
    ensures Reflow(kind, s, k, d, indent) == s[k..m] + Reflow(kind, s, m, After(d, s[k..m]), indent)
    decreases m - k
  {
    if k == m {
      assert s[k..m] == [];
    } else {
      ReflowPassesOver(kind, s, k, m - 1, d, indent);
      PassLast(kind, s, k, m, d, indent);
      Associate(s[k..m - 1], [s[m - 1]], Reflow(kind, s, m, After(d, s[k..m]), indent));
    }
  }

  /** One more counted part at the end of the stretch is kept and counted. */
  lemma PassLast(kind: SymbolKind, s: seq<Part>, k: nat, m: nat, d: Depths, indent: string)
    requires k < m <= |s| && Counted(s[m - 1])
    ensures var e := After(d, s[k..m - 1]);
      Reflow(kind, s, m - 1, e, indent) == [s[m - 1]] + Reflow(kind, s, m, After(d, s[k..m]), indent)
    ensures s[k..m] == s[k..m - 1] + [s[m - 1]]
  {
    ReflowPass(kind, s, m - 1, After(d, s[k..m - 1]), indent);
    assert s[k..m] == s[k..m - 1] + [s[m - 1]];
    AfterSnoc(d, s[k..m - 1], s[m - 1]);
  }

  /** An only-counted slice `s[k..m]` puts only counted parts at positions `k` to `m` of `s`. */
  lemma CountedSlice(s: seq<Part>, k: nat, m: nat)
    requires k <= m <= |s| && OnlyCounted(s[k..m])
    ensures CountedBetween(s, k, m)
  {
    forall j | k <= j < m && j < |s|
      ensures Counted(s[j])
    {
      assert s[j] == s[k..m][j - k];
    }
  }

  /**
   * As written and corrected agree when the opener is not the first part and
   * the parts between position 1 and the opener hold no comma and no closing
   * bracket and are balanced, as in a declaration with no attribute in front.
   */
  lemma AsWrittenAgreesWithCorrected(kind: SymbolKind, parts: seq<Part>, indent: string)
    requires 1 <= ListStart(kind, parts)
    requires OnlyCounted(parts[1..ListStart(kind, parts)]) && Balanced(parts[1..ListStart(kind, parts)])
    ensures Formatted(kind, parts, indent) == FormattedFromOpener(kind, parts, indent)
  {
    var index := ListStart(kind, parts);
    var s := OpenerBroken(parts, index, indent);
    assert s[1..index] == parts[1..index];
    PrefixPassedOver(kind, s, index, indent);
    BothLayouts(kind, parts, index, indent);
  }

  /** A balanced, only-counted stretch from position 1 to `index` is kept as it is. */
  lemma PrefixPassedOver(kind: SymbolKind, s: seq<Part>, index: nat, indent: string)
    requires 1 <= index <= |s| && OnlyCounted(s[1..index]) && Balanced(s[1..index])
    ensures s[..1] + Reflow(kind, s, 1, Zero, indent) == s[..index] + Reflow(kind, s, index, Zero, indent)
  {
    CountedSlice(s, 1, index);
    ReflowPassesOver(kind, s, 1, index, Zero, indent);
    assert s[..1] + s[1..index] == s[..index];
  }

  /** Both layouts, with the list start at `index`, unfolded. */
  lemma BothLayouts(kind: SymbolKind, parts: seq<Part>, index: nat, indent: string)
    requires index == ListStart(kind, parts) && index < |parts|
    ensures var s := OpenerBroken(parts, index, indent);
      && Formatted(kind, parts, indent) == s[..1] + Reflow(kind, s, 1, Zero, indent)
      && FormattedFromOpener(kind, parts, indent) == s[..index] + Reflow(kind, s, index, Zero, indent)
  {
  }
}

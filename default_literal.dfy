/**
 * Shortening parameter defaults: inside the parameter list, `= default(T)`
 * becomes `= default` by deleting the parenthesised type after the keyword.
 */
module DefaultLiteral {
  import opened Wrappers
  import opened DisplayParts
  import opened ParameterList

  /**
   * The position of the `)` that closes a `(` opened before `j`, scanning from
   * `j` with `depth` parentheses open, or -1 when the parts run out first.
   */
  function ClosingFrom(parts: seq<Part>, j: nat, depth: int): (r: int)
    requires j <= |parts|
    ensures r == -1 || (j <= r < |parts| && IsPunct(parts[r], ')'))
    decreases |parts| - j
  {
    if j == |parts| then -1
    else if IsPunct(parts[j], '(') then ClosingFrom(parts, j + 1, depth + 1)
    else if IsPunct(parts[j], ')') then
      if depth - 1 == 0 then j else ClosingFrom(parts, j + 1, depth - 1)
    else ClosingFrom(parts, j + 1, depth)
  }

  /** How many parentheses are open after `parts[start..m]`, counting one opened just before `start`. */
  function Open(parts: seq<Part>, start: nat, m: nat): int
    requires start <= m <= |parts|
  {
    1 + After(Zero, parts[start..m]).paren
  }

  /** Scanning one more part moves the count by that part's parenthesis. */
  lemma OpenNext(parts: seq<Part>, start: nat, m: nat)
    requires start <= m < |parts|
    ensures Open(parts, start, m + 1)
         == Open(parts, start, m) + (if IsPunct(parts[m], '(') then 1 else if IsPunct(parts[m], ')') then -1 else 0)
  {
    assert parts[start..m + 1] == parts[start..m] + [parts[m]];
    AfterSnoc(Zero, parts[start..m], parts[m]);
  }

  /** The group opened just before `start` stays open through every position up to `j`. */
  predicate StaysOpen(parts: seq<Part>, start: nat, j: nat)
    requires start <= j <= |parts|
  {
    forall m :: start < m <= j ==> Open(parts, start, m) > 0
  }

  lemma StaysOpenNext(parts: seq<Part>, start: nat, j: nat)
    requires start <= j < |parts| && StaysOpen(parts, start, j) && Open(parts, start, j + 1) > 0
    ensures StaysOpen(parts, start, j + 1)
  {
  }

  /** What the search returns, given the group opened just before `start`. */
  predicate MatchesFrom(parts: seq<Part>, start: nat, r: int)
    requires start <= |parts|
  {
    if r == -1 then StaysOpen(parts, start, |parts|)
    else start <= r < |parts| && Open(parts, start, r + 1) == 0 && StaysOpen(parts, start, r)
  }

  /**
   * The closing position is the first one at which every parenthesis opened
   * since `start`, and the one opened before it, is closed again.
   */
  lemma {:induction false} ClosingFromIsMatch(parts: seq<Part>, start: nat, j: nat, depth: int)
    requires start <= j <= |parts| && depth == Open(parts, start, j) && depth > 0
    requires StaysOpen(parts, start, j)
    ensures MatchesFrom(parts, start, ClosingFrom(parts, j, depth))
    decreases |parts| - j, 1
  {
    if j < |parts| {
      OpenNext(parts, start, j);
      if !(IsPunct(parts[j], ')') && depth - 1 == 0) {
        ClosingFromNext(parts, start, j, depth);
      }
    }
  }

  /** A part that does not close the group: the match is found further on. */
  lemma {:induction false} ClosingFromNext(parts: seq<Part>, start: nat, j: nat, depth: int)
    requires start <= j < |parts| && depth == Open(parts, start, j) && depth > 0
    requires StaysOpen(parts, start, j)
    requires !(IsPunct(parts[j], ')') && depth - 1 == 0)
    ensures MatchesFrom(parts, start, ClosingFrom(parts, j, depth))
    decreases |parts| - j, 0
  {
    OpenNext(parts, start, j);
    var depth' := Open(parts, start, j + 1);
    assert ClosingFrom(parts, j, depth) == ClosingFrom(parts, j + 1, depth');
    StaysOpenNext(parts, start, j);
    ClosingFromIsMatch(parts, start, j + 1, depth');
  }

  /** With nothing opened since `start`, the `(` before it is the only one open. */
  lemma ClosingMatches(parts: seq<Part>, start: nat)
    requires start <= |parts|
    ensures MatchesFrom(parts, start, ClosingFrom(parts, start, 1))
  {
    assert parts[start..start] == [];
    ClosingFromIsMatch(parts, start, start, 1);
  }

  /**
   * FindClosingParentheses: the `)` that closes the `(` just before
   * `startIndex`, or -1 when it is never closed.
   */
  method FindClosingParentheses(parts: seq<Part>, startIndex: nat) returns (k: int)
    requires startIndex <= |parts|
    ensures k == ClosingFrom(parts, startIndex, 1)
    ensures k != -1 ==> IsPunct(parts[k], ')')
    ensures MatchesFrom(parts, startIndex, k)
  {
    ClosingMatches(parts, startIndex);
    var depth := 1;
    var j := startIndex;
    while j < |parts|
      invariant startIndex <= j <= |parts| && depth > 0
      invariant ClosingFrom(parts, j, depth) == ClosingFrom(parts, startIndex, 1)
    {
      var part := parts[j];
      if part.kind == Punctuation {
        var c := Glyph(part);
        if c == '(' {
          depth := depth + 1;
        } else if c == ')' {
          depth := depth - 1;
          if depth == 0 {
            return j;
          }
        }
      }
      j := j + 1;
    }
    return -1;
  }

  /** `= default(` at `i`: the position of the `)` closing it, or -1 when the parts do not read so. */
  function DefaultAt(parts: seq<Part>, i: nat): (k: int)
    ensures k == -1 || i + 4 <= k < |parts|
  {
    if i + 3 < |parts| && parts[i + 1].kind == Space && IsKeyword(parts[i + 2], "default") && IsPunct(parts[i + 3], '(')
    then ClosingFrom(parts, i + 4, 1)
    else -1
  }

  /** A deleted stretch: the parts from `open` through `close`. */
  datatype Span = Span(open: nat, close: nat)

  /** `spans` lie in order within `[from, len)` and do not overlap. */
  predicate Ordered(spans: seq<Span>, from: nat, len: nat)
    decreases |spans|
  {
    spans == [] || (from <= spans[0].open <= spans[0].close < len && Ordered(spans[1..], spans[0].close + 1, len))
  }

  /** The span is `(T)` in `= default(T)`: the `(` right after `default` up to the `)` that closes it. */
  predicate IsDefaultGroup(parts: seq<Part>, sp: Span)
  {
    && 3 <= sp.open < sp.close < |parts|
    && IsPunct(parts[sp.open - 3], '=') && parts[sp.open - 2].kind == Space
    && IsKeyword(parts[sp.open - 1], "default") && IsPunct(parts[sp.open], '(')
    && sp.close == ClosingFrom(parts, sp.open + 1, 1)
  }

  /**
   * The stretches the scan of `parts[i..]` deletes, arriving with `paren` and
   * `brackets` open: it stops where both return to 0 on a `)` or `]`, and at
   * each `=` that reads `= default(...)` deletes the parentheses and resumes
   * after them.
   */
  function Deletions(parts: seq<Part>, i: nat, paren: int, brackets: int): (r: seq<Span>)
    requires i <= |parts|
    decreases |parts| - i
  {
    if i == |parts| then []
    else
      match Glyph(parts[i])
      case '(' => Deletions(parts, i + 1, paren + 1, brackets)
      case ')' => if paren - 1 == 0 && brackets == 0 then [] else Deletions(parts, i + 1, paren - 1, brackets)
      case '[' => Deletions(parts, i + 1, paren, brackets + 1)
      case ']' => if brackets - 1 == 0 && paren == 0 then [] else Deletions(parts, i + 1, paren, brackets - 1)
      case '=' =>
        var k := DefaultAt(parts, i);
        if k == -1 then Deletions(parts, i + 1, paren, brackets)
        else
          [Span(i + 3, k)] + Deletions(parts, k + 1, paren, brackets)
      case _ => Deletions(parts, i + 1, paren, brackets)
  }

  /** Every span is the `(T)` of an `= default(T)`. */
  predicate AllDefaultGroups(parts: seq<Part>, spans: seq<Span>)
  {
    forall n :: 0 <= n < |spans| ==> IsDefaultGroup(parts, spans[n])
  }

  lemma {:induction false} DeletionsAreDefaultGroups(parts: seq<Part>, i: nat, paren: int, brackets: int)
    requires i <= |parts|
    ensures AllDefaultGroups(parts, Deletions(parts, i, paren, brackets))
    decreases |parts| - i
  {
    if i < |parts| {
      var c := Glyph(parts[i]);
      var r := Deletions(parts, i, paren, brackets);
      if c == '(' {
        assert r == Deletions(parts, i + 1, paren + 1, brackets);
        DeletionsAreDefaultGroups(parts, i + 1, paren + 1, brackets);
      } else if c == ')' && (paren - 1 != 0 || brackets != 0) {
        assert r == Deletions(parts, i + 1, paren - 1, brackets);
        DeletionsAreDefaultGroups(parts, i + 1, paren - 1, brackets);
      } else if c == '[' {
        assert r == Deletions(parts, i + 1, paren, brackets + 1);
        DeletionsAreDefaultGroups(parts, i + 1, paren, brackets + 1);
      } else if c == ']' && (brackets - 1 != 0 || paren != 0) {
        assert r == Deletions(parts, i + 1, paren, brackets - 1);
        DeletionsAreDefaultGroups(parts, i + 1, paren, brackets - 1);
      } else if c == ')' || c == ']' {
        assert r == [];
      } else if c == '=' && DefaultAt(parts, i) != -1 {
        var k := DefaultAt(parts, i);
        var rest := Deletions(parts, k + 1, paren, brackets);
        assert r == [Span(i + 3, k)] + rest;
        DeletionsAreDefaultGroups(parts, k + 1, paren, brackets);
        assert IsDefaultGroup(parts, r[0]);
        assert forall n :: 1 <= n < |r| ==> r[n] == rest[n - 1];
      } else {
        assert r == Deletions(parts, i + 1, paren, brackets);
        DeletionsAreDefaultGroups(parts, i + 1, paren, brackets);
      }
    }
  }

  /** The deleted stretches lie in order and do not overlap. */
  lemma {:induction false} DeletionsOrdered(parts: seq<Part>, i: nat, paren: int, brackets: int)
    requires i <= |parts|
    ensures Ordered(Deletions(parts, i, paren, brackets), i, |parts|)
    decreases |parts| - i
  {
    if i < |parts| {
      match Glyph(parts[i])
      case '(' => DeletionsOrdered(parts, i + 1, paren + 1, brackets);
      case ')' => DeletionsOrdered(parts, i + 1, paren - 1, brackets);
      case '[' => DeletionsOrdered(parts, i + 1, paren, brackets + 1);
      case ']' => DeletionsOrdered(parts, i + 1, paren, brackets - 1);
      case '=' =>
        var k := DefaultAt(parts, i);
        if k == -1 {
          DeletionsOrdered(parts, i + 1, paren, brackets);
        } else {
          var rest := Deletions(parts, k + 1, paren, brackets);
          DeletionsOrdered(parts, k + 1, paren, brackets);
          assert ([Span(i + 3, k)] + rest)[1..] == rest;
        }
      case _ => DeletionsOrdered(parts, i + 1, paren, brackets);
    }
  }

  /** The part ends the scan under counters `d`: a `)` or `]` that closes the parameter list. */
  predicate StopsAt(p: Part, d: Depths)
  {
    (Glyph(p) == ')' && d.paren - 1 == 0 && d.brackets == 0)
    || (Glyph(p) == ']' && d.brackets - 1 == 0 && d.paren == 0)
  }

  /** At `m` an `=` reads `= default(...)` and its parentheses close again. */
  predicate StartsDefault(parts: seq<Part>, m: nat)
  {
    m < |parts| && IsPunct(parts[m], '=') && DefaultAt(parts, m) != -1
  }

  /**
   * The scan of `parts[j..]`, arriving with counters `d`, goes past every
   * position before `p`: none of them closes the list or starts a default group.
   */
  predicate PassesTo(parts: seq<Part>, j: nat, d: Depths, p: nat)
    requires j <= p <= |parts|
  {
    forall m :: j <= m < p ==> !StopsAt(parts[m], After(d, parts[j..m])) && !StartsDefault(parts, m)
  }

  /**
   * What the scan deletes, told by the first position it does not go past:
   * nothing when that is the end of the parts or a part closing the list, and
   * when it is an `= default(...)`, that group's parentheses followed by what
   * the scan deletes after them. So every `= default(...)` the scan reaches is
   * deleted, and nothing from the list's closing part on is.
   */
  lemma DeletionsAfterPassing(parts: seq<Part>, j: nat, d: Depths, p: nat)
    requires j <= p <= |parts| && PassesTo(parts, j, d, p)
    ensures var e, r := After(d, parts[j..p]), Deletions(parts, j, d.paren, d.brackets);
      && (p == |parts| ==> r == [])
      && (p < |parts| && StopsAt(parts[p], e) ==> r == [])
      && (StartsDefault(parts, p) ==>
            r == [Span(p + 3, DefaultAt(parts, p))] + Deletions(parts, DefaultAt(parts, p) + 1, e.paren, e.brackets))
  {
    SkipPassed(parts, j, d, p);
  }

  /** Going past the positions before `p` leaves the rest of the scan to start at `p`. */
  lemma {:induction false} SkipPassed(parts: seq<Part>, j: nat, d: Depths, p: nat)
    requires j <= p <= |parts| && PassesTo(parts, j, d, p)
    ensures var e := After(d, parts[j..p]);
      Deletions(parts, j, d.paren, d.brackets) == Deletions(parts, p, e.paren, e.brackets)
    decreases p - j
  {
    if j == p {
      assert parts[j..p] == [];
    } else {
      assert parts[j..j] == [];
      var d' := Step(d, parts[j]);
      assert Deletions(parts, j, d.paren, d.brackets) == Deletions(parts, j + 1, d'.paren, d'.brackets);
      forall m | j + 1 <= m < p
        ensures !StopsAt(parts[m], After(d', parts[j + 1..m])) && !StartsDefault(parts, m)
      {
        AfterFront(d, parts, j, m);
      }
      SkipPassed(parts, j + 1, d', p);
      AfterFront(d, parts, j, p);
    }
  }

  lemma OrderedFromEarlier(spans: seq<Span>, from: nat, earlier: nat, len: nat)
    requires Ordered(spans, from, len) && earlier <= from
    ensures Ordered(spans, earlier, len)
  {
  }

  /** `parts[from..]` with the spans taken out, up to the first span that is out of place. */
  function Erase(parts: seq<Part>, from: nat, spans: seq<Span>): seq<Part>
    requires from <= |parts|
    decreases |spans|
  {
    if spans == [] || !(from <= spans[0].open <= spans[0].close < |parts|) then parts[from..]
    else parts[from..spans[0].open] + Erase(parts, spans[0].close + 1, spans[1..])
  }

  /** The result of ReplaceDefaultExpressionWithDefaultLiteral. */
  function WithDefaultLiterals(kind: SymbolKind, parts: seq<Part>): seq<Part>
  {
    var i := ListStart(kind, parts);
    if i == -1 then parts
    else
      Erase(parts, 0, Deletions(parts, i, 0, 0))
  }

  /** `b` is `a` with some of its elements deleted, the rest kept in order. */
  predicate Deletes(a: seq<Part>, b: seq<Part>)
    decreases |a|
  {
    b == [] || (a != [] && ((a[0] == b[0] && Deletes(a[1..], b[1..])) || Deletes(a[1..], b)))
  }

  lemma {:induction false} DeletesNothing(a: seq<Part>)
    ensures Deletes(a, a)
    decreases |a|
  {
    if a != [] {
      DeletesNothing(a[1..]);
    }
  }

  lemma {:induction false} DeletesConcat(a: seq<Part>, b: seq<Part>, c: seq<Part>, e: seq<Part>)
    requires Deletes(a, b) && Deletes(c, e)
    ensures Deletes(a + c, b + e)
    decreases |a|
  {
    if a == [] {
      assert b == [];
      assert a + c == c && b + e == e;
    } else {
      assert (a + c)[1..] == a[1..] + c;
      if b != [] && a[0] == b[0] && Deletes(a[1..], b[1..]) {
        DeletesConcat(a[1..], b[1..], c, e);
        assert (b + e)[1..] == b[1..] + e;
      } else if b == [] {
        DeletesConcat(a[1..], b, c, e);
        assert b + e == e;
        assert a[1..] + c == (a + c)[1..];
        if e != [] && a[0] == e[0] {
          assert Deletes((a + c)[1..], e);
        }
      } else {
        DeletesConcat(a[1..], b, c, e);
      }
    }
  }

  /** Deleting the middle of three pieces, and parts of the last. */
  lemma DeletesSpan(x: seq<Part>, y: seq<Part>, z: seq<Part>, r: seq<Part>)
    requires Deletes(z, r)
    ensures Deletes(x + (y + z), x + r)
  {
    DeletesConcat(y, [], z, r);
    assert [] + r == r;
    DeletesNothing(x);
    DeletesConcat(x, x, y + z, r);
  }

  /** Taking out the spans only deletes parts. */
  lemma {:induction false} EraseDeletes(parts: seq<Part>, from: nat, spans: seq<Span>)
    requires from <= |parts| && Ordered(spans, from, |parts|)
    ensures Deletes(parts[from..], Erase(parts, from, spans))
    decreases |spans|
  {
    if spans == [] {
      DeletesNothing(parts[from..]);
    } else {
      var sp := spans[0];
      var rest := Erase(parts, sp.close + 1, spans[1..]);
      EraseDeletes(parts, sp.close + 1, spans[1..]);
      DeletesAround(parts, from, sp.open, sp.close, rest);
      assert Erase(parts, from, spans) == parts[from..sp.open] + rest;
    }
  }

  lemma DeletesAround(parts: seq<Part>, from: nat, open: nat, close: nat, r: seq<Part>)
    requires from <= open <= close < |parts| && Deletes(parts[close + 1..], r)
    ensures Deletes(parts[from..], parts[from..open] + r)
  {
    DeletesSpan(parts[from..open], parts[open..close + 1], parts[close + 1..], r);
    assert parts[open..] == parts[open..close + 1] + parts[close + 1..];
    assert parts[from..] == parts[from..open] + parts[open..];
  }

  /** The number of parts the spans cover. */
  function Covered(spans: seq<Span>): int
  {
    if spans == [] then 0 else spans[0].close + 1 - spans[0].open + Covered(spans[1..])
  }

  lemma {:induction false} EraseLength(parts: seq<Part>, from: nat, spans: seq<Span>)
    requires from <= |parts| && Ordered(spans, from, |parts|)
    ensures |Erase(parts, from, spans)| + Covered(spans) == |parts| - from
    decreases |spans|
  {
    if spans != [] {
      EraseLength(parts, spans[0].close + 1, spans[1..]);
    }
  }

  /** No `=` reads `= default(...)` with the parentheses closed again. */
  predicate NoDefaultExpression(parts: seq<Part>)
  {
    forall i :: 0 <= i < |parts| && IsPunct(parts[i], '=') ==> DefaultAt(parts, i) == -1
  }

  lemma {:induction false} NoDeletions(parts: seq<Part>, i: nat, paren: int, brackets: int)
    requires i <= |parts| && NoDefaultExpression(parts)
    ensures Deletions(parts, i, paren, brackets) == []
    decreases |parts| - i
  {
    if i < |parts| {
      NoDeletions(parts, i + 1, paren + 1, brackets);
      NoDeletions(parts, i + 1, paren - 1, brackets);
      NoDeletions(parts, i + 1, paren, brackets + 1);
      NoDeletions(parts, i + 1, paren, brackets - 1);
      NoDeletions(parts, i + 1, paren, brackets);
    }
  }

  /**
   * The rewrite only deletes parts, each deleted stretch being the `(T)` of
   * an `= default(T)` inside the parameter list, and the length drops by
   * exactly the parts deleted.
   */
  lemma DefaultLiteralsOnlyDelete(kind: SymbolKind, parts: seq<Part>)
    ensures Deletes(parts, WithDefaultLiterals(kind, parts))
    ensures var i := ListStart(kind, parts);
      i != -1 ==> (var spans := Deletions(parts, i, 0, 0);
        && AllDefaultGroups(parts, spans)
        && |WithDefaultLiterals(kind, parts)| + Covered(spans) == |parts|)
  {
    var i := ListStart(kind, parts);
    if i == -1 {
      DeletesNothing(parts);
    } else {
      var spans := Deletions(parts, i, 0, 0);
      DeletionsOrdered(parts, i, 0, 0);
      OrderedFromEarlier(spans, i, 0, |parts|);
      DeletionsAreDefaultGroups(parts, i, 0, 0);
      EraseDeletes(parts, 0, spans);
      EraseLength(parts, 0, spans);
      assert parts[0..] == parts;
    }
  }

  /** Without an `= default(...)` whose parentheses close, nothing changes. */
  lemma DefaultLiteralsUnchanged(kind: SymbolKind, parts: seq<Part>)
    requires NoDefaultExpression(parts)
    ensures WithDefaultLiterals(kind, parts) == parts
  {
    var i := ListStart(kind, parts);
    if i != -1 {
      NoDeletions(parts, i, 0, 0);
      assert parts[0..] == parts;
    }
  }

  /** What the builder holds; nothing while it has not been created. */
  function Built(builder: Option<seq<Part>>): seq<Part>
  {
    if builder.None? then [] else builder.value
  }

  /**
   * Loop state of the rewrite: the builder followed by what is still to be
   * copied from `prevIndex`, minus what the rest of the scan deletes, is the
   * final result.
   */
  ghost predicate Rewriting(parts: seq<Part>, builder: Option<seq<Part>>, prevIndex: nat, i: nat,
                            paren: int, brackets: int, target: seq<Part>)
  {
    && prevIndex <= i <= |parts| && (builder.None? ==> prevIndex == 0)
    && Built(builder) + Erase(parts, prevIndex, Deletions(parts, i, paren, brackets)) == target
  }

  /** At an `= default(T)`, the scan deletes `(T)` and resumes after it. */
  lemma EraseAtDefault(parts: seq<Part>, prevIndex: nat, i: nat, paren: int, brackets: int)
    requires prevIndex <= i < |parts| && IsPunct(parts[i], '=') && DefaultAt(parts, i) != -1
    ensures var k := DefaultAt(parts, i);
      Erase(parts, prevIndex, Deletions(parts, i, paren, brackets))
        == parts[prevIndex..i + 3] + Erase(parts, k + 1, Deletions(parts, k + 1, paren, brackets))
  {
    var k := DefaultAt(parts, i);
    var rest := Deletions(parts, k + 1, paren, brackets);
    assert Deletions(parts, i, paren, brackets) == [Span(i + 3, k)] + rest;
    assert ([Span(i + 3, k)] + rest)[1..] == rest;
  }

  /** Deleting the `(T)` after `= default` moves the copied prefix into the builder. */
  lemma DeleteDefault(parts: seq<Part>, builder: Option<seq<Part>>, prevIndex: nat, i: nat,
                      paren: int, brackets: int, target: seq<Part>, b: seq<Part>, k: int)
    requires i < |parts| && IsPunct(parts[i], '=') && k == DefaultAt(parts, i) && k != -1
    requires Rewriting(parts, builder, prevIndex, i, paren, brackets, target)
    requires b == Built(builder) + parts[prevIndex..i + 3]
    ensures i <= k < |parts| && Rewriting(parts, Some(b), k + 1, k + 1, paren, brackets, target)
  {
    EraseAtDefault(parts, prevIndex, i, paren, brackets);
    Regroup(target, Built(builder), parts[prevIndex..i + 3],
            Erase(parts, prevIndex, Deletions(parts, i, paren, brackets)),
            Erase(parts, k + 1, Deletions(parts, k + 1, paren, brackets)), b);
  }

  lemma Regroup(t: seq<Part>, x: seq<Part>, y: seq<Part>, e: seq<Part>, z: seq<Part>, b: seq<Part>)
    requires t == x + e && e == y + z && b == x + y
    ensures b + z == t
  {
  }

  /** A part the scan passes over leaves the rest of the rewrite as it was. */
  lemma Advance(parts: seq<Part>, builder: Option<seq<Part>>, prevIndex: nat, i: nat,
                paren: int, brackets: int, paren': int, brackets': int, target: seq<Part>)
    requires i < |parts| && Rewriting(parts, builder, prevIndex, i, paren, brackets, target)
    requires Deletions(parts, i, paren, brackets) == Deletions(parts, i + 1, paren', brackets')
    ensures Rewriting(parts, builder, prevIndex, i + 1, paren', brackets', target)
  {
  }

  /** Where the scan stops, the rest is copied unchanged. */
  lemma Stop(parts: seq<Part>, builder: Option<seq<Part>>, prevIndex: nat, i: nat,
             paren: int, brackets: int, target: seq<Part>)
    requires Rewriting(parts, builder, prevIndex, i, paren, brackets, target)
    requires Deletions(parts, i, paren, brackets) == []
    ensures target == Built(builder) + parts[prevIndex..]
  {
  }

  /** An `=` not followed by a closed `default(...)` is passed over. */
  lemma PassEquals(parts: seq<Part>, builder: Option<seq<Part>>, prevIndex: nat, i: nat,
                   paren: int, brackets: int, target: seq<Part>)
    requires i < |parts| && IsPunct(parts[i], '=') && DefaultAt(parts, i) == -1
    requires Rewriting(parts, builder, prevIndex, i, paren, brackets, target)
    ensures Rewriting(parts, builder, prevIndex, i + 1, paren, brackets, target)
  {
    assert Deletions(parts, i, paren, brackets) == Deletions(parts, i + 1, paren, brackets);
    Advance(parts, builder, prevIndex, i, paren, brackets, paren, brackets, target);
  }

  /**
   * The checks of the local function ReplaceDefaultExpressionWithDefaultLiteral
   * at the `=` at `i`: a Space, the keyword `default` and `(` must follow, and
   * the `)` closing that `(` is the result; -1 when any of these is missing.
   */
  method DefaultClose(parts: seq<Part>, i: nat) returns (k: int)
    requires i < |parts|
    ensures k == DefaultAt(parts, i)
  {
    var j := i + 1;
    if j >= |parts| || parts[j].kind != Space {
      return -1;
    }
    j := j + 1;
    if j >= |parts| || !(parts[j].kind == Keyword && parts[j].text == "default") {
      return -1;
    }
    j := j + 1;
    if j >= |parts| || !(parts[j].kind == Punctuation && parts[j].text == "(") {
      return -1;
    }
    k := FindClosingParentheses(parts, j + 1);
  }

  /**
   * The local function ReplaceDefaultExpressionWithDefaultLiteral: at an
   * `= default(T)` whose `)` is found, copies the parts up to `(` into the
   * builder (creating it) and resumes after the `)`.
   */
  method ReplaceAt(parts: seq<Part>, i: nat, builder: Option<seq<Part>>, prevIndex: nat,
                   ghost paren: int, ghost brackets: int, ghost target: seq<Part>)
    returns (i': nat, builder': Option<seq<Part>>, prevIndex': nat)
    requires i < |parts| && IsPunct(parts[i], '=')
    requires Rewriting(parts, builder, prevIndex, i, paren, brackets, target)
    ensures i <= i' < |parts| && Rewriting(parts, builder', prevIndex', i' + 1, paren, brackets, target)
  {
    var k := DefaultClose(parts, i);
    if k != -1 {
      i', builder', prevIndex' := CopyBeforeGroup(parts, i, k, builder, prevIndex, paren, brackets, target);
    } else {
      PassEquals(parts, builder, prevIndex, i, paren, brackets, target);
      i', builder', prevIndex' := i, builder, prevIndex;
    }
  }

  /** Copies the parts from `prevIndex` up to the `(` after `default` into the builder, creating it. */
  method CopyBeforeGroup(parts: seq<Part>, i: nat, k: int, builder: Option<seq<Part>>, prevIndex: nat,
                         ghost paren: int, ghost brackets: int, ghost target: seq<Part>)
    returns (i': nat, builder': Option<seq<Part>>, prevIndex': nat)
    requires i < |parts| && IsPunct(parts[i], '=') && k == DefaultAt(parts, i) && k != -1
    requires Rewriting(parts, builder, prevIndex, i, paren, brackets, target)
    ensures i' == k && prevIndex' == k + 1
    ensures i <= i' < |parts| && Rewriting(parts, builder', prevIndex', i' + 1, paren, brackets, target)
  {
    var b := AppendRange(Built(builder), parts, prevIndex, i + 3);
    DeleteDefault(parts, builder, prevIndex, i, paren, brackets, target, b, k);
    i', builder', prevIndex' := k, Some(b), k + 1;
  }

  /** GetResult: the parts unchanged when nothing was deleted, else the builder and the rest. */
  method GetResult(parts: seq<Part>, builder: Option<seq<Part>>, prevIndex: nat) returns (r: seq<Part>)
    requires prevIndex <= |parts| && (builder.None? ==> prevIndex == 0)
    ensures r == Built(builder) + parts[prevIndex..]
  {
    if builder.None? {
      assert parts[0..] == parts;
      return parts;
    }
    r := AppendRange(builder.value, parts, prevIndex, |parts|);
  }

  /**
   * One pass of the scanning loop over the part at `i`: updates the depths,
   * stops where both return to 0 on `)` or `]`, and handles an `=`.
   */
  method ScanPart(parts: seq<Part>, i: nat, builder: Option<seq<Part>>, prevIndex: nat,
                  paren: int, brackets: int, ghost target: seq<Part>)
    returns (stop: bool, i': nat, builder': Option<seq<Part>>, prevIndex': nat, paren': int, brackets': int)
    requires i < |parts| && Rewriting(parts, builder, prevIndex, i, paren, brackets, target)
    ensures stop ==> builder' == builder && prevIndex' == prevIndex && target == Built(builder) + parts[prevIndex..]
    ensures !stop ==> i < i' <= |parts| && Rewriting(parts, builder', prevIndex', i', paren', brackets', target)
  {
    var c := Glyph(parts[i]);
    stop, i', builder', prevIndex', paren', brackets' := false, i + 1, builder, prevIndex, paren, brackets;
    if c == '(' {
      paren' := paren + 1;
    } else if c == ')' {
      paren' := paren - 1;
      stop := paren' == 0 && brackets == 0;
    } else if c == '[' {
      brackets' := brackets + 1;
    } else if c == ']' {
      brackets' := brackets - 1;
      stop := brackets' == 0 && paren == 0;
    } else if c == '=' {
      var k;
      k, builder', prevIndex' := ReplaceAt(parts, i, builder, prevIndex, paren, brackets, target);
      i' := k + 1;
      return;
    }
    if stop {
      Stop(parts, builder, prevIndex, i, paren, brackets, target);
    } else {
      Advance(parts, builder, prevIndex, i, paren, brackets, paren', brackets', target);
    }
  }

  /**
   * ReplaceDefaultExpressionWithDefaultLiteral: scans the parameter list from
   * its start and deletes the parenthesised type of each `= default(T)`.
   */
  method ReplaceDefaultExpressionWithDefaultLiteral(kind: SymbolKind, parts: seq<Part>) returns (r: seq<Part>)
    ensures r == WithDefaultLiterals(kind, parts)
  {
    var start := FindParameterListStart(kind, parts);
    if start == -1 {
      return parts;
    }
    ghost var target := WithDefaultLiterals(kind, parts);
    var i: nat := start;
    var parenthesesDepth := 0;
    var bracketsDepth := 0;
    var prevIndex: nat := 0;
    var builder: Option<seq<Part>> := None;
    while i < |parts|
      invariant Rewriting(parts, builder, prevIndex, i, parenthesesDepth, bracketsDepth, target)
      decreases |parts| - i
    {
      var stop;
      stop, i, builder, prevIndex, parenthesesDepth, bracketsDepth :=
        ScanPart(parts, i, builder, prevIndex, parenthesesDepth, bracketsDepth, target);
      if stop {
        r := GetResult(parts, builder, prevIndex);
        return;
      }
    }
    assert Deletions(parts, i, parenthesesDepth, bracketsDepth) == [];
    Stop(parts, builder, prevIndex, i, parenthesesDepth, bracketsDepth, target);
    r := GetResult(parts, builder, prevIndex);
  }
}

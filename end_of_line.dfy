/**
 * Finding the line end a fix should use: the first end-of-line trivia from
 * a token onwards, else the nearest one before it, else (for
 * `GetEndOfLine`) a fresh new line. The tokens of a tree are an array in
 * text order; the token after the last and before the first is the "none"
 * token that ends each scan.
 */
module EndOfLine {
  import opened Wrappers
  import opened SyntaxTrivia

  /** The first line end of a trivia list. */
  function FirstEndOfLine(ts: seq<Trivia>): (r: Option<Trivia>)
    ensures r.Some? ==> IsEndOfLine(r.value) && r.value in ts
    ensures r.None? <==> forall i :: 0 <= i < |ts| ==> !IsEndOfLine(ts[i])
    decreases |ts|
  {
    if ts == [] then None
    else if IsEndOfLine(ts[0]) then Some(ts[0])
    else
      var r := FirstEndOfLine(ts[1..]);
      assert forall i :: 1 <= i < |ts| ==> ts[i] == ts[1..][i - 1];
      r
  }

  predicate HasEndOfLine(t: Token)
  {
    (exists i :: 0 <= i < |t.leading| && IsEndOfLine(t.leading[i]))
    || (exists i :: 0 <= i < |t.trailing| && IsEndOfLine(t.trailing[i]))
  }

  /** A token's line end: the first in its leading trivia, else the first in its trailing trivia. */
  function TokenEndOfLine(t: Token): (r: Option<Trivia>)
    ensures r.None? <==> !HasEndOfLine(t)
    ensures r.Some? ==> IsEndOfLine(r.value) && (r.value in t.leading || r.value in t.trailing)
  {
    match FirstEndOfLine(t.leading)
    case Some(e) => Some(e)
    case None => FirstEndOfLine(t.trailing)
  }

  /** The line end of the first token from `i` on that has one. */
  function ForwardFrom(toks: seq<Token>, i: nat): (r: Option<Trivia>)
    requires i <= |toks|
    ensures r.Some? ==> IsEndOfLine(r.value)
    decreases |toks| - i
  {
    if i == |toks| then None
    else match TokenEndOfLine(toks[i])
      case Some(e) => Some(e)
      case None => ForwardFrom(toks, i + 1)
  }

  /** The line end of the nearest token before `i` that has one. */
  function BackwardFrom(toks: seq<Token>, i: nat): (r: Option<Trivia>)
    requires i <= |toks|
    ensures r.Some? ==> IsEndOfLine(r.value)
  {
    if i == 0 then None
    else match TokenEndOfLine(toks[i - 1])
      case Some(e) => Some(e)
      case None => BackwardFrom(toks, i - 1)
  }

  /** The line end found from token `i`: forwards first, then backwards. */
  function EndOfLineFrom(toks: seq<Token>, i: nat): (r: Option<Trivia>)
    requires i < |toks|
    ensures r.Some? ==> IsEndOfLine(r.value)
  {
    match ForwardFrom(toks, i)
    case Some(e) => Some(e)
    case None => BackwardFrom(toks, i)
  }

  method FindInTriviaList(ts: seq<Trivia>) returns (r: Option<Trivia>)
    ensures r == FirstEndOfLine(ts)
  {
    var i := 0;
    while i < |ts|
      invariant 0 <= i <= |ts| && FirstEndOfLine(ts[i..]) == FirstEndOfLine(ts)
      decreases |ts| - i
    {
      assert ts[i..][1..] == ts[i + 1..];
      if ts[i].kind == EndOfLineTrivia {
        return Some(ts[i]);
      }
      i := i + 1;
    }
    return None;
  }

  method FindInToken(t: Token) returns (r: Option<Trivia>)
    ensures r == TokenEndOfLine(t)
  {
    r := FindInTriviaList(t.leading);
    if r.None? {
      r := FindInTriviaList(t.trailing);
    }
  }

  /** FindEndOfLine: scans forward from `token`, leading trivia before trailing, then backward from the token before it. */
  method FindEndOfLine(tokens: array<Token>, token: nat) returns (r: Option<Trivia>)
    requires token < tokens.Length
    ensures r == EndOfLineFrom(tokens[..], token)
  {
    var t := token;
    while t < tokens.Length
      invariant token <= t <= tokens.Length
      invariant ForwardFrom(tokens[..], t) == ForwardFrom(tokens[..], token)
      decreases tokens.Length - t
    {
      var e := FindInToken(tokens[t]);
      if e.Some? {
        return e;
      }
      t := t + 1;
    }
    t := token;
    while t > 0
      invariant 0 <= t <= token
      invariant BackwardFrom(tokens[..], t) == BackwardFrom(tokens[..], token)
      decreases t
    {
      t := t - 1;
      var e := FindInToken(tokens[t]);
      if e.Some? {
        return e;
      }
    }
    return None;
  }

  /** The host's new line, used when the tree has no line end of its own. */
  function NewLine(newLineText: string): Trivia
  {
    Trivia(EndOfLineTrivia, newLineText)
  }

  /** GetEndOfLine: the line end found from `token`, or a new line. */
  method GetEndOfLine(tokens: array<Token>, token: nat, newLineText: string) returns (r: Trivia)
    requires token < tokens.Length
    ensures IsEndOfLine(r)
    ensures r == (match EndOfLineFrom(tokens[..], token) case Some(e) => e case None => NewLine(newLineText))
  {
    var found := FindEndOfLine(tokens, token);
    if found.Some? && found.value.kind == EndOfLineTrivia {
      r := found.value;
    } else {
      r := NewLine(newLineText);
    }
  }

  lemma {:induction false} ForwardNone(toks: seq<Token>, i: nat)
    requires i <= |toks|
    ensures ForwardFrom(toks, i).None? <==> forall j :: i <= j < |toks| ==> !HasEndOfLine(toks[j])
    decreases |toks| - i
  {
    if i < |toks| {
      ForwardNone(toks, i + 1);
    }
  }

  lemma {:induction false} BackwardNone(toks: seq<Token>, i: nat)
    requires i <= |toks|
    ensures BackwardFrom(toks, i).None? <==> forall j :: 0 <= j < i ==> !HasEndOfLine(toks[j])
  {
    if i > 0 {
      BackwardNone(toks, i - 1);
    }
  }

  /** Nothing is found exactly when no token of the tree carries a line end. */
  lemma NoneIffNoEndOfLine(toks: seq<Token>, i: nat)
    requires i < |toks|
    ensures EndOfLineFrom(toks, i).None? <==> forall j :: 0 <= j < |toks| ==> !HasEndOfLine(toks[j])
  {
    ForwardNone(toks, i);
    BackwardNone(toks, i);
    if EndOfLineFrom(toks, i).None? {
      forall j | 0 <= j < |toks|
        ensures !HasEndOfLine(toks[j])
      {
        if j >= i {
          assert i <= j < |toks|;
        }
      }
    }
  }

  /** With a line end at or after the token, the first such token's line end is the one found. */
  lemma {:induction false} ForwardFindsFirst(toks: seq<Token>, i: nat, j: nat)
    requires i <= j < |toks| && HasEndOfLine(toks[j])
    requires forall k :: i <= k < j ==> !HasEndOfLine(toks[k])
    ensures EndOfLineFrom(toks, i) == TokenEndOfLine(toks[j])
    ensures ForwardFrom(toks, i) == TokenEndOfLine(toks[j])
    decreases j - i
  {
    if i < j {
      ForwardFindsFirst(toks, i + 1, j);
    }
  }

  /** With no line end from the token on, the nearest token before it that has one supplies it. */
  lemma {:induction false} BackwardFindsNearest(toks: seq<Token>, i: nat, j: nat)
    requires j < i < |toks| && HasEndOfLine(toks[j])
    requires forall k :: j < k < |toks| ==> !HasEndOfLine(toks[k])
    ensures EndOfLineFrom(toks, i) == TokenEndOfLine(toks[j])
  {
    ForwardNone(toks, i);
    BackwardNearest(toks, i, j);
  }

  lemma {:induction false} BackwardNearest(toks: seq<Token>, i: nat, j: nat)
    requires j < i <= |toks| && HasEndOfLine(toks[j])
    requires forall k :: j < k < i ==> !HasEndOfLine(toks[k])
    ensures BackwardFrom(toks, i) == TokenEndOfLine(toks[j])
    decreases i
  {
    if j < i - 1 {
      BackwardNearest(toks, i - 1, j);
    }
  }

  /** A token's own leading line end comes before its trailing one. */
  lemma LeadingBeforeTrailing(t: Token)
    requires exists i :: 0 <= i < |t.leading| && IsEndOfLine(t.leading[i])
    ensures TokenEndOfLine(t) == FirstEndOfLine(t.leading)
  {
  }

  /** Whatever is found is a line end carried by some token. */
  lemma {:induction false} FoundIsCarried(toks: seq<Token>, i: nat)
    requires i <= |toks|
    ensures ForwardFrom(toks, i).Some? ==>
      exists j :: i <= j < |toks| && TokenEndOfLine(toks[j]) == ForwardFrom(toks, i)
    ensures BackwardFrom(toks, i).Some? ==>
      exists j :: 0 <= j < i && TokenEndOfLine(toks[j]) == BackwardFrom(toks, i)
    decreases |toks| - i
  {
    if i < |toks| {
      FoundIsCarried(toks, i + 1);
    }
    BackwardCarried(toks, i);
  }

  lemma {:induction false} BackwardCarried(toks: seq<Token>, i: nat)
    requires i <= |toks|
    ensures BackwardFrom(toks, i).Some? ==>
      exists j :: 0 <= j < i && TokenEndOfLine(toks[j]) == BackwardFrom(toks, i)
  {
    if i > 0 {
      BackwardCarried(toks, i - 1);
    }
  }
}

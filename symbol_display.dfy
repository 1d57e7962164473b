/**
 * Rendering a referenced symbol: the host's display parts for it (with or
 * without namespaces), the `Attribute` suffix stripped from an attribute
 * class name, and the type-argument list `<A, B>` of a named type.
 */
module SymbolDisplay {
  import opened Wrappers
  import opened DisplayParts

  /** How the containing namespace of a referenced type is shown. */
  datatype NamespaceStyle = Omitted | OmittedAsContaining | Included

  /** The namespace of the symbol being described and the style in force. */
  datatype Naming = Naming(containing: Option<string>, style: NamespaceStyle)

  /**
   * A referenced symbol as the renderer sees it. The host renders it in two
   * formats, `short` (type name and containing types) and `qualified` (with
   * namespaces); `ns` is its containing namespace and `typeArguments` matter
   * only for a named type.
   */
  datatype Symbol = Symbol(
    kind: SymbolKind, name: string,
    short: seq<Part>, qualified: seq<Part>,
    ns: Option<string>, typeArguments: seq<Symbol>)

  /** The namespace may be left out: always, never, or when it is the describing symbol's own. */
  predicate CanOmitNamespace(symbol: Symbol, naming: Naming)
  {
    match naming.style
    case Omitted => true
    case OmittedAsContaining => naming.containing.Some? && symbol.ns == naming.containing
    case Included => false
  }

  /** The host's display parts for `symbol` in the format the style selects. */
  function Own(symbol: Symbol, naming: Naming): seq<Part>
  {
    if CanOmitNamespace(symbol, naming) then symbol.short else symbol.qualified
  }

  /** The items of `xs` with `sep` between neighbours. */
  function Join(xs: seq<seq<Part>>, sep: seq<Part>): seq<Part>
    decreases |xs|
  {
    if |xs| == 0 then []
    else if |xs| == 1 then xs[0]
    else Join(xs[..|xs| - 1], sep) + sep + xs[|xs| - 1]
  }

  lemma JoinSnoc(xs: seq<seq<Part>>, x: seq<Part>, sep: seq<Part>)
    ensures Join(xs + [x], sep) == if xs == [] then x else Join(xs, sep) + sep + x
  {
    assert (xs + [x])[..|xs|] == xs;
  }

  /** Joining two non-empty lists is joining each and separating the halves once. */
  lemma {:induction false} JoinConcat(a: seq<seq<Part>>, b: seq<seq<Part>>, sep: seq<Part>)
    requires a != [] && b != []
    ensures Join(a + b, sep) == Join(a, sep) + sep + Join(b, sep)
    decreases |b|
  {
    var n := |b|;
    if n == 1 {
      JoinSnoc(a, b[0], sep);
      assert a + b == a + [b[0]];
    } else {
      var front, last := b[..n - 1], b[n - 1];
      assert b == front + [last];
      assert a + b == (a + front) + [last];
      JoinSnoc(a + front, last, sep);
      JoinConcat(a, front, sep);
      JoinSnoc(front, last, sep);
      Regroup(Join(a, sep), sep, Join(front, sep), last);
    }
  }

  lemma Regroup(x: seq<Part>, sep: seq<Part>, y: seq<Part>, z: seq<Part>)
    ensures x + sep + y + sep + z == x + sep + (y + sep + z)
  {
  }

  /** Balanced items joined by a balanced separator stay balanced. */
  lemma {:induction false} JoinBalanced(xs: seq<seq<Part>>, sep: seq<Part>)
    requires Balanced(sep)
    requires forall i :: 0 <= i < |xs| ==> Balanced(xs[i])
    ensures Balanced(Join(xs, sep))
    decreases |xs|
  {
    if |xs| > 1 {
      JoinBalanced(xs[..|xs| - 1], sep);
      BalancedConcat(Join(xs[..|xs| - 1], sep), sep);
      BalancedConcat(Join(xs[..|xs| - 1], sep) + sep, xs[|xs| - 1]);
    }
  }

  /** A part that is no bracket of any kind leaves the counters alone. */
  lemma NeutralBalanced(p: Part)
    requires Glyph(p) !in {'(', ')', '[', ']', '{', '}', '<', '>'}
    ensures Balanced([p])
  {
    assert [p][..0] == [];
  }

  /** An opener, balanced contents and the closer that undoes it are balanced. */
  lemma Wrapped(open: Part, close: Part, x: seq<Part>)
    requires Step(Step(Zero, open), close) == Zero
    requires Balanced(x)
    ensures Balanced([open] + x + [close])
  {
    var o := Step(Zero, open);
    assert [open][..0] == [];
    AfterConcat(Zero, [open], x);
    AfterIsShift(o, x);
    AfterSnoc(Zero, [open] + x, close);
  }

  /** `, ` between list items. */
  function CommaSpace(): seq<Part> { [Punct(','), SpacePart()] }

  lemma CommaSpaceBalanced()
    ensures Balanced(CommaSpace())
  {
    NeutralBalanced(Punct(','));
    NeutralBalanced(SpacePart());
    BalancedConcat([Punct(',')], [SpacePart()]);
  }

  /** The parts a symbol is displayed as: its own rendering and, for a named type, its type arguments. */
  function Display(symbol: Symbol, naming: Naming): seq<Part>
    decreases symbol, 2
  {
    Own(symbol, naming) + (if symbol.kind == NamedType then TypeArgumentList(symbol, naming) else [])
  }

  /** `<a0, a1, …>` for the type arguments of `symbol`, nothing when it has none. */
  function TypeArgumentList(symbol: Symbol, naming: Naming): seq<Part>
    decreases symbol, 1
  {
    if symbol.typeArguments == [] then []
    else [Punct('<')] + Join(TypeArgumentItems(symbol, naming), CommaSpace()) + [Punct('>')]
  }

  /** The display of each type argument of `symbol`, in order. */
  function TypeArgumentItems(symbol: Symbol, naming: Naming): (xs: seq<seq<Part>>)
    ensures |xs| == |symbol.typeArguments|
    ensures forall i :: 0 <= i < |xs| ==> xs[i] == TypeArgument(symbol.typeArguments[i], naming)
    decreases symbol, 0
  {
    var args := symbol.typeArguments;
    seq(|args|, i requires 0 <= i < |args| => TypeArgument(args[i], naming))
  }

  /** A named type argument is displayed in full; any other becomes its name as a type parameter. */
  function TypeArgument(arg: Symbol, naming: Naming): seq<Part>
    decreases arg, 3
  {
    if arg.kind == NamedType then Display(arg, naming) else [Part(TypeParameterName, arg.name)]
  }

  const AttributeSuffix := "Attribute"

  predicate HasAttributeSuffix(text: string)
  {
    |AttributeSuffix| <= |text| && text[|text| - |AttributeSuffix|..] == AttributeSuffix
  }

  /**
   * Drops `Attribute` from the end of the last part when it is a class name
   * ending in it; any other sequence is returned as it is. Only that one
   * part's text changes, and appending the suffix gives it back.
   */
  function StripSuffix(s: seq<Part>): (r: seq<Part>)
    requires s != []
    ensures |r| == |s| && r[..|s| - 1] == s[..|s| - 1] && r[|s| - 1].kind == s[|s| - 1].kind
    ensures r != s <==> s[|s| - 1].kind == ClassName && HasAttributeSuffix(s[|s| - 1].text)
    ensures r != s ==> r[|s| - 1].text + AttributeSuffix == s[|s| - 1].text
  {
    var last := s[|s| - 1];
    if last.kind == ClassName && HasAttributeSuffix(last.text) then
      var stripped := last.text[..|last.text| - |AttributeSuffix|];
      assert stripped + AttributeSuffix == last.text;
      s[..|s| - 1] + [Part(last.kind, stripped)]
    else s
  }

  /**
   * The builder's contents after `symbol` is added to `prefix`. With
   * `removeSuffix`, the suffix is stripped from the last part of everything
   * built so far, before the type arguments are added.
   */
  function DisplayedAfter(prefix: seq<Part>, symbol: Symbol, naming: Naming, removeSuffix: bool): seq<Part>
    requires removeSuffix && symbol.kind == NamedType ==> prefix + Own(symbol, naming) != []
  {
    var built := prefix + Own(symbol, naming);
    if symbol.kind != NamedType then built
    else (if removeSuffix then StripSuffix(built) else built) + TypeArgumentList(symbol, naming)
  }

  /**
   * When everything built so far ends in a part that is no class name, the
   * stripping reaches only the symbol's own parts: the result is the prefix
   * followed by the symbol's display with the suffix removed from it alone.
   */
  function AttributeClassDisplay(symbol: Symbol, naming: Naming): (r: seq<Part>)
    ensures symbol.kind != NamedType ==> r == Display(symbol, naming)
    ensures |r| == |Display(symbol, naming)|
  {
    var own := Own(symbol, naming);
    if symbol.kind != NamedType then own
    else (if own == [] then [] else StripSuffix(own)) + TypeArgumentList(symbol, naming)
  }

  lemma StripAfterPrefix(prefix: seq<Part>, own: seq<Part>)
    requires prefix != [] && prefix[|prefix| - 1].kind != ClassName
    ensures StripSuffix(prefix + own) == prefix + (if own == [] then [] else StripSuffix(own))
  {
    if own == [] {
      assert prefix + own == prefix;
    } else {
      var s := prefix + own;
      assert s[|s| - 1] == own[|own| - 1];
      assert s[..|s| - 1] == prefix + own[..|own| - 1];
    }
  }

  lemma DisplayedAfterAttribute(prefix: seq<Part>, symbol: Symbol, naming: Naming)
    requires prefix != [] && prefix[|prefix| - 1].kind != ClassName
    ensures DisplayedAfter(prefix, symbol, naming, true) == prefix + AttributeClassDisplay(symbol, naming)
  {
    if symbol.kind == NamedType {
      var own, args := Own(symbol, naming), TypeArgumentList(symbol, naming);
      var stripped := if own == [] then [] else StripSuffix(own);
      StripAfterPrefix(prefix, own);
      assert DisplayedAfter(prefix, symbol, naming, true) == StripSuffix(prefix + own) + args;
      assert AttributeClassDisplay(symbol, naming) == stripped + args;
    }
  }

  /** Stripping changes only a class name, which no scan counts. */
  lemma StripKeepsDepths(d: Depths, s: seq<Part>)
    requires s != []
    ensures After(d, StripSuffix(s)) == After(d, s)
  {
    var n := |s| - 1;
    var r := StripSuffix(s);
    assert r == r[..n] + [r[n]] && s == s[..n] + [s[n]];
    AfterSnoc(d, s[..n], s[n]);
    AfterSnoc(d, r[..n], r[n]);
  }

  /** Every host rendering reachable from `symbol` is balanced. */
  predicate RenderingsBalanced(symbol: Symbol)
    decreases symbol
  {
    Balanced(symbol.short) && Balanced(symbol.qualified)
    && forall i :: 0 <= i < |symbol.typeArguments| ==> RenderingsBalanced(symbol.typeArguments[i])
  }

  /** A symbol whose host renderings are balanced is displayed balanced, type arguments included. */
  lemma {:induction false} DisplayBalanced(symbol: Symbol, naming: Naming)
    requires RenderingsBalanced(symbol)
    ensures Balanced(Display(symbol, naming))
    ensures Balanced(TypeArgumentList(symbol, naming))
    decreases symbol
  {
    var args := symbol.typeArguments;
    if args != [] {
      var xs := TypeArgumentItems(symbol, naming);
      forall i | 0 <= i < |xs|
        ensures Balanced(xs[i])
      {
        if args[i].kind == NamedType {
          DisplayBalanced(args[i], naming);
        } else {
          NeutralBalanced(Part(TypeParameterName, args[i].name));
        }
      }
      CommaSpaceBalanced();
      JoinBalanced(xs, CommaSpace());
      Wrapped(Punct('<'), Punct('>'), Join(xs, CommaSpace()));
    }
    var tail := if symbol.kind == NamedType then TypeArgumentList(symbol, naming) else [];
    assert Balanced(tail) by {
      if tail == [] {
        assert After(Zero, tail) == Zero;
      }
    }
    BalancedConcat(Own(symbol, naming), tail);
  }

  /** The attribute form of a class is balanced exactly when its plain display is. */
  lemma AttributeClassBalanced(symbol: Symbol, naming: Naming)
    requires RenderingsBalanced(symbol)
    ensures Balanced(AttributeClassDisplay(symbol, naming))
  {
    DisplayBalanced(symbol, naming);
    var own := Own(symbol, naming);
    if symbol.kind == NamedType && own != [] {
      StripKeepsDepths(Zero, own);
      BalancedConcat(StripSuffix(own), TypeArgumentList(symbol, naming));
    } else if symbol.kind == NamedType {
      assert AttributeClassDisplay(symbol, naming) == TypeArgumentList(symbol, naming);
    }
  }

  /**
   * Adds the display parts of `symbol`; with `removeAttributeSuffix`, a named
   * type loses the `Attribute` suffix from the last part built so far.
   */
  method AddDisplayParts(builder: PartBuilder, symbol: Symbol, naming: Naming, removeAttributeSuffix: bool)
    requires removeAttributeSuffix && symbol.kind == NamedType ==> builder.items + Own(symbol, naming) != []
    modifies builder
    ensures builder.items == DisplayedAfter(old(builder.items), symbol, naming, removeAttributeSuffix)
    decreases symbol, 2
  {
    builder.AddRange(Own(symbol, naming));
    if symbol.kind != NamedType {
      return;
    }
    if removeAttributeSuffix {
      var last := builder.items[|builder.items| - 1];
      if last.kind == ClassName {
        var text := last.text;
        if HasAttributeSuffix(text) {
          builder.Set(|builder.items| - 1, Part(last.kind, text[..|text| - |AttributeSuffix|]));
        }
      }
    }
    AddTypeArguments(builder, symbol, naming);
  }

  /** One step of a joined list: the item after its separator extends the join by that item. */
  lemma JoinStep(xs: seq<seq<Part>>, i: nat, sep: seq<Part>)
    requires i < |xs|
    ensures Join(xs[..i], sep) + (if 0 < i then sep else []) + xs[i] == Join(xs[..i + 1], sep)
  {
    if i == 0 {
      assert xs[..1] == [xs[0]];
      assert Join(xs[..0], sep) + [] + xs[0] == xs[0];
    } else {
      JoinSnoc(xs[..i], xs[i], sep);
      assert xs[..i + 1] == xs[..i] + [xs[i]];
    }
  }

  /** What follows the first `i` of `n` items while the loop is still inside the list. */
  function Pending(i: nat, n: nat, sep: seq<Part>): seq<Part>
  {
    if 0 < i < n then sep else []
  }

  /** Adds `<a0, a1, …>`, one type argument at a time. */
  method AddTypeArguments(builder: PartBuilder, symbol: Symbol, naming: Naming)
    modifies builder
    ensures builder.items == old(builder.items) + TypeArgumentList(symbol, naming)
    decreases symbol, 1
  {
    var args := symbol.typeArguments;
    if args == [] {
      return;
    }
    ghost var xs := TypeArgumentItems(symbol, naming);
    builder.Add(Punct('<'));
    ghost var start := builder.items;
    var i := 0;
    while i < |args|
      invariant 0 <= i <= |args|
      invariant builder.items == start + Join(xs[..i], CommaSpace()) + Pending(i, |args|, CommaSpace())
      decreases |args| - i
    {
      AddTypeArgumentAt(builder, symbol, naming, i, start);
      i := i + 1;
    }
    assert xs[..i] == xs;
    builder.Add(Punct('>'));
  }

  /** Adds the type argument at `i`, and `, ` when another follows. */
  method AddTypeArgumentAt(builder: PartBuilder, symbol: Symbol, naming: Naming, i: nat, ghost start: seq<Part>)
    requires i < |symbol.typeArguments|
    requires builder.items == start + Join(TypeArgumentItems(symbol, naming)[..i], CommaSpace()) + Pending(i, |symbol.typeArguments|, CommaSpace())
    modifies builder
    ensures builder.items == start + Join(TypeArgumentItems(symbol, naming)[..i + 1], CommaSpace()) + Pending(i + 1, |symbol.typeArguments|, CommaSpace())
    decreases symbol, 0
  {
    ghost var xs := TypeArgumentItems(symbol, naming);
    ghost var before := builder.items;
    AddTypeArgument(builder, symbol.typeArguments[i], naming);
    if i + 1 < |symbol.typeArguments| {
      builder.AddRange(CommaSpace());
    }
    ItemStep(start, xs, i, CommaSpace(), before, builder.items);
  }

  /** The join of the first `i` items, then item `i` and a separator when more follow, is the join of `i + 1` items. */
  lemma ItemStep(start: seq<Part>, xs: seq<seq<Part>>, i: nat, sep: seq<Part>, before: seq<Part>, after: seq<Part>)
    requires i < |xs|
    requires before == start + Join(xs[..i], sep) + Pending(i, |xs|, sep)
    requires after == before + xs[i] + (if i + 1 < |xs| then sep else [])
    ensures after == start + Join(xs[..i + 1], sep) + Pending(i + 1, |xs|, sep)
  {
    JoinStep(xs, i, sep);
    var j := Join(xs[..i], sep);
    var p := Pending(i, |xs|, sep);
    assert before + xs[i] == start + (j + p + xs[i]);
  }

  /** The concatenated texts of a rendering: the display string of a symbol is `Text(Display(symbol, naming))`. */
  function Text(s: seq<Part>): string
    decreases |s|
  {
    if s == [] then "" else Text(s[..|s| - 1]) + s[|s| - 1].text
  }

  /** Without suffix removal, the builder gains exactly the symbol's display. */
  lemma DisplayedAfterPlain(prefix: seq<Part>, symbol: Symbol, naming: Naming)
    ensures DisplayedAfter(prefix, symbol, naming, false) == prefix + Display(symbol, naming)
  {
  }

  /** A named type argument in full, any other as a type parameter name. */
  method AddTypeArgument(builder: PartBuilder, arg: Symbol, naming: Naming)
    modifies builder
    ensures builder.items == old(builder.items) + TypeArgument(arg, naming)
    decreases arg, 3
  {
    if arg.kind == NamedType {
      AddDisplayParts(builder, arg, naming, false);
    } else {
      builder.Add(Part(TypeParameterName, arg.name));
    }
  }
}

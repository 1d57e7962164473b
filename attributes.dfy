/**
 * Rendering the attributes of a symbol: the ones a predicate selects, in the
 * order of their display strings, each as its class name without the
 * `Attribute` suffix and optionally with its arguments, inside `[`…`]`.
 * Also the placement of accessor attributes in front of the accessor keyword.
 */
module AttributeDisplay {
  import opened Wrappers
  import opened DisplayParts
  import opened SymbolDisplay
  import opened ConstantDisplay
  import opened Sorting

  datatype NamedArgument = NamedArgument(key: string, value: Constant)

  /** An applied attribute: its class and its positional and named arguments. */
  datatype AttributeData = AttributeData(
    attributeClass: Symbol, constructorArguments: seq<Constant>, namedArguments: seq<NamedArgument>)

  /** The switches of one rendering of an attribute list. */
  datatype AttributeOptions = AttributeOptions(
    naming: Naming, splitAttributes: bool, includeAttributeArguments: bool,
    isAssemblyAttribute: bool, addNewLine: bool)

  // ---------------------------------------------------------------- arguments

  predicate ArgumentsRenderable(a: AttributeData)
  {
    (forall i :: 0 <= i < |a.constructorArguments| ==> Renderable(a.constructorArguments[i]))
    && (forall i :: 0 <= i < |a.namedArguments| ==> Renderable(a.namedArguments[i].value))
  }

  /** `Name = ` in front of a named argument's value. */
  function NamedHead(key: string): seq<Part>
  {
    [Part(PropertyName, key), SpacePart(), Punct('='), SpacePart()]
  }

  function ConstructorItems(a: AttributeData, naming: Naming): (xs: seq<seq<Part>>)
    requires ArgumentsRenderable(a)
    ensures |xs| == |a.constructorArguments|
    ensures forall i :: 0 <= i < |xs| ==> xs[i] == ConstantParts(a.constructorArguments[i], naming)
  {
    var args := a.constructorArguments;
    seq(|args|, i requires 0 <= i < |args| => ConstantParts(args[i], naming))
  }

  function NamedItems(a: AttributeData, naming: Naming): (xs: seq<seq<Part>>)
    requires ArgumentsRenderable(a)
    ensures |xs| == |a.namedArguments|
    ensures forall i :: 0 <= i < |xs| ==>
      xs[i] == NamedHead(a.namedArguments[i].key) + ConstantParts(a.namedArguments[i].value, naming)
  {
    var args := a.namedArguments;
    seq(|args|, i requires 0 <= i < |args| => NamedHead(args[i].key) + ConstantParts(args[i].value, naming))
  }

  /**
   * The argument list as the two passes build it: the positional arguments
   * after `(`, then the named ones after `, ` (or after `(` when there were no
   * positional ones), then `)` when either pass added something.
   */
  function ArgumentList(a: AttributeData, naming: Naming): seq<Part>
    requires ArgumentsRenderable(a)
  {
    ConstructorPhase(a, naming) + NamedPhase(a, naming) + ClosingPhase(a)
  }

  function ConstructorPhase(a: AttributeData, naming: Naming): seq<Part>
    requires ArgumentsRenderable(a)
  {
    if a.constructorArguments == [] then [] else [Punct('(')] + Join(ConstructorItems(a, naming), CommaSpace())
  }

  function NamedPhase(a: AttributeData, naming: Naming): seq<Part>
    requires ArgumentsRenderable(a)
  {
    if a.namedArguments == [] then []
    else (if a.constructorArguments == [] then [Punct('(')] else CommaSpace()) + Join(NamedItems(a, naming), CommaSpace())
  }

  function ClosingPhase(a: AttributeData): seq<Part>
  {
    if a.constructorArguments == [] && a.namedArguments == [] then [] else [Punct(')')]
  }

  /**
   * The two passes make one parenthesized list: positional then named
   * arguments, all separated by `, `, and nothing at all when there are none.
   */
  lemma ArgumentListIsOneList(a: AttributeData, naming: Naming)
    requires ArgumentsRenderable(a)
    ensures var all := ConstructorItems(a, naming) + NamedItems(a, naming);
      ArgumentList(a, naming) == if all == [] then [] else [Punct('(')] + Join(all, CommaSpace()) + [Punct(')')]
  {
    var ctor, named := ConstructorItems(a, naming), NamedItems(a, naming);
    if ctor != [] && named != [] {
      JoinConcat(ctor, named, CommaSpace());
      OneListBoth([Punct('(')], Join(ctor, CommaSpace()), CommaSpace(), Join(named, CommaSpace()), [Punct(')')]);
    } else if ctor != [] {
      assert ctor + named == ctor;
      assert NamedPhase(a, naming) == [];
    } else if named != [] {
      assert ctor + named == named;
      assert ConstructorPhase(a, naming) == [];
    }
  }

  lemma OneListBoth(open: seq<Part>, c: seq<Part>, sep: seq<Part>, n: seq<Part>, close: seq<Part>)
    ensures open + c + (sep + n) + close == open + (c + sep + n) + close
  {
  }

  /** Every symbol an attribute's arguments refer to renders balanced. */
  predicate ArgumentSymbolsBalanced(a: AttributeData)
  {
    (forall i :: 0 <= i < |a.constructorArguments| ==> SymbolsBalanced(a.constructorArguments[i]))
    && (forall i :: 0 <= i < |a.namedArguments| ==> SymbolsBalanced(a.namedArguments[i].value))
  }

  /** Arguments whose symbols render balanced give a balanced argument list. */
  lemma ArgumentListBalanced(a: AttributeData, naming: Naming)
    requires ArgumentsRenderable(a) && ArgumentSymbolsBalanced(a)
    ensures Balanced(ArgumentList(a, naming))
  {
    var all := ConstructorItems(a, naming) + NamedItems(a, naming);
    ArgumentItemsBalanced(a, naming);
    ArgumentListIsOneList(a, naming);
    if all != [] {
      CommaSpaceBalanced();
      JoinBalanced(all, CommaSpace());
      Wrapped(Punct('('), Punct(')'), Join(all, CommaSpace()));
    } else {
      assert After(Zero, []) == Zero;
    }
  }

  lemma ArgumentItemsBalanced(a: AttributeData, naming: Naming)
    requires ArgumentsRenderable(a) && ArgumentSymbolsBalanced(a)
    ensures var all := ConstructorItems(a, naming) + NamedItems(a, naming);
      forall i :: 0 <= i < |all| ==> Balanced(all[i])
  {
    var ctor, named := ConstructorItems(a, naming), NamedItems(a, naming);
    forall i | 0 <= i < |ctor|
      ensures Balanced(ctor[i])
    {
      ConstantBalanced(a.constructorArguments[i], naming);
    }
    forall i | 0 <= i < |named|
      ensures Balanced(named[i])
    {
      var arg := a.namedArguments[i];
      ConstantBalanced(arg.value, naming);
      NamedHeadBalanced(arg.key);
      BalancedConcat(NamedHead(arg.key), ConstantParts(arg.value, naming));
    }
    var all := ctor + named;
    forall i | 0 <= i < |all|
      ensures Balanced(all[i])
    {
      if i >= |ctor| {
        assert all[i] == named[i - |ctor|];
      }
    }
  }

  lemma NamedHeadBalanced(key: string)
    ensures Balanced(NamedHead(key))
  {
    NeutralFour(Part(PropertyName, key), SpacePart(), Punct('='), SpacePart());
  }

  /** Four parts that are no brackets leave the counters at zero. */
  lemma NeutralFour(w: Part, x: Part, y: Part, z: Part)
    requires Step(Step(Zero, w), x) == Zero && Step(Step(Zero, y), z) == Zero
    ensures Balanced([w, x, y, z])
  {
    TwoNet(w, x);
    TwoNet(y, z);
    BalancedConcat([w, x], [y, z]);
    assert [w, x] + [y, z] == [w, x, y, z];
  }

  /** Adds `(a0, a1, K = v, …)`, or nothing when the attribute has no arguments. */
  method AddAttributeArguments(builder: PartBuilder, a: AttributeData, naming: Naming)
    requires ArgumentsRenderable(a)
    modifies builder
    ensures builder.items == old(builder.items) + ArgumentList(a, naming)
  {
    ghost var start := builder.items;
    ghost var c, n, cl := ConstructorPhase(a, naming), NamedPhase(a, naming), ClosingPhase(a);
    var hasConstructorArgument := AppendConstructorArguments(builder, a, naming);
    var hasNamedArgument := AppendNamedArguments(builder, a, naming, hasConstructorArgument);
    if hasConstructorArgument || hasNamedArgument {
      builder.Add(Punct(')'));
    } else {
      Append3(start + c, n, []);
    }
    Append4(start, c, n, cl);
  }

  /** `(a0, a1` for the positional arguments; reports whether there were any. */
  method AppendConstructorArguments(builder: PartBuilder, a: AttributeData, naming: Naming) returns (hasConstructorArgument: bool)
    requires ArgumentsRenderable(a)
    modifies builder
    ensures hasConstructorArgument <==> a.constructorArguments != []
    ensures builder.items == old(builder.items) + ConstructorPhase(a, naming)
  {
    hasConstructorArgument := false;
    ghost var initial := builder.items;
    if |a.constructorArguments| == 0 {
      Append3(initial, [], []);
      return;
    }
    hasConstructorArgument := true;
    builder.Add(Punct('('));
    AddConstructorItems(builder, a, naming);
    Append3(initial, [Punct('(')], Join(ConstructorItems(a, naming), CommaSpace()));
  }

  /** The positional arguments separated by `, `. */
  method AddConstructorItems(builder: PartBuilder, a: AttributeData, naming: Naming)
    requires ArgumentsRenderable(a)
    modifies builder
    ensures builder.items == old(builder.items) + Join(ConstructorItems(a, naming), CommaSpace())
  {
    var args := a.constructorArguments;
    ghost var start := builder.items;
    ghost var xs := ConstructorItems(a, naming);
    var i := 0;
    while i < |args|
      invariant 0 <= i <= |args|
      invariant builder.items == start + Join(xs[..i], CommaSpace()) + Pending(i, |args|, CommaSpace())
      decreases |args| - i
    {
      ghost var before := builder.items;
      AddConstantValue(builder, args[i], naming);
      if i + 1 < |args| {
        builder.AddRange(CommaSpace());
      }
      ItemStep(start, xs, i, CommaSpace(), before, builder.items);
      i := i + 1;
    }
    assert xs[..i] == xs;
    assert Pending(i, |args|, CommaSpace()) == [];
  }

  /** `, K = v` (or `(K = v` when there were no positional arguments) for the named arguments. */
  method AppendNamedArguments(builder: PartBuilder, a: AttributeData, naming: Naming, hasConstructorArgument: bool)
    returns (hasNamedArgument: bool)
    requires ArgumentsRenderable(a)
    requires hasConstructorArgument <==> a.constructorArguments != []
    modifies builder
    ensures hasNamedArgument <==> a.namedArguments != []
    ensures builder.items == old(builder.items) + NamedPhase(a, naming)
  {
    hasNamedArgument := false;
    ghost var initial := builder.items;
    if |a.namedArguments| == 0 {
      Append3(initial, [], []);
      return;
    }
    hasNamedArgument := true;
    ghost var lead := if hasConstructorArgument then CommaSpace() else [Punct('(')];
    if hasConstructorArgument {
      builder.AddRange(CommaSpace());
    } else {
      builder.Add(Punct('('));
    }
    AddNamedItems(builder, a, naming);
    Append3(initial, lead, Join(NamedItems(a, naming), CommaSpace()));
  }

  /** The named arguments separated by `, `. */
  method AddNamedItems(builder: PartBuilder, a: AttributeData, naming: Naming)
    requires ArgumentsRenderable(a)
    modifies builder
    ensures builder.items == old(builder.items) + Join(NamedItems(a, naming), CommaSpace())
  {
    var args := a.namedArguments;
    ghost var start := builder.items;
    ghost var xs := NamedItems(a, naming);
    var i := 0;
    while i < |args|
      invariant 0 <= i <= |args|
      invariant builder.items == start + Join(xs[..i], CommaSpace()) + Pending(i, |args|, CommaSpace())
      decreases |args| - i
    {
      AddNamedArgumentAt(builder, a, naming, i, start);
      i := i + 1;
    }
    assert xs[..i] == xs;
    assert Pending(i, |args|, CommaSpace()) == [];
  }

  /** `K = v` for the named argument at `i`, and `, ` when another follows. */
  method AddNamedArgumentAt(builder: PartBuilder, a: AttributeData, naming: Naming, i: nat, ghost start: seq<Part>)
    requires ArgumentsRenderable(a) && i < |a.namedArguments|
    requires builder.items == start + Join(NamedItems(a, naming)[..i], CommaSpace()) + Pending(i, |a.namedArguments|, CommaSpace())
    modifies builder
    ensures builder.items == start + Join(NamedItems(a, naming)[..i + 1], CommaSpace()) + Pending(i + 1, |a.namedArguments|, CommaSpace())
  {
    ghost var xs := NamedItems(a, naming);
    ghost var before := builder.items;
    AddNamedArgument(builder, a.namedArguments[i], naming);
    if i + 1 < |a.namedArguments| {
      builder.AddRange(CommaSpace());
    }
    ItemStep(start, xs, i, CommaSpace(), before, builder.items);
  }

  /** `K = v` */
  method AddNamedArgument(builder: PartBuilder, arg: NamedArgument, naming: Naming)
    requires Renderable(arg.value)
    modifies builder
    ensures builder.items == old(builder.items) + (NamedHead(arg.key) + ConstantParts(arg.value, naming))
  {
    ghost var before := builder.items;
    builder.Add(Part(PropertyName, arg.key));
    builder.Add(SpacePart());
    builder.Add(Punct('='));
    builder.Add(SpacePart());
    assert builder.items == before + NamedHead(arg.key);
    AddConstantValue(builder, arg.value, naming);
    Append3(before, NamedHead(arg.key), ConstantParts(arg.value, naming));
  }

  // ---------------------------------------------------------------- selection and order

  /** The attributes whose class the predicate accepts, in their original order. */
  function Filter(attributes: seq<AttributeData>, passes: Symbol -> bool): (r: seq<AttributeData>)
    ensures forall a :: a in r ==> a in attributes && passes(a.attributeClass)
    ensures forall a :: a in attributes && passes(a.attributeClass) ==> a in r
    decreases |attributes|
  {
    if attributes == [] then []
    else (if passes(attributes[0].attributeClass) then [attributes[0]] else []) + Filter(attributes[1..], passes)
  }

  /** The display string an attribute is ordered by: its class, rendered without removing the suffix. */
  function SortKey(a: AttributeData, naming: Naming): string
  {
    Text(Display(a.attributeClass, naming))
  }

  /** Attributes compared by their sort keys under the host's string order `le`. */
  function KeyOrder(le: (string, string) -> bool, naming: Naming): (AttributeData, AttributeData) -> bool
  {
    (a: AttributeData, b: AttributeData) => le(SortKey(a, naming), SortKey(b, naming))
  }

  lemma KeyOrderTotal(le: (string, string) -> bool, naming: Naming)
    requires TotalPreorder(le)
    ensures TotalPreorder(KeyOrder(le, naming))
  {
    var order := KeyOrder(le, naming);
    forall a, b, c | order(a, b) && order(b, c)
      ensures order(a, c)
    {
      assert le(SortKey(a, naming), SortKey(b, naming)) && le(SortKey(b, naming), SortKey(c, naming));
    }
    forall a, b
      ensures order(a, b) || order(b, a)
    {
      assert le(SortKey(a, naming), SortKey(b, naming)) || le(SortKey(b, naming), SortKey(a, naming));
    }
  }

  /** The attributes that pass, in the order of their display strings (equal strings keep their original order). */
  function Selected(attributes: seq<AttributeData>, passes: Symbol -> bool, le: (string, string) -> bool,
                    naming: Naming): (r: seq<AttributeData>)
    ensures forall a :: a in r ==> a in attributes && passes(a.attributeClass)
    ensures |r| == |Filter(attributes, passes)|
  {
    var selected := Filter(attributes, passes);
    SortByMembers(selected, KeyOrder(le, naming));
    SortBy(selected, KeyOrder(le, naming))
  }

  /** Under a total preorder on strings, the selected attributes come out ordered by their display strings. */
  lemma SelectedSorted(attributes: seq<AttributeData>, passes: Symbol -> bool, le: (string, string) -> bool, naming: Naming)
    requires TotalPreorder(le)
    ensures var r := Selected(attributes, passes, le, naming);
      forall i, j :: 0 <= i < j < |r| ==> le(SortKey(r[i], naming), SortKey(r[j], naming))
  {
    var order := KeyOrder(le, naming);
    KeyOrderTotal(le, naming);
    SortBySorted(Filter(attributes, passes), order);
    var r := Selected(attributes, passes, le, naming);
    forall i, j | 0 <= i < j < |r|
      ensures le(SortKey(r[i], naming), SortKey(r[j], naming))
    {
      assert order(r[i], r[j]);
    }
  }

  // ---------------------------------------------------------------- the list

  /** With arguments included, every attribute's arguments can be rendered. */
  predicate AttributesRenderable(attributes: seq<AttributeData>, opts: AttributeOptions)
  {
    opts.includeAttributeArguments ==> forall a :: a in attributes ==> ArgumentsRenderable(a)
  }

  /**
   * With arguments included, every attribute that passes the predicate has
   * arguments that can be rendered; the others are never rendered.
   */
  predicate PassingRenderable(attributes: seq<AttributeData>, passes: Symbol -> bool, opts: AttributeOptions)
  {
    opts.includeAttributeArguments ==>
      forall a :: a in attributes && passes(a.attributeClass) ==> ArgumentsRenderable(a)
  }

  /** `assembly: ` in front of an assembly attribute. */
  function AssemblyTarget(opts: AttributeOptions): seq<Part>
  {
    if opts.isAssemblyAttribute then [KeywordPart("assembly"), Punct(':'), SpacePart()] else []
  }

  function Opening(opts: AttributeOptions): seq<Part>
  {
    [Punct('[')] + AssemblyTarget(opts)
  }

  /** What follows a `]` inside a split list: a line break or a space. */
  function LineEnd(opts: AttributeOptions): Part
  {
    if opts.addNewLine then LineBreakPart() else SpacePart()
  }

  /** Between two attributes: `] [` when split, `, ` otherwise. */
  function Separator(opts: AttributeOptions): seq<Part>
  {
    if opts.splitAttributes then [Punct(']')] + [LineEnd(opts)] + Opening(opts) else CommaSpace()
  }

  function Closing(opts: AttributeOptions): seq<Part>
  {
    [Punct(']')] + (if opts.addNewLine then [LineBreakPart()] else [])
  }

  /** One attribute: its class without the suffix, then its arguments when they are included. */
  function AttributeItem(a: AttributeData, opts: AttributeOptions): seq<Part>
    requires opts.includeAttributeArguments ==> ArgumentsRenderable(a)
  {
    AttributeClassDisplay(a.attributeClass, opts.naming)
    + (if opts.includeAttributeArguments then ArgumentList(a, opts.naming) else [])
  }

  function AttributeItems(ordered: seq<AttributeData>, opts: AttributeOptions): (xs: seq<seq<Part>>)
    requires AttributesRenderable(ordered, opts)
    ensures |xs| == |ordered| && forall i :: 0 <= i < |xs| ==> xs[i] == AttributeItem(ordered[i], opts)
  {
    seq(|ordered|, i requires 0 <= i < |ordered| => AttributeItem(ordered[i], opts))
  }

  /**
   * The list of already selected and ordered attributes: nothing when there
   * are none, otherwise `[` (with `assembly: `), the attributes with their
   * separators, `]` and a line break when one is asked for.
   */
  function AttributeList(ordered: seq<AttributeData>, opts: AttributeOptions): (r: seq<Part>)
    requires AttributesRenderable(ordered, opts)
    ensures r == [] <==> ordered == []
    ensures r != [] ==> r[0] == Punct('[')
    ensures r != [] ==> r[|r| - 1] == if opts.addNewLine then LineBreakPart() else Punct(']')
  {
    if ordered == [] then []
    else Opening(opts) + Join(AttributeItems(ordered, opts), Separator(opts)) + Closing(opts)
  }

  /** What the attribute rendering of a symbol adds, from all its attributes. */
  function AttributesParts(attributes: seq<AttributeData>, passes: Symbol -> bool, le: (string, string) -> bool,
                           opts: AttributeOptions): seq<Part>
    requires PassingRenderable(attributes, passes, opts)
  {
    AttributeList(Selected(attributes, passes, le, opts.naming), opts)
  }

  /** Nothing is rendered exactly when no attribute passes the predicate. */
  lemma NothingUnlessOnePasses(attributes: seq<AttributeData>, passes: Symbol -> bool, le: (string, string) -> bool,
                               opts: AttributeOptions)
    requires PassingRenderable(attributes, passes, opts)
    ensures AttributesParts(attributes, passes, le, opts) == []
        <==> forall a :: a in attributes ==> !passes(a.attributeClass)
  {
    var selected := Filter(attributes, passes);
    if selected != [] {
      assert selected[0] in selected;
    }
  }

  lemma {:induction false} FilterTwice(attributes: seq<AttributeData>, passes: Symbol -> bool)
    ensures Filter(Filter(attributes, passes), passes) == Filter(attributes, passes)
    decreases |attributes|
  {
    if attributes != [] {
      var rest := Filter(attributes[1..], passes);
      FilterTwice(attributes[1..], passes);
      if passes(attributes[0].attributeClass) {
        var r := [attributes[0]] + rest;
        assert r[0] == attributes[0] && r[1..] == rest;
      } else {
        assert [] + rest == rest;
      }
    }
  }

  /**
   * Attributes the predicate rejects play no part: rendering only the ones
   * that pass gives the same parts, whatever the others' arguments are.
   */
  lemma HiddenAttributesIgnored(attributes: seq<AttributeData>, passes: Symbol -> bool, le: (string, string) -> bool,
                                opts: AttributeOptions)
    requires PassingRenderable(attributes, passes, opts)
    ensures AttributesParts(Filter(attributes, passes), passes, le, opts) == AttributesParts(attributes, passes, le, opts)
  {
    FilterTwice(attributes, passes);
  }

  /** One `[…]` group per attribute in a split list. */
  function Groups(ordered: seq<AttributeData>, opts: AttributeOptions): (gs: seq<seq<Part>>)
    requires AttributesRenderable(ordered, opts)
    ensures |gs| == |ordered|
    ensures forall i :: 0 <= i < |gs| ==> gs[i] == Opening(opts) + AttributeItem(ordered[i], opts) + [Punct(']')]
  {
    seq(|ordered|, i requires 0 <= i < |ordered| => Opening(opts) + AttributeItem(ordered[i], opts) + [Punct(']')])
  }

  /**
   * A split list is one bracket pair per attribute, the pairs separated by a
   * line break (or a space), followed by the final line break when asked for.
   */
  lemma SplitIsOnePairPerAttribute(ordered: seq<AttributeData>, opts: AttributeOptions)
    requires AttributesRenderable(ordered, opts)
    requires opts.splitAttributes && ordered != []
    ensures AttributeList(ordered, opts)
         == Join(Groups(ordered, opts), [LineEnd(opts)]) + (if opts.addNewLine then [LineBreakPart()] else [])
  {
    var gs, xs := Groups(ordered, opts), AttributeItems(ordered, opts);
    GroupsPrefix(ordered, opts, |ordered|);
    assert gs[..|ordered|] == gs && xs[..|ordered|] == xs;
    var t := if opts.addNewLine then [LineBreakPart()] else [];
    ClosingSplit(Opening(opts), Join(xs, Separator(opts)), [Punct(']')], t);
  }

  lemma ClosingSplit(o: seq<Part>, j: seq<Part>, close: seq<Part>, t: seq<Part>)
    ensures o + j + (close + t) == (o + j + close) + t
  {
  }

  lemma {:induction false} GroupsPrefix(ordered: seq<AttributeData>, opts: AttributeOptions, k: nat)
    requires AttributesRenderable(ordered, opts)
    requires opts.splitAttributes && 1 <= k <= |ordered|
    ensures Join(Groups(ordered, opts)[..k], [LineEnd(opts)])
         == Opening(opts) + Join(AttributeItems(ordered, opts)[..k], Separator(opts)) + [Punct(']')]
    decreases k
  {
    var gs, xs := Groups(ordered, opts), AttributeItems(ordered, opts);
    if k == 1 {
      assert gs[..1] == [gs[0]] && xs[..1] == [xs[0]];
    } else {
      GroupsPrefix(ordered, opts, k - 1);
      JoinStep(gs, k - 1, [LineEnd(opts)]);
      JoinStep(xs, k - 1, Separator(opts));
      GroupStep(Opening(opts), Join(xs[..k - 1], Separator(opts)), [Punct(']')], [LineEnd(opts)], xs[k - 1]);
    }
  }

  lemma GroupStep(o: seq<Part>, j: seq<Part>, c: seq<Part>, n: seq<Part>, x: seq<Part>)
    ensures o + j + c + n + (o + x + c) == o + (j + (c + n + o) + x) + c
  {
  }

  /** Every symbol an attribute list mentions renders balanced. */
  predicate AttributeSymbolsBalanced(ordered: seq<AttributeData>, opts: AttributeOptions)
  {
    forall a :: a in ordered ==>
      RenderingsBalanced(a.attributeClass) && (opts.includeAttributeArguments ==> ArgumentSymbolsBalanced(a))
  }

  lemma AssemblyTargetBalanced(opts: AttributeOptions)
    ensures Balanced(AssemblyTarget(opts))
  {
    if opts.isAssemblyAttribute {
      TwoNet(KeywordPart("assembly"), Punct(':'));
      NeutralBalanced(SpacePart());
      BalancedConcat([KeywordPart("assembly"), Punct(':')], [SpacePart()]);
      NeutralThree(KeywordPart("assembly"), Punct(':'), SpacePart());
    } else {
      assert After(Zero, []) == Zero;
    }
  }

  lemma NeutralThree(x: Part, y: Part, z: Part)
    ensures [x, y] + [z] == [x, y, z]
  {
  }

  lemma ItemBalanced(a: AttributeData, opts: AttributeOptions)
    requires opts.includeAttributeArguments ==> ArgumentsRenderable(a)
    requires RenderingsBalanced(a.attributeClass) && (opts.includeAttributeArguments ==> ArgumentSymbolsBalanced(a))
    ensures Balanced(AttributeItem(a, opts))
  {
    AttributeClassBalanced(a.attributeClass, opts.naming);
    if opts.includeAttributeArguments {
      ArgumentListBalanced(a, opts.naming);
      BalancedConcat(AttributeClassDisplay(a.attributeClass, opts.naming), ArgumentList(a, opts.naming));
    } else {
      assert AttributeItem(a, opts) == AttributeClassDisplay(a.attributeClass, opts.naming);
    }
  }

  /** `[` target, balanced contents, `]` */
  lemma BracketedBalanced(opts: AttributeOptions, inner: seq<Part>)
    requires Balanced(inner)
    ensures Balanced(Opening(opts) + inner + [Punct(']')])
  {
    AssemblyTargetBalanced(opts);
    BalancedConcat(AssemblyTarget(opts), inner);
    Wrapped(Punct('['), Punct(']'), AssemblyTarget(opts) + inner);
    assert Opening(opts) + inner + [Punct(']')] == [Punct('[')] + (AssemblyTarget(opts) + inner) + [Punct(']')];
  }

  lemma TrailBalanced(opts: AttributeOptions)
    ensures Balanced(if opts.addNewLine then [LineBreakPart()] else [])
    ensures Balanced([LineEnd(opts)])
  {
    NeutralBalanced(LineBreakPart());
    NeutralBalanced(SpacePart());
    assert After(Zero, []) == Zero;
  }

  /** Over balanced symbol renderings the whole list is balanced: every `[` has its `]`. */
  lemma AttributeListBalanced(ordered: seq<AttributeData>, opts: AttributeOptions)
    requires AttributesRenderable(ordered, opts) && AttributeSymbolsBalanced(ordered, opts)
    ensures Balanced(AttributeList(ordered, opts))
  {
    if ordered == [] {
      assert After(Zero, []) == Zero;
      return;
    }
    var xs := AttributeItems(ordered, opts);
    forall i | 0 <= i < |xs|
      ensures Balanced(xs[i])
    {
      assert ordered[i] in ordered;
      ItemBalanced(ordered[i], opts);
    }
    var t := if opts.addNewLine then [LineBreakPart()] else [];
    TrailBalanced(opts);
    if opts.splitAttributes {
      var gs := Groups(ordered, opts);
      forall i | 0 <= i < |gs|
        ensures Balanced(gs[i])
      {
        BracketedBalanced(opts, xs[i]);
      }
      JoinBalanced(gs, [LineEnd(opts)]);
      SplitIsOnePairPerAttribute(ordered, opts);
      BalancedConcat(Join(gs, [LineEnd(opts)]), t);
    } else {
      CommaSpaceBalanced();
      JoinBalanced(xs, CommaSpace());
      BracketedBalanced(opts, Join(xs, CommaSpace()));
      BalancedConcat(Opening(opts) + Join(xs, CommaSpace()) + [Punct(']')], t);
      ClosingSplit(Opening(opts), Join(xs, CommaSpace()), [Punct(']')], t);
    }
  }

  // ---------------------------------------------------------------- building the list

  /**
   * Adds the selected attributes in order. `le` is the host's string order
   * on display strings and `passes` the caller's predicate on attribute classes.
   */
  method AddAttributes(builder: PartBuilder, attributes: seq<AttributeData>, passes: Symbol -> bool,
                       le: (string, string) -> bool, opts: AttributeOptions)
    requires PassingRenderable(attributes, passes, opts)
    modifies builder
    ensures builder.items == old(builder.items) + AttributesParts(attributes, passes, le, opts)
  {
    var ordered := Selected(attributes, passes, le, opts.naming);
    AddAttributeList(builder, ordered, opts);
  }

  /** Adds the list of the already selected and ordered attributes. */
  method AddAttributeList(builder: PartBuilder, ordered: seq<AttributeData>, opts: AttributeOptions)
    requires AttributesRenderable(ordered, opts)
    modifies builder
    ensures builder.items == old(builder.items) + AttributeList(ordered, opts)
  {
    ghost var initial := builder.items;
    if |ordered| == 0 {
      Append3(initial, [], []);
      return;
    }
    ghost var xs := AttributeItems(ordered, opts);
    AddOpening(builder, opts);
    AddItems(builder, ordered, opts, xs);
    AddClosing(builder, opts);
    Append4(initial, Opening(opts), Join(xs, Separator(opts)), Closing(opts));
  }

  /** The attributes with the separators between them, after an opening. */
  method AddItems(builder: PartBuilder, ordered: seq<AttributeData>, opts: AttributeOptions, ghost xs: seq<seq<Part>>)
    requires AttributesRenderable(ordered, opts) && xs == AttributeItems(ordered, opts)
    requires builder.items != [] && builder.items[|builder.items| - 1].kind != ClassName
    modifies builder
    ensures builder.items == old(builder.items) + Join(xs, Separator(opts))
  {
    ghost var start := builder.items;
    var i := 0;
    while i < |ordered|
      invariant 0 <= i <= |ordered|
      invariant builder.items == start + Join(xs[..i], Separator(opts)) + Pending(i, |ordered|, Separator(opts))
      invariant 0 < i < |ordered| ==> builder.items[|builder.items| - 1].kind != ClassName
      decreases |ordered| - i
    {
      assert ordered[i] in ordered;
      AddAttributeAt(builder, ordered[i], opts, i, |ordered|, start, xs);
      i := i + 1;
    }
    assert xs[..i] == xs;
    assert Pending(i, |ordered|, Separator(opts)) == [];
  }

  /** `[`, and `assembly: ` for an assembly attribute. */
  method AddOpening(builder: PartBuilder, opts: AttributeOptions)
    modifies builder
    ensures builder.items == old(builder.items) + Opening(opts)
    ensures builder.items != [] && builder.items[|builder.items| - 1].kind != ClassName
  {
    builder.Add(Punct('['));
    if opts.isAssemblyAttribute {
      builder.Add(KeywordPart("assembly"));
      builder.Add(Punct(':'));
      builder.Add(SpacePart());
    }
  }

  method AddSeparator(builder: PartBuilder, opts: AttributeOptions)
    modifies builder
    ensures builder.items == old(builder.items) + Separator(opts)
    ensures builder.items[|builder.items| - 1].kind != ClassName
  {
    if opts.splitAttributes {
      builder.Add(Punct(']'));
      if opts.addNewLine {
        builder.Add(LineBreakPart());
      } else {
        builder.Add(SpacePart());
      }
      AddOpening(builder, opts);
    } else {
      builder.Add(Punct(','));
      builder.Add(SpacePart());
    }
  }

  method AddClosing(builder: PartBuilder, opts: AttributeOptions)
    modifies builder
    ensures builder.items == old(builder.items) + Closing(opts)
  {
    builder.Add(Punct(']'));
    if opts.addNewLine {
      builder.Add(LineBreakPart());
    }
  }

  /** Adds one attribute: its class without the suffix, then its arguments when they are included. */
  method AddAttribute(builder: PartBuilder, a: AttributeData, opts: AttributeOptions)
    requires opts.includeAttributeArguments ==> ArgumentsRenderable(a)
    requires builder.items != [] && builder.items[|builder.items| - 1].kind != ClassName
    modifies builder
    ensures builder.items == old(builder.items) + AttributeItem(a, opts)
  {
    ghost var before := builder.items;
    AddAttributeClass(builder, a.attributeClass, opts.naming);
    ghost var cls := AttributeClassDisplay(a.attributeClass, opts.naming);
    if opts.includeAttributeArguments {
      AddAttributeArguments(builder, a, opts.naming);
      Append3(before, cls, ArgumentList(a, opts.naming));
    } else {
      Append3(before, cls, []);
    }
  }

  /** The class name, without the `Attribute` suffix. */
  method AddAttributeClass(builder: PartBuilder, symbol: Symbol, naming: Naming)
    requires builder.items != [] && builder.items[|builder.items| - 1].kind != ClassName
    modifies builder
    ensures builder.items == old(builder.items) + AttributeClassDisplay(symbol, naming)
  {
    ghost var before := builder.items;
    AddDisplayParts(builder, symbol, naming, true);
    DisplayedAfterAttribute(before, symbol, naming);
  }

  lemma Append4(w: seq<Part>, x: seq<Part>, y: seq<Part>, z: seq<Part>)
    ensures w + x + y + z == w + (x + y + z)
  {
  }

  lemma Append3(x: seq<Part>, y: seq<Part>, z: seq<Part>)
    ensures x + y + z == x + (y + z) && x + y + [] == x + y
  {
  }

  /** Adds the attribute at `i` of `n` and, when another follows, the separator. */
  method AddAttributeAt(builder: PartBuilder, a: AttributeData, opts: AttributeOptions, i: nat, n: nat,
                        ghost start: seq<Part>, ghost xs: seq<seq<Part>>)
    requires i < n == |xs| && (opts.includeAttributeArguments ==> ArgumentsRenderable(a))
    requires xs[i] == AttributeItem(a, opts)
    requires start != [] && start[|start| - 1].kind != ClassName
    requires builder.items == start + Join(xs[..i], Separator(opts)) + Pending(i, n, Separator(opts))
    requires i > 0 ==> builder.items[|builder.items| - 1].kind != ClassName
    modifies builder
    ensures builder.items == start + Join(xs[..i + 1], Separator(opts)) + Pending(i + 1, n, Separator(opts))
    ensures builder.items[|builder.items| - 1].kind != ClassName || i + 1 == n
  {
    ghost var before := builder.items;
    if i == 0 {
      assert xs[..0] == [];
      assert before == start;
    }
    AddAttribute(builder, a, opts);
    if i + 1 < n {
      AddSeparator(builder, opts);
    }
    ItemStep(start, xs, i, Separator(opts), before, builder.items);
  }

  /** The attribute parts of a symbol, built afresh; none when it has no attributes. */
  method GetAttributesParts(attributes: seq<AttributeData>, passes: Symbol -> bool, le: (string, string) -> bool,
                            opts: AttributeOptions) returns (r: seq<Part>)
    requires PassingRenderable(attributes, passes, opts)
    ensures r == AttributesParts(attributes, passes, le, opts)
  {
    if |attributes| == 0 {
      return [];
    }
    var builder := new PartBuilder([]);
    AddAttributes(builder, attributes, passes, le, opts);
    r := builder.items;
  }

  // ---------------------------------------------------------------- accessors

  datatype MethodKind = EventAdd | EventRemove | PropertyGet | PropertySet | OtherMethodKind

  function AccessorKeyword(kind: MethodKind): string
    requires kind != OtherMethodKind
  {
    match kind
    case EventAdd => "add"
    case EventRemove => "remove"
    case PropertyGet => "get"
    case PropertySet => "set"
  }

  /** The first index at or after `from` holding the keyword, if any. */
  function FirstKeyword(parts: seq<Part>, keyword: string, from: nat): (r: Option<nat>)
    requires from <= |parts|
    ensures r.Some? ==> from <= r.value < |parts| && IsKeyword(parts[r.value], keyword)
    ensures forall j :: from <= j < |parts| && (r.None? || j < r.value) ==> !IsKeyword(parts[j], keyword)
    decreases |parts| - from
  {
    if from == |parts| then None
    else if IsKeyword(parts[from], keyword) then Some(from)
    else FirstKeyword(parts, keyword, from + 1)
  }

  /** `segment` and a space placed before index `i`. */
  function InsertBefore(parts: seq<Part>, i: nat, segment: seq<Part>): (r: seq<Part>)
    requires i <= |parts|
    ensures |r| == |parts| + |segment| + 1
    ensures r[..i] == parts[..i] && r[i + |segment| + 1..] == parts[i..]
    ensures r[i..i + |segment|] == segment && r[i + |segment|] == SpacePart()
  {
    var r := parts[..i] + segment + [SpacePart()] + parts[i..];
    assert r[..i] == parts[..i];
    assert r[i + |segment| + 1..] == parts[i..];
    assert r[i..i + |segment|] == segment;
    r
  }

  /**
   * The accessor's attributes and a space, placed right before the first
   * accessor keyword; the parts are unchanged when there are no attributes or
   * no such keyword.
   */
  function WithAccessorAttributes(parts: seq<Part>, attributeParts: seq<Part>, kind: MethodKind): (r: seq<Part>)
    requires attributeParts != [] ==> kind != OtherMethodKind
    ensures attributeParts == [] ==> r == parts
  {
    if attributeParts == [] then parts
    else
      match FirstKeyword(parts, AccessorKeyword(kind), 0)
      case None => parts
      case Some(i) => InsertBefore(parts, i, attributeParts)
  }

  /** With attributes to place, the parts are unchanged exactly when there is no accessor keyword. */
  lemma AccessorAttributesUnchanged(parts: seq<Part>, attributeParts: seq<Part>, kind: MethodKind)
    requires attributeParts != [] && kind != OtherMethodKind
    ensures WithAccessorAttributes(parts, attributeParts, kind) == parts
        <==> FirstKeyword(parts, AccessorKeyword(kind), 0).None?
  {
    var found := FirstKeyword(parts, AccessorKeyword(kind), 0);
    if found.Some? {
      assert |InsertBefore(parts, found.value, attributeParts)| != |parts|;
    }
  }

  /**
   * Otherwise the attributes and a space sit right before the first accessor
   * keyword, and taking them out again gives the parts back.
   */
  lemma AccessorAttributesBeforeKeyword(parts: seq<Part>, attributeParts: seq<Part>, kind: MethodKind, i: nat)
    requires attributeParts != [] && kind != OtherMethodKind
    requires FirstKeyword(parts, AccessorKeyword(kind), 0) == Some(i)
    ensures var r, m := WithAccessorAttributes(parts, attributeParts, kind), |attributeParts|;
      r[..i] + r[i + m + 1..] == parts
      && r[i..i + m] == attributeParts && r[i + m] == SpacePart()
      && IsKeyword(r[i + m + 1], AccessorKeyword(kind))
      && forall j :: 0 <= j < i ==> !IsKeyword(r[j], AccessorKeyword(kind))
  {
    var m := |attributeParts|;
    var r := InsertBefore(parts, i, attributeParts);
    assert parts[..i] + parts[i..] == parts;
    assert r[i + m + 1] == parts[i] by {
      assert r[i + m + 1..][0] == parts[i..][0];
    }
    forall j | 0 <= j < i
      ensures !IsKeyword(r[j], AccessorKeyword(kind))
    {
      assert r[j] == r[..i][j];
    }
  }

  /**
   * Renders the accessor's attributes (never split onto lines of their own)
   * and places them in front of its keyword.
   */
  method AddAccessorAttributes(parts: seq<Part>, kind: MethodKind, attributes: seq<AttributeData>,
                               passes: Symbol -> bool, le: (string, string) -> bool, naming: Naming,
                               splitAttributes: bool, includeAttributeArguments: bool) returns (r: seq<Part>)
    requires kind == OtherMethodKind ==> forall a :: a in attributes ==> !passes(a.attributeClass)
    requires includeAttributeArguments ==>
      forall a :: a in attributes && passes(a.attributeClass) ==> ArgumentsRenderable(a)
    ensures var opts := AttributeOptions(naming, splitAttributes, includeAttributeArguments, false, false);
      r == AccessorWithAttributes(parts, kind, attributes, passes, le, opts)
  {
    var opts := AttributeOptions(naming, splitAttributes, includeAttributeArguments, false, false);
    var attributeParts := GetAttributesParts(attributes, passes, le, opts);
    NothingUnlessOnePasses(attributes, passes, le, opts);
    r := PlaceAccessorAttributes(parts, attributeParts, kind);
  }

  /** The accessor's parts with its attribute rendering placed in front of its keyword. */
  function AccessorWithAttributes(parts: seq<Part>, kind: MethodKind, attributes: seq<AttributeData>,
                                  passes: Symbol -> bool, le: (string, string) -> bool, opts: AttributeOptions): seq<Part>
    requires PassingRenderable(attributes, passes, opts)
    requires kind == OtherMethodKind ==> forall a :: a in attributes ==> !passes(a.attributeClass)
  {
    NothingUnlessOnePasses(attributes, passes, le, opts);
    WithAccessorAttributes(parts, AttributesParts(attributes, passes, le, opts), kind)
  }

  /** Inserts a space and then the attributes at the first accessor keyword. */
  method PlaceAccessorAttributes(parts: seq<Part>, attributeParts: seq<Part>, kind: MethodKind) returns (r: seq<Part>)
    requires attributeParts != [] ==> kind != OtherMethodKind
    ensures r == WithAccessorAttributes(parts, attributeParts, kind)
  {
    r := parts;
    if |attributeParts| > 0 {
      var keyword := AccessorKeyword(kind);
      var found := FirstKeyword(parts, keyword, 0);
      if found.Some? {
        var index := found.value;
        r := r[..index] + [SpacePart()] + r[index..];
        r := r[..index] + attributeParts + r[index..];
        InsertedTwice(parts, index, attributeParts);
      }
    }
  }

  /** Inserting the space and then the segment at the same index is one insertion of both. */
  lemma InsertedTwice(parts: seq<Part>, i: nat, segment: seq<Part>)
    requires i <= |parts|
    ensures var spaced := parts[..i] + [SpacePart()] + parts[i..];
      spaced[..i] + segment + spaced[i..] == InsertBefore(parts, i, segment)
  {
    var spaced := parts[..i] + [SpacePart()] + parts[i..];
    assert spaced[..i] == parts[..i];
    assert spaced[i..] == [SpacePart()] + parts[i..];
  }
}

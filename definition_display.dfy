/**
 * The definition display of a symbol: its attributes, then its declaration
 * with the base list spliced in before the constraint clauses, the
 * constraint clauses with their named types rendered in the namespace style,
 * and finally the multi-line parameter layout and the `default` literal
 * rewrite.
 */
module DefinitionDisplay {
  import opened Wrappers
  import opened DisplayParts
  import opened Sorting
  import opened SymbolDisplay
  import opened AttributeDisplay
  import opened ParameterList
  import opened ParameterFormatting
  import opened ParameterBreaks
  import opened DefaultLiteral

  /** A part of the host's rendering of the declaration; `namedType` is the named type a type-name part stands for. */
  datatype SourcePart = SourcePart(part: Part, namedType: Option<Symbol>)

  /** A base interface, with what the ordering and the `IEnumerable` rule need to know of it. */
  datatype Interface = Interface(symbol: Symbol, namespaceName: string, isGenericEnumerable: bool, isEnumerable: bool)

  /**
   * What a named type brings to its base list: whether it is a class or an
   * interface, its base type (and whether that is `object`), its interfaces.
   */
  datatype TypeShape = TypeShape(isClassOrInterface: bool, baseType: Option<Symbol>, baseIsObject: bool, interfaces: seq<Interface>)

  /** The symbol being displayed, as the host describes it. */
  datatype Definition = Definition(
    kind: SymbolKind, parts: seq<SourcePart>, shape: Option<TypeShape>,
    attributes: seq<AttributeData>, isVisibleAttribute: Option<Symbol -> bool>,
    parameterCount: nat, hasExplicitDefaultValue: bool)

  /**
   * The switches of a definition display. `indentation` is the text of the
   * host's default indentation part (base list and clause breaks),
   * `indentChars` the default indentation of the parameter layout, and
   * `compareStrings` the host's order on attribute display strings.
   */
  datatype DefinitionOptions = DefinitionOptions(
    naming: Naming, formatBaseList: bool, formatConstraints: bool, formatParameters: bool,
    splitAttributes: bool, includeAttributeArguments: bool, omitIEnumerable: bool, useDefaultLiteral: bool,
    indentation: string, indentChars: string, compareStrings: (string, string) -> bool)

  function Plain(ps: seq<SourcePart>): (r: seq<Part>)
    ensures |r| == |ps| && forall i :: 0 <= i < |ps| ==> r[i] == ps[i].part
  {
    seq(|ps|, i requires 0 <= i < |ps| => ps[i].part)
  }

  // ---------------------------------------------------------------- constraint clauses

  predicate IsWhere(p: SourcePart)
  {
    IsKeyword(p.part, "where")
  }

  /** The index of the first `where` keyword, or -1 when there is none. */
  function FirstWhere(ps: seq<SourcePart>): (r: int)
    ensures r == -1 || (0 <= r < |ps| && IsWhere(ps[r]))
    ensures forall j :: 0 <= j < |ps| && (r == -1 || j < r) ==> !IsWhere(ps[j])
    decreases |ps|
  {
    if ps == [] then -1
    else
      var front := ps[..|ps| - 1];
      var f := FirstWhere(front);
      assert forall j :: 0 <= j < |front| ==> front[j] == ps[j];
      if f != -1 then f else if IsWhere(ps[|ps| - 1]) then |ps| - 1 else -1
  }

  /** The number of `where` keywords: one per constraint clause. */
  function WhereCount(ps: seq<SourcePart>): nat
    decreases |ps|
  {
    if ps == [] then 0 else WhereCount(ps[..|ps| - 1]) + (if IsWhere(ps[|ps| - 1]) then 1 else 0)
  }

  /** There is a first `where` exactly when there is at least one constraint clause. */
  lemma {:induction false} FirstWhereIffConstraints(ps: seq<SourcePart>)
    ensures FirstWhere(ps) == -1 <==> WhereCount(ps) == 0
    decreases |ps|
  {
    if ps != [] {
      FirstWhereIffConstraints(ps[..|ps| - 1]);
    }
  }

  /** The scan for the first `where` keyword and the number of them. */
  method FindConstraints(ps: seq<SourcePart>) returns (whereIndex: int, constraintCount: nat)
    ensures whereIndex == FirstWhere(ps) && constraintCount == WhereCount(ps)
  {
    whereIndex := -1;
    constraintCount := 0;
    var i := 0;
    while i < |ps|
      invariant 0 <= i <= |ps|
      invariant whereIndex == FirstWhere(ps[..i]) && constraintCount == WhereCount(ps[..i])
      decreases |ps| - i
    {
      assert ps[..i + 1][..i] == ps[..i];
      if IsKeyword(ps[i].part, "where") {
        if whereIndex == -1 {
          whereIndex := i;
        }
        constraintCount := constraintCount + 1;
      }
      i := i + 1;
    }
    assert ps[..i] == ps;
  }

  /** How the clauses are laid out: on lines of their own or not, and the naming style of their types. */
  datatype ClauseLayout = ClauseLayout(breakLines: bool, naming: Naming, indentation: string)

  /**
   * One part of a constraint clause: a `where` keyword, preceded by a line
   * break and an indentation when clauses go on lines of their own; a named
   * type rendered in the namespace style; anything else as it is.
   */
  function ConstraintPart(p: SourcePart, layout: ClauseLayout): seq<Part>
  {
    if IsWhere(p) then (if layout.breakLines then [LineBreakPart(), IndentationPart(layout.indentation)] else []) + [p.part]
    else if p.namedType.Some? then Display(p.namedType.value, layout.naming)
    else [p.part]
  }

  /** The clauses rendered from part `w` up to (not including) part `i`. */
  function Constraints(ps: seq<SourcePart>, w: nat, i: nat, layout: ClauseLayout): seq<Part>
    requires w <= i <= |ps|
    decreases i
  {
    if i == w then [] else Constraints(ps, w, i - 1, layout) + ConstraintPart(ps[i - 1], layout)
  }

  /** Without named types and line breaks the constraint clauses come out exactly as the host rendered them. */
  lemma {:induction false} ConstraintsUnchanged(ps: seq<SourcePart>, w: nat, i: nat, naming: Naming, indentation: string)
    requires w <= i <= |ps|
    requires forall j :: w <= j < i ==> ps[j].namedType.None?
    ensures Constraints(ps, w, i, ClauseLayout(false, naming, indentation)) == Plain(ps)[w..i]
    decreases i
  {
    if i > w {
      ConstraintsUnchanged(ps, w, i - 1, naming, indentation);
      ConstraintPartPlain(ps[i - 1], naming, indentation);
      SliceSnoc(Plain(ps), w, i);
    }
  }

  /** A part without a named type, with no line breaks, is rendered as itself. */
  lemma ConstraintPartPlain(p: SourcePart, naming: Naming, indentation: string)
    requires p.namedType.None?
    ensures ConstraintPart(p, ClauseLayout(false, naming, indentation)) == [p.part]
  {
    assert [] + [p.part] == [p.part];
  }

  lemma SliceSnoc<T>(s: seq<T>, w: nat, i: nat)
    requires w < i <= |s|
    ensures s[w..i] == s[w..i - 1] + [s[i - 1]]
  {
  }

  /** Adds the clauses from `whereIndex` on. */
  method AddConstraints(builder: PartBuilder, ps: seq<SourcePart>, whereIndex: nat, layout: ClauseLayout)
    requires whereIndex <= |ps|
    modifies builder
    ensures builder.items == old(builder.items) + Constraints(ps, whereIndex, |ps|, layout)
  {
    ghost var start := builder.items;
    var i := whereIndex;
    while i < |ps|
      invariant whereIndex <= i <= |ps|
      invariant builder.items == start + Constraints(ps, whereIndex, i, layout)
      decreases |ps| - i
    {
      AddConstraintAt(builder, ps, whereIndex, i, layout, start);
      i := i + 1;
    }
  }

  method AddConstraintAt(builder: PartBuilder, ps: seq<SourcePart>, whereIndex: nat, i: nat, layout: ClauseLayout, ghost start: seq<Part>)
    requires whereIndex <= i < |ps|
    requires builder.items == start + Constraints(ps, whereIndex, i, layout)
    modifies builder
    ensures builder.items == start + Constraints(ps, whereIndex, i + 1, layout)
  {
    ghost var done := Constraints(ps, whereIndex, i, layout);
    AddConstraintPart(builder, ps[i], layout);
    Append3(start, done, ConstraintPart(ps[i], layout));
  }

  method AddConstraintPart(builder: PartBuilder, p: SourcePart, layout: ClauseLayout)
    modifies builder
    ensures builder.items == old(builder.items) + ConstraintPart(p, layout)
  {
    if IsKeyword(p.part, "where") {
      ghost var before := builder.items;
      if layout.breakLines {
        builder.Add(LineBreakPart());
        builder.Add(IndentationPart(layout.indentation));
      }
      builder.Add(p.part);
    } else if p.namedType.Some? {
      ghost var before := builder.items;
      AddDisplayParts(builder, p.namedType.value, layout.naming, false);
      DisplayedAfterPlain(before, p.namedType.value, layout.naming);
    } else {
      builder.Add(p.part);
    }
  }

  // ---------------------------------------------------------------- base list

  /** The base type shown: a class's or an interface's, unless it is `object`. */
  function ListedBaseType(t: TypeShape): Option<Symbol>
  {
    if t.isClassOrInterface && t.baseType.Some? && !t.baseIsObject then t.baseType else None
  }

  predicate HasGenericEnumerable(xs: seq<Interface>)
  {
    exists i :: 0 <= i < |xs| && xs[i].isGenericEnumerable
  }

  function WithoutEnumerable(xs: seq<Interface>): (r: seq<Interface>)
    ensures forall x :: x in r <==> x in xs && !x.isEnumerable
    decreases |xs|
  {
    if xs == [] then []
    else (if xs[0].isEnumerable then [] else [xs[0]]) + WithoutEnumerable(xs[1..])
  }

  /**
   * The interfaces shown: all of them, except that the non-generic
   * `IEnumerable` is dropped when asked to and a generic `IEnumerable<T>` is there.
   */
  function ListedInterfaces(t: TypeShape, omitIEnumerable: bool): (r: seq<Interface>)
    ensures forall x :: x in r <==>
      x in t.interfaces && !(omitIEnumerable && HasGenericEnumerable(t.interfaces) && x.isEnumerable)
  {
    if omitIEnumerable && HasGenericEnumerable(t.interfaces) then WithoutEnumerable(t.interfaces) else t.interfaces
  }

  /** `a` is no greater than `b` comparing character by character (ordinal order). */
  predicate OrdinalLe(a: string, b: string)
    decreases |a|
  {
    a == [] || (b != [] && (a[0] < b[0] || (a[0] == b[0] && OrdinalLe(a[1..], b[1..]))))
  }

  lemma {:induction false} OrdinalTotal(a: string, b: string)
    ensures OrdinalLe(a, b) || OrdinalLe(b, a)
    decreases |a|
  {
    if a != [] && b != [] && a[0] == b[0] {
      OrdinalTotal(a[1..], b[1..]);
    }
  }

  lemma {:induction false} OrdinalTransitive(a: string, b: string, c: string)
    requires OrdinalLe(a, b) && OrdinalLe(b, c)
    ensures OrdinalLe(a, c)
    decreases |a|
  {
    if a != [] && a[0] == b[0] && b[0] == c[0] {
      OrdinalTransitive(a[1..], b[1..], c[1..]);
    }
  }

  lemma {:induction false} OrdinalAntisymmetric(a: string, b: string)
    requires OrdinalLe(a, b) && OrdinalLe(b, a)
    ensures a == b
    decreases |a|
  {
    if a != [] {
      OrdinalAntisymmetric(a[1..], b[1..]);
      assert a == [a[0]] + a[1..] && b == [b[0]] + b[1..];
    }
  }

  /** Interfaces of different namespaces go by namespace name, the others by display string, both ordinally. */
  predicate InterfaceLe(x: Interface, y: Interface, naming: Naming)
  {
    if x.namespaceName != y.namespaceName then OrdinalLe(x.namespaceName, y.namespaceName)
    else OrdinalLe(Text(Display(x.symbol, naming)), Text(Display(y.symbol, naming)))
  }

  function InterfaceOrder(naming: Naming): (Interface, Interface) -> bool
  {
    (x: Interface, y: Interface) => InterfaceLe(x, y, naming)
  }

  lemma InterfaceLeTransitive(x: Interface, y: Interface, z: Interface, naming: Naming)
    requires InterfaceLe(x, y, naming) && InterfaceLe(y, z, naming)
    ensures InterfaceLe(x, z, naming)
  {
    if x.namespaceName == y.namespaceName && y.namespaceName == z.namespaceName {
      OrdinalTransitive(Text(Display(x.symbol, naming)), Text(Display(y.symbol, naming)), Text(Display(z.symbol, naming)));
    } else if x.namespaceName != y.namespaceName && y.namespaceName != z.namespaceName {
      OrdinalTransitive(x.namespaceName, y.namespaceName, z.namespaceName);
      if x.namespaceName == z.namespaceName {
        OrdinalAntisymmetric(x.namespaceName, y.namespaceName);
      }
    }
  }

  lemma InterfaceOrderTotal(naming: Naming)
    ensures TotalPreorder(InterfaceOrder(naming))
  {
    var order := InterfaceOrder(naming);
    forall x, y
      ensures order(x, y) || order(y, x)
    {
      OrdinalTotal(x.namespaceName, y.namespaceName);
      OrdinalTotal(Text(Display(x.symbol, naming)), Text(Display(y.symbol, naming)));
    }
    forall x, y, z | order(x, y) && order(y, z)
      ensures order(x, z)
    {
      InterfaceLeTransitive(x, y, z, naming);
    }
  }

  /** The interfaces shown, in the order they are shown in. */
  function OrderedInterfaces(t: TypeShape, omitIEnumerable: bool, naming: Naming): seq<Interface>
  {
    SortBy(ListedInterfaces(t, omitIEnumerable), InterfaceOrder(naming))
  }

  /** The base interfaces come out ordered, and they are exactly the ones listed. */
  lemma InterfacesInOrder(t: TypeShape, omitIEnumerable: bool, naming: Naming)
    ensures var r := OrderedInterfaces(t, omitIEnumerable, naming);
      (forall i, j :: 0 <= i < j < |r| ==> InterfaceLe(r[i], r[j], naming))
      && |r| == |ListedInterfaces(t, omitIEnumerable)|
      && forall x :: x in r <==> x in ListedInterfaces(t, omitIEnumerable)
  {
    var listed := ListedInterfaces(t, omitIEnumerable);
    InterfaceOrderTotal(naming);
    SortBySorted(listed, InterfaceOrder(naming));
    SortByMembers(listed, InterfaceOrder(naming));
    var r := OrderedInterfaces(t, omitIEnumerable, naming);
    forall i, j | 0 <= i < j < |r|
      ensures InterfaceLe(r[i], r[j], naming)
    {
      assert InterfaceOrder(naming)(r[i], r[j]);
    }
  }

  /** How many entries the base list has: the interfaces shown, and the base type when it is shown. */
  function BaseListCount(shape: Option<TypeShape>, omitIEnumerable: bool): nat
  {
    match shape
    case None => 0
    case Some(t) => |ListedInterfaces(t, omitIEnumerable)| + (if ListedBaseType(t).Some? then 1 else 0)
  }

  /** Between two entries of the base list: `,` and a space, or a line break and an indentation. */
  function BaseSeparator(opts: DefinitionOptions): seq<Part>
  {
    [Punct(',')] + (if opts.formatBaseList then [LineBreakPart(), IndentationPart(opts.indentation)] else [SpacePart()])
  }

  function InterfaceItems(ifaces: seq<Interface>, naming: Naming): (xs: seq<seq<Part>>)
    ensures |xs| == |ifaces| && forall i :: 0 <= i < |ifaces| ==> xs[i] == Display(ifaces[i].symbol, naming)
  {
    seq(|ifaces|, i requires 0 <= i < |ifaces| => Display(ifaces[i].symbol, naming))
  }

  /** The entries of the base list: the base type first, then the interfaces. */
  function BaseItems(baseType: Option<Symbol>, ifaces: seq<Interface>, naming: Naming): (xs: seq<seq<Part>>)
    ensures |xs| == |ifaces| + (if baseType.Some? then 1 else 0)
  {
    (if baseType.Some? then [Display(baseType.value, naming)] else []) + InterfaceItems(ifaces, naming)
  }

  /** The entries shown number exactly as many as the count the layout decisions use. */
  lemma BaseListEntries(t: TypeShape, opts: DefinitionOptions)
    ensures |BaseItems(ListedBaseType(t), OrderedInterfaces(t, opts.omitIEnumerable, opts.naming), opts.naming)|
         == BaseListCount(Some(t), opts.omitIEnumerable)
  {
    SortByMembers(ListedInterfaces(t, opts.omitIEnumerable), InterfaceOrder(opts.naming));
  }

  /** The declaration in front of the constraint clauses (all of it when there are none). */
  function Declaration(ps: seq<SourcePart>, whereIndex: int): seq<Part>
    requires whereIndex == -1 || 0 <= whereIndex <= |ps|
  {
    if whereIndex == -1 then Plain(ps) else Plain(ps[..whereIndex])
  }

  function Colon(): seq<Part>
  {
    [Punct(':'), SpacePart()]
  }

  /** Whether the clauses go on lines of their own: only when formatted and more than one entry or clause. */
  function BreakConstraints(opts: DefinitionOptions, baseListCount: nat, constraintCount: nat): bool
  {
    opts.formatConstraints && (baseListCount > 1 || constraintCount > 1)
  }

  function ClauseLayoutOf(opts: DefinitionOptions, baseListCount: nat, constraintCount: nat): ClauseLayout
  {
    ClauseLayout(BreakConstraints(opts, baseListCount, constraintCount), opts.naming, opts.indentation)
  }

  /**
   * The declaration with its base list: `: ` and the entries, after the
   * declaration (and a space when it has no clauses), and a space before the
   * first clause unless that clause goes on a line of its own.
   */
  function BaseListSection(ps: seq<SourcePart>, whereIndex: int, constraintCount: nat, items: seq<seq<Part>>,
                           opts: DefinitionOptions): seq<Part>
    requires whereIndex == -1 || 0 <= whereIndex <= |ps|
  {
    Declaration(ps, whereIndex) + (if whereIndex == -1 then [SpacePart()] else []) + Colon()
    + Join(items, BaseSeparator(opts))
    + (if whereIndex != -1 && (!opts.formatConstraints || (|items| == 1 && constraintCount == 1)) then [SpacePart()] else [])
  }

  /** The separator is added exactly when the entries are not the last: the layout the clause spacing relies on. */
  lemma SpaceBeforeClausesUnlessBroken(ps: seq<SourcePart>, whereIndex: int, constraintCount: nat,
                                       items: seq<seq<Part>>, opts: DefinitionOptions)
    requires 0 <= whereIndex <= |ps| && items != [] && constraintCount >= 1
    ensures var s := BaseListSection(ps, whereIndex, constraintCount, items, opts);
      s[|s| - 1] == SpacePart() || BreakConstraints(opts, |items|, constraintCount)
  {
  }

  method AddSymbolDisplay(builder: PartBuilder, symbol: Symbol, naming: Naming)
    modifies builder
    ensures builder.items == old(builder.items) + Display(symbol, naming)
  {
    ghost var before := builder.items;
    AddDisplayParts(builder, symbol, naming, false);
    DisplayedAfterPlain(before, symbol, naming);
  }

  method AddBaseSeparator(builder: PartBuilder, opts: DefinitionOptions)
    modifies builder
    ensures builder.items == old(builder.items) + BaseSeparator(opts)
  {
    builder.Add(Punct(','));
    if opts.formatBaseList {
      builder.Add(LineBreakPart());
      builder.Add(IndentationPart(opts.indentation));
    } else {
      builder.Add(SpacePart());
    }
  }

  /** Adds entry `k` of `n`, and the separator when another follows. */
  method AddBaseEntryAt(builder: PartBuilder, symbol: Symbol, opts: DefinitionOptions, k: nat, n: nat,
                        ghost start: seq<Part>, ghost xs: seq<seq<Part>>)
    requires n == |xs| && k < n && xs[k] == Display(symbol, opts.naming)
    requires builder.items == start + Join(xs[..k], BaseSeparator(opts)) + Pending(k, n, BaseSeparator(opts))
    modifies builder
    ensures builder.items == start + Join(xs[..k + 1], BaseSeparator(opts)) + Pending(k + 1, n, BaseSeparator(opts))
  {
    ghost var before := builder.items;
    AddSymbolDisplay(builder, symbol, opts.naming);
    if k + 1 < n {
      AddBaseSeparator(builder, opts);
    }
    ItemStep(start, xs, k, BaseSeparator(opts), before, builder.items);
  }

  /** The base type, then the interfaces, each separated from the next. */
  method AddBaseList(builder: PartBuilder, baseType: Option<Symbol>, ifaces: seq<Interface>, opts: DefinitionOptions)
    modifies builder
    ensures builder.items == old(builder.items) + Join(BaseItems(baseType, ifaces, opts.naming), BaseSeparator(opts))
  {
    ghost var xs := BaseItems(baseType, ifaces, opts.naming);
    ghost var start := builder.items;
    var offset := if baseType.Some? then 1 else 0;
    var n := |ifaces| + offset;
    assert builder.items == start + Join(xs[..0], BaseSeparator(opts)) + Pending(0, n, BaseSeparator(opts));
    if baseType.Some? {
      assert xs[0] == Display(baseType.value, opts.naming);
      AddBaseEntryAt(builder, baseType.value, opts, 0, n, start, xs);
    }
    AddInterfaces(builder, baseType, ifaces, opts, offset, n, start, xs);
  }

  /** The interfaces, after the base type (if any) and its separator are in place. */
  method AddInterfaces(builder: PartBuilder, baseType: Option<Symbol>, ifaces: seq<Interface>, opts: DefinitionOptions,
                       offset: nat, n: nat, ghost start: seq<Part>, ghost xs: seq<seq<Part>>)
    requires xs == BaseItems(baseType, ifaces, opts.naming)
    requires offset == (if baseType.Some? then 1 else 0) && n == offset + |ifaces|
    requires builder.items == start + Join(xs[..offset], BaseSeparator(opts)) + Pending(offset, n, BaseSeparator(opts))
    modifies builder
    ensures builder.items == start + Join(xs, BaseSeparator(opts))
  {
    var k := offset;
    while k < n
      invariant offset <= k <= n && n == |xs|
      invariant builder.items == start + Join(xs[..k], BaseSeparator(opts)) + Pending(k, n, BaseSeparator(opts))
      decreases n - k
    {
      InterfaceItemAt(baseType, ifaces, opts.naming, offset, k);
      AddBaseEntryAt(builder, ifaces[k - offset].symbol, opts, k, n, start, xs);
      k := k + 1;
    }
    assert xs[..k] == xs;
  }

  lemma InterfaceItemAt(baseType: Option<Symbol>, ifaces: seq<Interface>, naming: Naming, offset: nat, k: nat)
    requires offset == (if baseType.Some? then 1 else 0) && offset <= k < offset + |ifaces|
    ensures BaseItems(baseType, ifaces, naming)[k] == Display(ifaces[k - offset].symbol, naming)
  {
  }

  method AddBaseListSection(builder: PartBuilder, ps: seq<SourcePart>, whereIndex: int, constraintCount: nat,
                            baseType: Option<Symbol>, ifaces: seq<Interface>, opts: DefinitionOptions)
    requires whereIndex == -1 || 0 <= whereIndex <= |ps|
    modifies builder
    ensures builder.items == old(builder.items)
      + BaseListSection(ps, whereIndex, constraintCount, BaseItems(baseType, ifaces, opts.naming), opts)
  {
    ghost var initial := builder.items;
    ghost var items := BaseItems(baseType, ifaces, opts.naming);
    var baseListCount := |ifaces| + (if baseType.Some? then 1 else 0);
    ghost var lead := Declaration(ps, whereIndex) + (if whereIndex == -1 then [SpacePart()] else []);
    if whereIndex != -1 {
      builder.AddRange(Plain(ps[..whereIndex]));
    } else {
      builder.AddRange(Plain(ps));
      builder.Add(SpacePart());
    }
    builder.Add(Punct(':'));
    builder.Add(SpacePart());
    ghost var head := builder.items;
    assert head == initial + (lead + Colon());
    AddBaseList(builder, baseType, ifaces, opts);
    ghost var body := Join(items, BaseSeparator(opts));
    ghost var tail: seq<Part> := [];
    if whereIndex != -1 && (!opts.formatConstraints || (baseListCount == 1 && constraintCount == 1)) {
      builder.Add(SpacePart());
      tail := [SpacePart()];
    }
    Append4(initial, lead + Colon(), body, tail);
  }

  // ---------------------------------------------------------------- assembly

  function AttributeOptionsOf(opts: DefinitionOptions): AttributeOptions
  {
    AttributeOptions(opts.naming, opts.splitAttributes, opts.includeAttributeArguments, false, true)
  }

  /** With a visibility predicate, every visible attribute's arguments can be rendered when they are included. */
  predicate DefinitionRenderable(def: Definition, opts: DefinitionOptions)
  {
    def.isVisibleAttribute.Some? ==>
      PassingRenderable(def.attributes, def.isVisibleAttribute.value, AttributeOptionsOf(opts))
  }

  function AnyPasses(attributes: seq<AttributeData>, passes: Symbol -> bool): (b: bool)
    ensures b <==> exists a :: a in attributes && passes(a.attributeClass)
    decreases |attributes|
  {
    if attributes == [] then false
    else passes(attributes[0].attributeClass) || AnyPasses(attributes[1..], passes)
  }

  predicate HasAttributes(def: Definition)
  {
    def.isVisibleAttribute.Some? && AnyPasses(def.attributes, def.isVisibleAttribute.value)
  }

  /** The attribute lines in front of the declaration; none without a visibility predicate. */
  function Attributes(def: Definition, opts: DefinitionOptions): seq<Part>
    requires DefinitionRenderable(def, opts)
  {
    match def.isVisibleAttribute
    case None => []
    case Some(passes) => AttributesParts(def.attributes, passes, opts.compareStrings, AttributeOptionsOf(opts))
  }

  /** The attribute lines are there exactly when an attribute is visible. */
  lemma AttributesIffVisible(def: Definition, opts: DefinitionOptions)
    requires DefinitionRenderable(def, opts)
    ensures Attributes(def, opts) != [] <==> HasAttributes(def)
  {
    if def.isVisibleAttribute.Some? {
      NothingUnlessOnePasses(def.attributes, def.isVisibleAttribute.value, opts.compareStrings, AttributeOptionsOf(opts));
    }
  }

  function ShownBaseType(def: Definition): Option<Symbol>
  {
    if def.shape.Some? then ListedBaseType(def.shape.value) else None
  }

  function ShownInterfaces(def: Definition, opts: DefinitionOptions): seq<Interface>
  {
    if def.shape.Some? then OrderedInterfaces(def.shape.value, opts.omitIEnumerable, opts.naming) else []
  }

  /** The declaration with base list and constraint clauses, before the parameter layout. */
  function Body(def: Definition, opts: DefinitionOptions): seq<Part>
  {
    var ps := def.parts;
    var w, c := FirstWhere(ps), WhereCount(ps);
    var n := BaseListCount(def.shape, opts.omitIEnumerable);
    (if n > 0 then BaseListSection(ps, w, c, BaseItems(ShownBaseType(def), ShownInterfaces(def, opts), opts.naming), opts)
     else Declaration(ps, w))
    + (if w == -1 then [] else Constraints(ps, w, |ps|, ClauseLayoutOf(opts, n, c)))
  }

  /** The attribute lines, then the body. */
  function Unformatted(def: Definition, opts: DefinitionOptions): seq<Part>
    requires DefinitionRenderable(def, opts)
  {
    Attributes(def, opts) + Body(def, opts)
  }

  /** The parameter layout when there is more than one parameter, then the `default` literals when one has a default. */
  function Finished(kind: SymbolKind, a: seq<Part>, opts: DefinitionOptions, parameterCount: nat, hasExplicitDefaultValue: bool): seq<Part>
  {
    var f := if opts.formatParameters && parameterCount > 1 then Formatted(kind, a, opts.indentChars) else a;
    if opts.useDefaultLiteral && hasExplicitDefaultValue then WithDefaultLiterals(kind, f) else f
  }

  /** Finished with the corrected parameter layout, whose scan starts at the opener. */
  function FinishedFromOpener(kind: SymbolKind, a: seq<Part>, opts: DefinitionOptions, parameterCount: nat, hasExplicitDefaultValue: bool): seq<Part>
  {
    var f := if opts.formatParameters && parameterCount > 1 then FormattedFromOpener(kind, a, opts.indentChars) else a;
    if opts.useDefaultLiteral && hasExplicitDefaultValue then WithDefaultLiterals(kind, f) else f
  }

  /**
   * The display as written and the corrected one agree when nothing in front
   * of the parameter-list opener, past the first part, is a comma or a closing
   * bracket and the brackets there are balanced, as when no attribute is shown.
   */
  lemma FinishedAgrees(kind: SymbolKind, a: seq<Part>, opts: DefinitionOptions, parameterCount: nat, hasExplicitDefaultValue: bool)
    requires 1 <= ListStart(kind, a)
    requires OnlyCounted(a[1..ListStart(kind, a)]) && Balanced(a[1..ListStart(kind, a)])
    ensures Finished(kind, a, opts, parameterCount, hasExplicitDefaultValue)
         == FinishedFromOpener(kind, a, opts, parameterCount, hasExplicitDefaultValue)
  {
    AsWrittenAgreesWithCorrected(kind, a, opts.indentChars);
  }

  /** Attributes, then the body, then the parameter layout and the `default` literals when asked for. */
  function Assembled(def: Definition, opts: DefinitionOptions): seq<Part>
    requires DefinitionRenderable(def, opts)
  {
    Finished(def.kind, Unformatted(def, opts), opts, def.parameterCount, def.hasExplicitDefaultValue)
  }

  /** Nothing to add: no visible attribute, no base list, no clause, no parameters to lay out or rewrite. */
  predicate NothingToAdd(def: Definition, opts: DefinitionOptions)
  {
    && !HasAttributes(def)
    && BaseListCount(def.shape, opts.omitIEnumerable) == 0
    && WhereCount(def.parts) == 0
    && (!opts.formatParameters || def.parameterCount <= 1)
    && (!opts.useDefaultLiteral || !def.hasExplicitDefaultValue)
  }

  /** The definition display: the host's rendering as it is when there is nothing to add, the assembly otherwise. */
  function DefinitionParts(def: Definition, opts: DefinitionOptions): seq<Part>
    requires DefinitionRenderable(def, opts)
  {
    if NothingToAdd(def, opts) then Plain(def.parts) else Assembled(def, opts)
  }

  /** The shortcut is only a shortcut: with nothing to add, the assembly gives back the host's rendering unchanged. */
  lemma ShortcutAgrees(def: Definition, opts: DefinitionOptions)
    requires DefinitionRenderable(def, opts)
    ensures NothingToAdd(def, opts) ==> Assembled(def, opts) == Plain(def.parts)
    ensures DefinitionParts(def, opts) == Assembled(def, opts)
  {
    if NothingToAdd(def, opts) {
      AttributesIffVisible(def, opts);
      FirstWhereIffConstraints(def.parts);
      assert Body(def, opts) == Plain(def.parts);
      assert Attributes(def, opts) + Body(def, opts) == Plain(def.parts);
    }
  }

  /**
   * Without attributes or a base list, and with clauses that name no
   * named type and stay on their line, the body is the host's rendering.
   */
  lemma BodyKeepsPlainDeclaration(def: Definition, opts: DefinitionOptions)
    requires BaseListCount(def.shape, opts.omitIEnumerable) == 0
    requires forall i :: 0 <= i < |def.parts| ==> def.parts[i].namedType.None?
    requires !BreakConstraints(opts, 0, WhereCount(def.parts))
    ensures Body(def, opts) == Plain(def.parts)
  {
    var ps := def.parts;
    var w := FirstWhere(ps);
    if w != -1 {
      var layout := ClauseLayoutOf(opts, 0, WhereCount(ps));
      assert layout == ClauseLayout(false, opts.naming, opts.indentation);
      assert Body(def, opts) == Plain(ps[..w]) + Constraints(ps, w, |ps|, layout);
      ConstraintsUnchanged(ps, w, |ps|, opts.naming, opts.indentation);
      PlainSplit(ps, w);
    }
  }

  lemma PlainSplit(ps: seq<SourcePart>, w: nat)
    requires w <= |ps|
    ensures Plain(ps[..w]) + Plain(ps)[w..|ps|] == Plain(ps)
  {
    assert Plain(ps[..w]) == Plain(ps)[..w];
  }

  /** Adds the declaration with its base list (if any) and its clauses (if any). */
  method AddBody(builder: PartBuilder, def: Definition, opts: DefinitionOptions,
                 whereIndex: int, constraintCount: nat, baseListCount: nat)
    requires whereIndex == FirstWhere(def.parts) && constraintCount == WhereCount(def.parts)
    requires baseListCount == BaseListCount(def.shape, opts.omitIEnumerable)
    modifies builder
    ensures builder.items == old(builder.items) + Body(def, opts)
  {
    var ps := def.parts;
    ghost var initial := builder.items;
    ghost var section: seq<Part>;
    if baseListCount > 0 {
      var baseType := ShownBaseType(def);
      var ifaces := ShownInterfaces(def, opts);
      BaseListEntries(def.shape.value, opts);
      AddBaseListSection(builder, ps, whereIndex, constraintCount, baseType, ifaces, opts);
      section := BaseListSection(ps, whereIndex, constraintCount, BaseItems(baseType, ifaces, opts.naming), opts);
    } else if whereIndex != -1 {
      builder.AddRange(Plain(ps[..whereIndex]));
      section := Declaration(ps, whereIndex);
    } else {
      builder.AddRange(Plain(ps));
      section := Declaration(ps, whereIndex);
    }
    ghost var clauses: seq<Part> := [];
    if whereIndex != -1 {
      AddConstraints(builder, ps, whereIndex, ClauseLayoutOf(opts, baseListCount, constraintCount));
      clauses := Constraints(ps, whereIndex, |ps|, ClauseLayoutOf(opts, baseListCount, constraintCount));
    }
    Append3(initial, section, clauses);
  }

  /**
   * GetDisplayParts: the definition display of a symbol. Attribute classes
   * pass through `isVisibleAttribute`; base lists, constraint clauses and
   * parameters are laid out as the options say.
   */
  method GetDisplayParts(def: Definition, opts: DefinitionOptions) returns (r: seq<Part>)
    requires DefinitionRenderable(def, opts)
    ensures r == DefinitionParts(def, opts)
  {
    var ps := def.parts;
    var hasAttributes := def.isVisibleAttribute.Some? && AnyPasses(def.attributes, def.isVisibleAttribute.value);
    var baseListCount := BaseListCount(def.shape, opts.omitIEnumerable);
    var whereIndex, constraintCount := FindConstraints(ps);
    if !hasAttributes && baseListCount == 0 && constraintCount == 0
      && (!opts.formatParameters || def.parameterCount <= 1)
      && (!opts.useDefaultLiteral || !def.hasExplicitDefaultValue)
    {
      return Plain(ps);
    }
    r := Assemble(def, opts, whereIndex, constraintCount, baseListCount);
  }

  /** The assembly, once the shortcut is not taken. */
  method Assemble(def: Definition, opts: DefinitionOptions, whereIndex: int, constraintCount: nat, baseListCount: nat)
    returns (r: seq<Part>)
    requires DefinitionRenderable(def, opts)
    requires whereIndex == FirstWhere(def.parts) && constraintCount == WhereCount(def.parts)
    requires baseListCount == BaseListCount(def.shape, opts.omitIEnumerable)
    ensures r == Assembled(def, opts)
  {
    var builder := new PartBuilder([]);
    AddUnformatted(builder, def, opts, whereIndex, constraintCount, baseListCount);
    r := Finish(def.kind, builder, opts, def.parameterCount, def.hasExplicitDefaultValue);
  }

  method AddUnformatted(builder: PartBuilder, def: Definition, opts: DefinitionOptions,
                        whereIndex: int, constraintCount: nat, baseListCount: nat)
    requires DefinitionRenderable(def, opts) && builder.items == []
    requires whereIndex == FirstWhere(def.parts) && constraintCount == WhereCount(def.parts)
    requires baseListCount == BaseListCount(def.shape, opts.omitIEnumerable)
    modifies builder
    ensures builder.items == Unformatted(def, opts)
  {
    AddDefinitionAttributes(builder, def, opts);
    ghost var a := Attributes(def, opts);
    ghost var b := Body(def, opts);
    assert builder.items == a by {
      Append3([], a, []);
    }
    AddBody(builder, def, opts, whereIndex, constraintCount, baseListCount);
    assert builder.items == a + b;
  }

  /** Lays out the parameters of what the builder holds and rewrites `default` expressions, as asked. */
  method Finish(kind: SymbolKind, builder: PartBuilder, opts: DefinitionOptions, parameterCount: nat, hasExplicitDefaultValue: bool)
    returns (r: seq<Part>)
    modifies builder
    ensures r == Finished(kind, old(builder.items), opts, parameterCount, hasExplicitDefaultValue)
  {
    if opts.formatParameters && parameterCount > 1 {
      FormatParameters(kind, builder, opts.indentChars);
    }
    if opts.useDefaultLiteral && hasExplicitDefaultValue {
      r := ReplaceDefaultExpressionWithDefaultLiteral(kind, builder.items);
    } else {
      r := builder.items;
    }
  }

  method AddDefinitionAttributes(builder: PartBuilder, def: Definition, opts: DefinitionOptions)
    requires DefinitionRenderable(def, opts)
    modifies builder
    ensures builder.items == old(builder.items) + Attributes(def, opts)
  {
    match def.isVisibleAttribute {
      case None =>
        Append3(builder.items, [], []);
      case Some(passes) =>
        AddAttributes(builder, def.attributes, passes, opts.compareStrings, AttributeOptionsOf(opts));
    }
  }
}

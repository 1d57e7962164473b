/**
 * Rendering an attribute argument value (a typed constant): a primitive
 * literal, an enum value as its flags or as a cast number, `typeof(T)`, or
 * an array `new T[] { v0, v1 }`.
 */
module ConstantDisplay {
  import opened DisplayParts
  import opened SymbolDisplay

  /** The special type of a primitive constant; the rest are not renderable. */
  datatype SpecialType =
    | Boolean | SByte | Byte | Int16 | UInt16 | Int32 | UInt32 | Int64 | UInt64
    | Single | Double | Char | String | OtherSpecialType

  /**
   * A typed constant. `formatted` is the host's literal text for a
   * primitive; `fields` are the enum members whose flags make up the value
   * (none when it is no combination of members) and `value` its number.
   */
  datatype Constant =
    | PrimitiveConstant(special: SpecialType, formatted: string)
    | EnumConstant(enumType: Symbol, fields: seq<Symbol>, value: string)
    | TypeConstant(symbol: Symbol)
    | ArrayConstant(elementType: Symbol, values: seq<Constant>)
    | ErrorConstant

  /** The part kind of a primitive literal: a keyword for a boolean, a number or a string literal otherwise. */
  function LiteralKind(t: SpecialType): (k: PartKind)
    requires t != OtherSpecialType
    ensures k == Keyword <==> t == Boolean
    ensures k == StringLiteral <==> t in {Char, String}
    ensures k in {Keyword, NumericLiteral, StringLiteral}
  {
    match t
    case Boolean => Keyword
    case Char => StringLiteral
    case String => StringLiteral
    case _ => NumericLiteral
  }

  /** A constant the renderer can display: no error constant and no primitive of another special type, at any depth. */
  predicate Renderable(c: Constant)
    decreases c
  {
    match c
    case PrimitiveConstant(t, _) => t != OtherSpecialType
    case EnumConstant(_, _, _) => true
    case TypeConstant(_) => true
    case ArrayConstant(_, values) => forall i :: 0 <= i < |values| ==> Renderable(values[i])
    case ErrorConstant => false
  }

  /** ` | ` between the members of a flags value. */
  function Bar(): seq<Part> { [SpacePart(), Punct('|'), SpacePart()] }

  function ConstantParts(c: Constant, naming: Naming): seq<Part>
    requires Renderable(c)
    decreases c, 1
  {
    match c
    case PrimitiveConstant(t, text) => [Part(LiteralKind(t), text)]
    case EnumConstant(enumType, fields, value) =>
      if fields == [] then [Punct('(')] + Display(enumType, naming) + [Punct(')'), Part(NumericLiteral, value)]
      else Join(FieldItems(fields, naming), Bar())
    case TypeConstant(symbol) => [KeywordPart("typeof"), Punct('(')] + Display(symbol, naming) + [Punct(')')]
    case ArrayConstant(elementType, values) =>
      ArrayHead(elementType, naming) + Join(ValueItems(c, naming), CommaSpace()) + ArrayTail()
  }

  /** `new T[] { ` */
  function ArrayHead(elementType: Symbol, naming: Naming): seq<Part>
  {
    [KeywordPart("new"), SpacePart()] + Display(elementType, naming)
    + [Punct('['), Punct(']')] + [SpacePart(), Punct('{')] + [SpacePart()]
  }

  /** ` }` */
  function ArrayTail(): seq<Part> { [SpacePart(), Punct('}')] }

  function FieldItems(fields: seq<Symbol>, naming: Naming): (xs: seq<seq<Part>>)
    ensures |xs| == |fields| && forall i :: 0 <= i < |fields| ==> xs[i] == Display(fields[i], naming)
  {
    seq(|fields|, i requires 0 <= i < |fields| => Display(fields[i], naming))
  }

  function ValueItems(c: Constant, naming: Naming): (xs: seq<seq<Part>>)
    requires c.ArrayConstant? && Renderable(c)
    ensures |xs| == |c.values|
    ensures forall i :: 0 <= i < |c.values| ==> xs[i] == ConstantParts(c.values[i], naming)
    decreases c, 0
  {
    var values := c.values;
    seq(|values|, i requires 0 <= i < |values| => ConstantParts(values[i], naming))
  }

  /** Every host rendering a constant refers to is balanced. */
  predicate SymbolsBalanced(c: Constant)
    decreases c
  {
    match c
    case PrimitiveConstant(_, _) => true
    case EnumConstant(enumType, fields, _) =>
      RenderingsBalanced(enumType) && forall i :: 0 <= i < |fields| ==> RenderingsBalanced(fields[i])
    case TypeConstant(symbol) => RenderingsBalanced(symbol)
    case ArrayConstant(elementType, values) =>
      RenderingsBalanced(elementType) && forall i :: 0 <= i < |values| ==> SymbolsBalanced(values[i])
    case ErrorConstant => true
  }

  /** A constant over balanced renderings is displayed balanced: every bracket it opens it closes. */
  lemma {:induction false} ConstantBalanced(c: Constant, naming: Naming)
    requires Renderable(c) && SymbolsBalanced(c)
    ensures Balanced(ConstantParts(c, naming))
    decreases c
  {
    match c
    case PrimitiveConstant(t, text) =>
      NeutralBalanced(Part(LiteralKind(t), text));
    case EnumConstant(enumType, fields, value) =>
      EnumBalanced(c, naming);
    case TypeConstant(symbol) =>
      DisplayBalanced(symbol, naming);
      TypeOfBalanced(Display(symbol, naming));
    case ArrayConstant(elementType, values) =>
      var xs := ValueItems(c, naming);
      forall i | 0 <= i < |xs|
        ensures Balanced(xs[i])
      {
        ConstantBalanced(values[i], naming);
      }
      DisplayBalanced(elementType, naming);
      CommaSpaceBalanced();
      JoinBalanced(xs, CommaSpace());
      ArrayShapeBalanced(Display(elementType, naming), Join(xs, CommaSpace()));
  }

  lemma EnumBalanced(c: Constant, naming: Naming)
    requires c.EnumConstant? && SymbolsBalanced(c)
    ensures Balanced(ConstantParts(c, naming))
  {
    if c.fields == [] {
      DisplayBalanced(c.enumType, naming);
      CastBalanced(Display(c.enumType, naming), Part(NumericLiteral, c.value));
    } else {
      var xs := FieldItems(c.fields, naming);
      forall i | 0 <= i < |xs|
        ensures Balanced(xs[i])
      {
        DisplayBalanced(c.fields[i], naming);
      }
      BarBalanced();
      JoinBalanced(xs, Bar());
    }
  }

  lemma BarBalanced()
    ensures Balanced(Bar())
  {
    NeutralBalanced(SpacePart());
    NeutralBalanced(Punct('|'));
    BalancedConcat([SpacePart()], [Punct('|')]);
    BalancedConcat([SpacePart(), Punct('|')], [SpacePart()]);
  }

  /** `(T)n` */
  lemma CastBalanced(t: seq<Part>, number: Part)
    requires Balanced(t) && number.kind != Punctuation
    ensures Balanced([Punct('(')] + t + [Punct(')'), number])
  {
    Wrapped(Punct('('), Punct(')'), t);
    NeutralBalanced(number);
    BalancedConcat([Punct('(')] + t + [Punct(')')], [number]);
    assert [Punct('(')] + t + [Punct(')'), number] == [Punct('(')] + t + [Punct(')')] + [number];
  }

  /** `typeof(T)` */
  lemma TypeOfBalanced(t: seq<Part>)
    requires Balanced(t)
    ensures Balanced([KeywordPart("typeof"), Punct('(')] + t + [Punct(')')])
  {
    Wrapped(Punct('('), Punct(')'), t);
    NeutralBalanced(KeywordPart("typeof"));
    BalancedConcat([KeywordPart("typeof")], [Punct('(')] + t + [Punct(')')]);
    assert [KeywordPart("typeof"), Punct('(')] + t + [Punct(')')] == [KeywordPart("typeof")] + ([Punct('(')] + t + [Punct(')')]);
  }

  /** `new T[] { body }` */
  lemma ArrayShapeBalanced(e: seq<Part>, body: seq<Part>)
    requires Balanced(e) && Balanced(body)
    ensures Balanced([KeywordPart("new"), SpacePart()] + e + [Punct('['), Punct(']')] + [SpacePart(), Punct('{')]
                     + [SpacePart()] + body + [SpacePart(), Punct('}')])
  {
    PairNet(KeywordPart("new"), SpacePart(), Zero);
    PairNet(Punct('['), Punct(']'), Zero);
    PairNet(SpacePart(), Punct('{'), Depths(0, 1, 0, 0));
    PairNet(SpacePart(), Punct('}'), Depths(0, -1, 0, 0));
    OneNet(SpacePart());
    ShapeNet([KeywordPart("new"), SpacePart()], e, [Punct('['), Punct(']')], [SpacePart(), Punct('{')],
             [SpacePart()], body, [SpacePart(), Punct('}')]);
  }

  lemma PairNet(x: Part, y: Part, net: Depths)
    requires Step(Step(Zero, x), y) == net
    ensures After(Zero, [x, y]) == net
  {
    TwoNet(x, y);
  }

  /** Pieces whose counters cancel out make a balanced whole. */
  lemma ShapeNet(a: seq<Part>, e: seq<Part>, b: seq<Part>, c: seq<Part>, d: seq<Part>, body: seq<Part>, f: seq<Part>)
    requires After(Zero, e) == Zero && After(Zero, body) == Zero
    requires After(Zero, a) == Zero && After(Zero, b) == Zero && After(Zero, c) == Depths(0, 1, 0, 0)
    requires After(Zero, d) == Zero && After(Zero, f) == Depths(0, -1, 0, 0)
    ensures Balanced(a + e + b + c + d + body + f)
  {
    NetOfSeven(a, e, b, c, d, body, f);
  }

  /** The counters of seven pieces in a row add up. */
  lemma NetOfSeven(a: seq<Part>, b: seq<Part>, c: seq<Part>, d: seq<Part>, e: seq<Part>, f: seq<Part>, g: seq<Part>)
    ensures After(Zero, a + b + c + d + e + f + g)
         == Plus(Plus(Plus(Plus(Plus(Plus(After(Zero, a), After(Zero, b)), After(Zero, c)), After(Zero, d)),
                                After(Zero, e)), After(Zero, f)), After(Zero, g))
  {
    AfterPlus(a, b);
    AfterPlus(a + b, c);
    AfterPlus(a + b + c, d);
    AfterPlus(a + b + c + d, e);
    AfterPlus(a + b + c + d + e, f);
    AfterPlus(a + b + c + d + e + f, g);
  }

  /** The counters after `a + b` are those of `a` plus those of `b`. */
  lemma AfterPlus(a: seq<Part>, b: seq<Part>)
    ensures After(Zero, a + b) == Plus(After(Zero, a), After(Zero, b))
  {
    AfterConcat(Zero, a, b);
    AfterIsShift(After(Zero, a), b);
  }

  /** The counters after a single part are one step from zero. */
  lemma OneNet(p: Part)
    ensures After(Zero, [p]) == Step(Zero, p)
  {
    AfterSnoc(Zero, [], p);
    assert [] + [p] == [p];
  }

  /** The counters after two parts are two steps from zero. */
  lemma TwoNet(x: Part, y: Part)
    ensures After(Zero, [x, y]) == Step(Step(Zero, x), y)
  {
    OneNet(x);
    AfterSnoc(Zero, [x], y);
    assert [x] + [y] == [x, y];
  }

  /** Adds the rendering of `c`. */
  method AddConstantValue(builder: PartBuilder, c: Constant, naming: Naming)
    requires Renderable(c)
    modifies builder
    ensures builder.items == old(builder.items) + ConstantParts(c, naming)
    decreases c, 3
  {
    match c
    case PrimitiveConstant(t, text) =>
      builder.Add(Part(LiteralKind(t), text));
    case EnumConstant(enumType, fields, value) =>
      if fields != [] {
        AddEnumFields(builder, fields, naming);
      } else {
        AddEnumCast(builder, enumType, value, naming);
      }
    case TypeConstant(symbol) =>
      AddTypeOf(builder, symbol, naming);
    case ArrayConstant(elementType, values) =>
      AddArray(builder, c, naming);
    case ErrorConstant =>
      assert false;
  }

  /** `(T)n` for an enum value that is no combination of members. */
  method AddEnumCast(builder: PartBuilder, enumType: Symbol, value: string, naming: Naming)
    modifies builder
    ensures builder.items == old(builder.items) + [Punct('(')] + Display(enumType, naming) + [Punct(')'), Part(NumericLiteral, value)]
  {
    builder.Add(Punct('('));
    ghost var before := builder.items;
    AddDisplayParts(builder, enumType, naming, false);
    DisplayedAfterPlain(before, enumType, naming);
    builder.Add(Punct(')'));
    builder.Add(Part(NumericLiteral, value));
  }

  /** `typeof(T)` */
  method AddTypeOf(builder: PartBuilder, symbol: Symbol, naming: Naming)
    modifies builder
    ensures builder.items == old(builder.items) + [KeywordPart("typeof"), Punct('(')] + Display(symbol, naming) + [Punct(')')]
  {
    builder.Add(KeywordPart("typeof"));
    builder.Add(Punct('('));
    ghost var before := builder.items;
    AddDisplayParts(builder, symbol, naming, false);
    DisplayedAfterPlain(before, symbol, naming);
    builder.Add(Punct(')'));
  }

  /** `new T[] { v0, v1 }`: the element type, then the values one at a time. */
  method AddArray(builder: PartBuilder, c: Constant, naming: Naming)
    requires c.ArrayConstant? && Renderable(c)
    modifies builder
    ensures builder.items == old(builder.items) + ConstantParts(c, naming)
    decreases c, 2
  {
    ghost var start := builder.items;
    AddArrayHead(builder, c.elementType, naming);
    ghost var head := ArrayHead(c.elementType, naming);
    AddArrayValues(builder, c, naming);
    ghost var values := Join(ValueItems(c, naming), CommaSpace());
    builder.AddRange(ArrayTail());
    assert builder.items == start + (head + values + ArrayTail());
  }

  method AddArrayHead(builder: PartBuilder, elementType: Symbol, naming: Naming)
    modifies builder
    ensures builder.items == old(builder.items) + ArrayHead(elementType, naming)
  {
    builder.Add(KeywordPart("new"));
    builder.Add(SpacePart());
    ghost var before := builder.items;
    AddDisplayParts(builder, elementType, naming, false);
    DisplayedAfterPlain(before, elementType, naming);
    builder.AddRange([Punct('['), Punct(']'), SpacePart(), Punct('{'), SpacePart()]);
  }

  method AddArrayValues(builder: PartBuilder, c: Constant, naming: Naming)
    requires c.ArrayConstant? && Renderable(c)
    modifies builder
    ensures builder.items == old(builder.items) + Join(ValueItems(c, naming), CommaSpace())
    decreases c, 1
  {
    ghost var start := builder.items;
    ghost var xs := ValueItems(c, naming);
    var i := 0;
    while i < |c.values|
      invariant 0 <= i <= |c.values|
      invariant builder.items == start + Join(xs[..i], CommaSpace()) + Pending(i, |c.values|, CommaSpace())
      decreases |c.values| - i
    {
      AddArrayValueAt(builder, c, naming, i, start);
      i := i + 1;
    }
    assert xs[..i] == xs;
  }

  /** Adds the value at `i`, and `, ` when another follows. */
  method AddArrayValueAt(builder: PartBuilder, c: Constant, naming: Naming, i: nat, ghost start: seq<Part>)
    requires c.ArrayConstant? && Renderable(c) && i < |c.values|
    requires builder.items == start + Join(ValueItems(c, naming)[..i], CommaSpace()) + Pending(i, |c.values|, CommaSpace())
    modifies builder
    ensures builder.items == start + Join(ValueItems(c, naming)[..i + 1], CommaSpace()) + Pending(i + 1, |c.values|, CommaSpace())
    decreases c, 0
  {
    ghost var xs := ValueItems(c, naming);
    ghost var before := builder.items;
    AddConstantValue(builder, c.values[i], naming);
    if i + 1 < |c.values| {
      builder.AddRange(CommaSpace());
    }
    ItemStep(start, xs, i, CommaSpace(), before, builder.items);
  }

  /** The members of a flags value, separated by ` | `. */
  method AddEnumFields(builder: PartBuilder, fields: seq<Symbol>, naming: Naming)
    requires fields != []
    modifies builder
    ensures builder.items == old(builder.items) + Join(FieldItems(fields, naming), Bar())
  {
    ghost var start := builder.items;
    ghost var xs := FieldItems(fields, naming);
    var i := 0;
    while i < |fields|
      invariant 0 <= i <= |fields|
      invariant builder.items == start + Join(xs[..i], Bar()) + Pending(i, |fields|, Bar())
      decreases |fields| - i
    {
      ghost var before := builder.items;
      AddDisplayParts(builder, fields[i], naming, false);
      DisplayedAfterPlain(before, fields[i], naming);
      if i + 1 < |fields| {
        builder.AddRange(Bar());
      }
      ItemStep(start, xs, i, Bar(), before, builder.items);
      i := i + 1;
    }
    assert xs[..i] == xs;
  }
}

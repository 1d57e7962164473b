/**
 * Rendering parameter attributes inside a parameter list: the attributes of the
 * first parameter go right after the opener, those of each later parameter
 * right after the top-level `,` that precedes it.
 */
module ParameterAttributes {
  import opened Wrappers
  import opened DisplayParts
  import opened ParameterList

  /** A part of the output, marked as taken from the rendering or added by the pass. */
  datatype Tagged = Orig(part: Part) | Added(part: Part)

  function Untag(t: seq<Tagged>): (r: seq<Part>)
    ensures |r| == |t| && forall i :: 0 <= i < |t| ==> r[i] == t[i].part
  {
    seq(|t|, i requires 0 <= i < |t| => t[i].part)
  }

  function Origs(s: seq<Part>): (t: seq<Tagged>)
    ensures |t| == |s| && forall i :: 0 <= i < |s| ==> t[i] == Orig(s[i])
  {
    seq(|s|, i requires 0 <= i < |s| => Orig(s[i]))
  }

  function Addeds(s: seq<Part>): (t: seq<Tagged>)
    ensures |t| == |s| && forall i :: 0 <= i < |s| ==> t[i] == Added(s[i])
  {
    seq(|s|, i requires 0 <= i < |s| => Added(s[i]))
  }

  /** The parts of `t` that were in the rendering, in order. */
  function Originals(t: seq<Tagged>): seq<Part>
    decreases |t|
  {
    if t == [] then []
    else (if t[0].Orig? then [t[0].part] else []) + Originals(t[1..])
  }

  /** What goes after the opener for the first parameter: its attributes and a space, or nothing. */
  function LeadingAttributes(attrs: seq<Part>): seq<Tagged>
  {
    if attrs == [] then [] else Addeds(attrs + [SpacePart()])
  }

  /** What goes after a top-level comma for a later parameter: a space and its attributes, or nothing. */
  function FollowingAttributes(attrs: seq<Part>): seq<Tagged>
  {
    if attrs == [] then [] else Addeds([SpacePart()] + attrs)
  }

  /**
   * The scan of `s[k..]` arriving with counters `d`, where `p` is the index of
   * the parameter whose attributes were placed last. Each break point moves to
   * the next parameter (None when there is none: the parameter lookup fails)
   * and places its attributes after the comma; the part closing the list and
   * everything after it are kept.
   */
  function Annotate(kind: SymbolKind, s: seq<Tagged>, k: nat, d: Depths, p: nat, attrs: seq<seq<Part>>): Option<seq<Tagged>>
    requires k <= |s|
    decreases |s| - k
  {
    if k == |s| then Some([])
    else if IsBreakPoint(Untag(s), k, d) then
      if p + 1 >= |attrs| then None
      else match Annotate(kind, s, k + 1, d, p + 1, attrs)
        case None => None
        case Some(t) => Some([s[k]] + FollowingAttributes(attrs[p + 1]) + t)
    else if Closes(kind, Step(d, s[k].part), s[k].part) then Some(s[k..])
    else match Annotate(kind, s, k + 1, Step(d, s[k].part), p, attrs)
      case None => None
      case Some(t) => Some([s[k]] + t)
  }

  /** The rendering once the first parameter's attributes follow the opener at `i`. */
  function Seeded(parts: seq<Part>, i: nat, attrs: seq<Part>): seq<Tagged>
    requires i < |parts|
  {
    Origs(parts[..i + 1]) + LeadingAttributes(attrs) + Origs(parts[i + 1..])
  }

  /**
   * The result of AddParameterAttributes, `attrs[n]` being the rendered
   * attributes of parameter n: unchanged when there is no parameter list, None
   * when the list has more separators than there are parameters (including
   * none at all).
   */
  function WithParameterAttributes(kind: SymbolKind, parts: seq<Part>, attrs: seq<seq<Part>>): Option<seq<Tagged>>
  {
    var i := ListStart(kind, parts);
    if i == -1 then Some(Origs(parts))
    else if |attrs| == 0 then None
    else
      var s := Seeded(parts, i, attrs[0]);
      match Annotate(kind, s, i, Zero, 0, attrs)
      case None => None
      case Some(t) => Some(s[..i] + t)
  }

  function Rendered(r: Option<seq<Tagged>>): Option<seq<Part>>
  {
    match r
    case None => None
    case Some(t) => Some(Untag(t))
  }

  // ---- Properties of the specification ----

  lemma {:induction false} OriginalsConcat(a: seq<Tagged>, b: seq<Tagged>)
    ensures Originals(a + b) == Originals(a) + Originals(b)
    decreases |a|
  {
    if a != [] {
      assert (a + b)[1..] == a[1..] + b;
      OriginalsConcat(a[1..], b);
    } else {
      assert a + b == b;
    }
  }

  lemma {:induction false} OriginalsOfOrigs(s: seq<Part>)
    ensures Originals(Origs(s)) == s
    decreases |s|
  {
    if s != [] {
      assert Origs(s)[1..] == Origs(s[1..]);
      OriginalsOfOrigs(s[1..]);
    }
  }

  lemma {:induction false} OriginalsOfAddeds(s: seq<Part>)
    ensures Originals(Addeds(s)) == []
    decreases |s|
  {
    if s != [] {
      assert Addeds(s)[1..] == Addeds(s[1..]);
      OriginalsOfAddeds(s[1..]);
    }
  }

  /** The scan only adds: its originals are exactly those of what it scanned. */
  lemma {:induction false} AnnotateOnlyInserts(kind: SymbolKind, s: seq<Tagged>, k: nat, d: Depths, p: nat, attrs: seq<seq<Part>>)
    requires k <= |s|
    ensures Annotate(kind, s, k, d, p, attrs).Some? ==> Originals(Annotate(kind, s, k, d, p, attrs).value) == Originals(s[k..])
    decreases |s| - k
  {
    if k < |s| {
      assert s[k..] == [s[k]] + s[k + 1..];
      OriginalsConcat([s[k]], s[k + 1..]);
      if IsBreakPoint(Untag(s), k, d) {
        if p + 1 < |attrs| {
          AnnotateOnlyInserts(kind, s, k + 1, d, p + 1, attrs);
          var r := Annotate(kind, s, k + 1, d, p + 1, attrs);
          if r.Some? {
            var f := FollowingAttributes(attrs[p + 1]);
            OriginalsConcat([s[k]] + f, r.value);
            OriginalsConcat([s[k]], f);
            if attrs[p + 1] != [] {
              OriginalsOfAddeds([SpacePart()] + attrs[p + 1]);
            }
          }
        }
      } else if !Closes(kind, Step(d, s[k].part), s[k].part) {
        AnnotateOnlyInserts(kind, s, k + 1, Step(d, s[k].part), p, attrs);
        var r := Annotate(kind, s, k + 1, Step(d, s[k].part), p, attrs);
        if r.Some? {
          OriginalsConcat([s[k]], r.value);
        }
      }
    }
  }

  lemma SeededOriginals(parts: seq<Part>, i: nat, attrs: seq<Part>)
    requires i < |parts|
    ensures Originals(Seeded(parts, i, attrs)) == parts
  {
    var x, y := parts[..i + 1], parts[i + 1..];
    LeadingHasNoOriginals(attrs);
    OriginalsOfOrigs(x);
    OriginalsOfOrigs(y);
    OriginalsAround(Origs(x), LeadingAttributes(attrs), Origs(y), x, y);
    assert x + y == parts;
  }

  lemma LeadingHasNoOriginals(attrs: seq<Part>)
    ensures Originals(LeadingAttributes(attrs)) == []
  {
    if attrs != [] {
      OriginalsOfAddeds(attrs + [SpacePart()]);
    }
  }

  lemma OriginalsAround(a: seq<Tagged>, m: seq<Tagged>, z: seq<Tagged>, x: seq<Part>, y: seq<Part>)
    requires Originals(a) == x && Originals(m) == [] && Originals(z) == y
    ensures Originals(a + m + z) == x + y
  {
    OriginalsConcat(a + m, z);
    OriginalsConcat(a, m);
  }

  lemma PrefixOriginals(s: seq<Tagged>, i: nat, t: seq<Tagged>)
    requires i <= |s| && Originals(t) == Originals(s[i..])
    ensures Originals(s[..i] + t) == Originals(s)
  {
    OriginalsConcat(s[..i], t);
    OriginalsConcat(s[..i], s[i..]);
    assert s[..i] + s[i..] == s;
  }

  /**
   * AddParameterAttributes only inserts: taking away what it added gives back
   * the rendering it was given, in order.
   */
  lemma OnlyInserts(kind: SymbolKind, parts: seq<Part>, attrs: seq<seq<Part>>)
    ensures WithParameterAttributes(kind, parts, attrs).Some? ==>
      Originals(WithParameterAttributes(kind, parts, attrs).value) == parts
  {
    var i := ListStart(kind, parts);
    if i == -1 {
      OriginalsOfOrigs(parts);
    } else if |attrs| > 0 {
      var s := Seeded(parts, i, attrs[0]);
      var r := Annotate(kind, s, i, Zero, 0, attrs);
      if r.Some? {
        AnnotateOnlyInserts(kind, s, i, Zero, 0, attrs);
        SeededOriginals(parts, i, attrs[0]);
        PrefixOriginals(s, i, r.value);
      }
    }
  }


  /** The number of break points the scan meets before the list closes. */
  function Separators(kind: SymbolKind, s: seq<Part>, k: nat, d: Depths): nat
    requires k <= |s|
    decreases |s| - k
  {
    if k == |s| then 0
    else if IsBreakPoint(s, k, d) then 1 + Separators(kind, s, k + 1, d)
    else if Closes(kind, Step(d, s[k]), s[k]) then 0
    else Separators(kind, s, k + 1, Step(d, s[k]))
  }

  /** The scan fails exactly when the list has more separators than parameters are left. */
  lemma {:induction false} AnnotateFailsIff(kind: SymbolKind, s: seq<Tagged>, k: nat, d: Depths, p: nat, attrs: seq<seq<Part>>)
    requires k <= |s| && p < |attrs|
    ensures Annotate(kind, s, k, d, p, attrs).None? <==> Separators(kind, Untag(s), k, d) >= |attrs| - p
    decreases |s| - k
  {
    if k < |s| {
      if IsBreakPoint(Untag(s), k, d) {
        if p + 1 < |attrs| {
          AnnotateFailsIff(kind, s, k + 1, d, p + 1, attrs);
        }
      } else if !Closes(kind, Step(d, s[k].part), s[k].part) {
        AnnotateFailsIff(kind, s, k + 1, Step(d, s[k].part), p, attrs);
      }
    }
  }

  /**
   * AddParameterAttributes fails (the parameter lookup is out of range) exactly
   * when the rendering has a parameter list and the list, with the first
   * parameter's attributes in place, has at least as many separators as there
   * are parameters.
   */
  lemma FailsIff(kind: SymbolKind, parts: seq<Part>, attrs: seq<seq<Part>>)
    ensures WithParameterAttributes(kind, parts, attrs).None? <==>
      var i := ListStart(kind, parts);
      i != -1 && (|attrs| == 0 || Separators(kind, Untag(Seeded(parts, i, attrs[0])), i, Zero) >= |attrs|)
  {
    var i := ListStart(kind, parts);
    if i != -1 && |attrs| > 0 {
      AnnotateFailsIff(kind, Seeded(parts, i, attrs[0]), i, Zero, 0, attrs);
    }
  }

  /** Parameters without attributes add nothing: the scan returns what it was given. */
  lemma {:induction false} AnnotateWithoutAttributes(kind: SymbolKind, s: seq<Tagged>, k: nat, d: Depths, p: nat, attrs: seq<seq<Part>>)
    requires k <= |s|
    requires forall n :: 0 <= n < |attrs| ==> attrs[n] == []
    ensures Annotate(kind, s, k, d, p, attrs).Some? ==> Annotate(kind, s, k, d, p, attrs).value == s[k..]
    decreases |s| - k, 1
  {
    if k < |s| {
      if IsBreakPoint(Untag(s), k, d) {
        if p + 1 < |attrs| {
          WithoutAttributesAtBreak(kind, s, k, d, p, attrs);
        }
      } else if !Closes(kind, Step(d, s[k].part), s[k].part) {
        WithoutAttributesPass(kind, s, k, d, p, attrs);
      }
    }
  }

  lemma {:induction false} WithoutAttributesAtBreak(kind: SymbolKind, s: seq<Tagged>, k: nat, d: Depths, p: nat, attrs: seq<seq<Part>>)
    requires k < |s| && IsBreakPoint(Untag(s), k, d) && p + 1 < |attrs|
    requires forall n :: 0 <= n < |attrs| ==> attrs[n] == []
    ensures Annotate(kind, s, k, d, p, attrs).Some? ==> Annotate(kind, s, k, d, p, attrs).value == s[k..]
    decreases |s| - k, 0
  {
    AnnotateWithoutAttributes(kind, s, k + 1, d, p + 1, attrs);
    assert FollowingAttributes(attrs[p + 1]) == [];
    assert s[k..] == [s[k]] + s[k + 1..];
  }

  lemma {:induction false} WithoutAttributesPass(kind: SymbolKind, s: seq<Tagged>, k: nat, d: Depths, p: nat, attrs: seq<seq<Part>>)
    requires k < |s| && !IsBreakPoint(Untag(s), k, d) && !Closes(kind, Step(d, s[k].part), s[k].part)
    requires forall n :: 0 <= n < |attrs| ==> attrs[n] == []
    ensures Annotate(kind, s, k, d, p, attrs).Some? ==> Annotate(kind, s, k, d, p, attrs).value == s[k..]
    decreases |s| - k, 0
  {
    AnnotateWithoutAttributes(kind, s, k + 1, Step(d, s[k].part), p, attrs);
    assert s[k..] == [s[k]] + s[k + 1..];
  }

  /** Without leading attributes the seeded rendering is the rendering itself. */
  lemma SeededWithoutAttributes(parts: seq<Part>, i: nat)
    requires i < |parts|
    ensures Seeded(parts, i, []) == Origs(parts)
  {
    var a, z := parts[..i + 1], parts[i + 1..];
    assert Origs(a) + [] == Origs(a);
    OrigsConcat(a, z);
    assert parts == a + z;
  }

  lemma OrigsConcat(a: seq<Part>, z: seq<Part>)
    ensures Origs(a + z) == Origs(a) + Origs(z)
  {
  }

  /** When no parameter has attributes the rendering comes back unchanged. */
  lemma WithoutAttributesUnchanged(kind: SymbolKind, parts: seq<Part>, attrs: seq<seq<Part>>)
    requires forall n :: 0 <= n < |attrs| ==> attrs[n] == []
    ensures WithParameterAttributes(kind, parts, attrs).Some? ==> Untag(WithParameterAttributes(kind, parts, attrs).value) == parts
  {
    var i := ListStart(kind, parts);
    if i != -1 && |attrs| > 0 {
      var s := Seeded(parts, i, attrs[0]);
      SeededWithoutAttributes(parts, i);
      AnnotateWithoutAttributes(kind, s, i, Zero, 0, attrs);
      assert s[..i] + s[i..] == s;
      assert Untag(s) == parts;
    } else if i == -1 {
      assert Untag(Origs(parts)) == parts;
    }
  }

  // ---- The pass over the rendering ----

  /**
   * What the pass has produced for `s[..i]`: the rendering itself while no
   * attribute has been placed after a comma, otherwise the builder followed by
   * the parts not yet copied into it.
   */
  function Emitted(builder: Option<seq<Part>>, s: seq<Part>, prevIndex: nat, i: nat): seq<Part>
    requires prevIndex <= i <= |s|
  {
    if builder.None? then s[..i] else builder.value + s[prevIndex..i]
  }

  /** `e` followed by the rendering of the scan's outcome. */
  function Continue(e: seq<Part>, o: Option<seq<Tagged>>): Option<seq<Part>>
  {
    match o
    case None => None
    case Some(t) => Some(e + Untag(t))
  }

  lemma UntagConcat(a: seq<Tagged>, b: seq<Tagged>)
    ensures Untag(a + b) == Untag(a) + Untag(b)
  {
  }

  lemma EmittedNext(builder: Option<seq<Part>>, s: seq<Part>, prevIndex: nat, i: nat)
    requires prevIndex <= i < |s|
    ensures Emitted(builder, s, prevIndex, i + 1) == Emitted(builder, s, prevIndex, i) + [s[i]]
  {
    assert s[..i + 1] == s[..i] + [s[i]];
    assert s[prevIndex..i + 1] == s[prevIndex..i] + [s[i]];
  }

  /** Passing over a part that is kept as it is. */
  lemma StepKeep(kind: SymbolKind, s: seq<Tagged>, i: nat, d: Depths, d': Depths, p: nat, attrs: seq<seq<Part>>, e: seq<Part>)
    requires i < |s|
    requires !Closes(kind, Step(d, s[i].part), s[i].part)
    requires !IsBreakPoint(Untag(s), i, d) || (p + 1 < |attrs| && attrs[p + 1] == [])
    requires d' == (if IsBreakPoint(Untag(s), i, d) then d else Step(d, s[i].part))
    ensures Continue(e, Annotate(kind, s, i, d, p, attrs))
         == Continue(e + [s[i].part], Annotate(kind, s, i + 1, d', if IsBreakPoint(Untag(s), i, d) then p + 1 else p, attrs))
  {
    var r := Annotate(kind, s, i + 1, d', if IsBreakPoint(Untag(s), i, d) then p + 1 else p, attrs);
    if r.Some? {
      UntagConcat([s[i]], r.value);
      assert Untag([s[i]]) == [s[i].part];
      if IsBreakPoint(Untag(s), i, d) {
        assert FollowingAttributes(attrs[p + 1]) == [];
        assert [s[i]] + FollowingAttributes(attrs[p + 1]) + r.value == [s[i]] + r.value;
      }
      assert e + ([s[i].part] + Untag(r.value)) == (e + [s[i].part]) + Untag(r.value);
    }
  }

  lemma UntagInserted(x: Tagged, a: seq<Part>, t: seq<Tagged>)
    requires a != []
    ensures Untag([x] + FollowingAttributes(a) + t) == [x.part, SpacePart()] + a + Untag(t)
  {
    var u := [x] + FollowingAttributes(a) + t;
    var v := [x.part, SpacePart()] + a + Untag(t);
    assert |u| == |v|;
    forall k | 0 <= k < |u|
      ensures Untag(u)[k] == v[k]
    {
      if k >= 2 + |a| {
        assert u[k] == t[k - 2 - |a|];
      }
    }
  }

  /** Passing over a comma after which the next parameter's attributes are placed. */
  lemma StepInsert(kind: SymbolKind, s: seq<Tagged>, i: nat, d: Depths, p: nat, attrs: seq<seq<Part>>, e: seq<Part>)
    requires i < |s| && IsBreakPoint(Untag(s), i, d) && p + 1 < |attrs| && attrs[p + 1] != []
    ensures Continue(e, Annotate(kind, s, i, d, p, attrs))
         == Continue(e + [s[i].part] + [SpacePart()] + attrs[p + 1], Annotate(kind, s, i + 1, d, p + 1, attrs))
  {
    var r := Annotate(kind, s, i + 1, d, p + 1, attrs);
    if r.Some? {
      UntagInserted(s[i], attrs[p + 1], r.value);
      InsertRegroup(e, s[i].part, attrs[p + 1], Untag(r.value));
    }
  }

  /** The emitted parts, the comma, the space and the attributes, then the rest. */
  lemma InsertRegroup(e: seq<Part>, comma: Part, a: seq<Part>, u: seq<Part>)
    ensures e + ([comma, SpacePart()] + a + u) == (e + [comma] + [SpacePart()] + a) + u
  {
  }


  /** Reaching the part that closes the list: the rest is copied as it is. */
  lemma StepClose(kind: SymbolKind, s: seq<Tagged>, i: nat, d: Depths, p: nat, attrs: seq<seq<Part>>, e: seq<Part>)
    requires i < |s| && !IsBreakPoint(Untag(s), i, d) && Closes(kind, Step(d, s[i].part), s[i].part)
    ensures Continue(e, Annotate(kind, s, i, d, p, attrs)) == Some(e + Untag(s)[i..])
  {
    assert Untag(s[i..]) == Untag(s)[i..];
  }

  /** The pass ends with what it emitted followed by the parts it has not reached. */
  lemma Finish(builder: Option<seq<Part>>, s: seq<Part>, prevIndex: nat, i: nat)
    requires prevIndex <= i <= |s|
    ensures Emitted(builder, s, prevIndex, i) + s[i..] == if builder.None? then s else builder.value + s[prevIndex..]
  {
    assert s[..i] + s[i..] == s;
    assert s[prevIndex..i] + s[i..] == s[prevIndex..];
  }

  lemma SeededUntag(parts: seq<Part>, i: nat, attrs: seq<Part>)
    requires i < |parts|
    ensures attrs == [] ==> Untag(Seeded(parts, i, attrs)) == parts
    ensures attrs != [] ==> Untag(Seeded(parts, i, attrs)) == parts[..i + 1] + attrs + [SpacePart()] + parts[i + 1..]
  {
    var s := Seeded(parts, i, attrs);
    UntagConcat(Origs(parts[..i + 1]) + LeadingAttributes(attrs), Origs(parts[i + 1..]));
    UntagConcat(Origs(parts[..i + 1]), LeadingAttributes(attrs));
    assert parts[..i + 1] + parts[i + 1..] == parts;
  }

  /** The result before the scan: the rendering up to the opener, then the scan's outcome. */
  lemma Start(kind: SymbolKind, parts: seq<Part>, attrs: seq<seq<Part>>, i: nat)
    requires i == ListStart(kind, parts) && |attrs| > 0
    ensures Rendered(WithParameterAttributes(kind, parts, attrs))
         == Continue(Untag(Seeded(parts, i, attrs[0]))[..i], Annotate(kind, Seeded(parts, i, attrs[0]), i, Zero, 0, attrs))
  {
    var s := Seeded(parts, i, attrs[0]);
    var r := Annotate(kind, s, i, Zero, 0, attrs);
    if r.Some? {
      UntagConcat(s[..i], r.value);
      assert Untag(s[..i]) == Untag(s)[..i];
    }
  }

  /** The first parameter's attributes and a space, inserted after the opener at `i`. */
  method InsertLeading(parts: seq<Part>, i: nat, attributeParts: seq<Part>) returns (ps: seq<Part>)
    requires i < |parts|
    ensures ps == Untag(Seeded(parts, i, attributeParts))
  {
    ps := parts;
    if |attributeParts| > 0 {
      ps := ps[..i + 1] + [SpacePart()] + ps[i + 1..];
      ps := ps[..i + 1] + attributeParts + ps[i + 1..];
      assert ps == parts[..i + 1] + attributeParts + [SpacePart()] + parts[i + 1..];
    }
    SeededUntag(parts, i, attributeParts);
  }

  /**
   * Places a later parameter's attributes after the comma at `i`: the builder
   * is started with everything up to the comma, or catches up to it, and then
   * gets a space and the attributes.
   */
  method PlaceAttributes(builder: Option<seq<Part>>, ps: seq<Part>, prevIndex: nat, i: nat, attributeParts: seq<Part>)
    returns (builder': Option<seq<Part>>, prevIndex': nat)
    requires prevIndex <= i < |ps|
    ensures builder'.Some? && prevIndex' == i + 1
    ensures Emitted(builder', ps, prevIndex', i + 1)
         == Emitted(builder, ps, prevIndex, i) + [ps[i]] + [SpacePart()] + attributeParts
  {
    EmittedNext(builder, ps, prevIndex, i);
    var b: seq<Part>;
    if builder.None? {
      b := ps[..i + 1];
    } else {
      b := AppendRange(builder.value, ps, prevIndex, i + 1);
    }
    builder' := Some(b + [SpacePart()] + attributeParts);
    prevIndex' := i + 1;
    assert ps[i + 1..i + 1] == [];
  }

  /** How one pass of the scan ended. */
  datatype ScanStatus = Scanned | ListClosed | ParameterMissing

  /**
   * One pass of AddParameterAttributes' scan over `ps[i]`, where `goal` is the
   * pass's final result as far as it is decided by what has been emitted and
   * the scan of `ps[i..]`.
   */
  method ScanPart(kind: SymbolKind, ps: seq<Part>, paramAttrs: seq<seq<Part>>, i: nat, d: Depths, parameterIndex: nat,
                  builder: Option<seq<Part>>, prevIndex: nat, ghost s: seq<Tagged>, ghost goal: Option<seq<Part>>)
    returns (status: ScanStatus, d': Depths, parameterIndex': nat, builder': Option<seq<Part>>, prevIndex': nat)
    requires prevIndex <= i < |ps| == |s| && parameterIndex < |paramAttrs| && Untag(s) == ps
    requires goal == Continue(Emitted(builder, ps, prevIndex, i), Annotate(kind, s, i, d, parameterIndex, paramAttrs))
    ensures status == ParameterMissing ==> goal == None
    ensures status == ListClosed ==> prevIndex' <= i && goal == Some(Emitted(builder', ps, prevIndex', i) + ps[i..])
    ensures status == Scanned ==>
      && prevIndex' <= i + 1 && parameterIndex' < |paramAttrs|
      && goal == Continue(Emitted(builder', ps, prevIndex', i + 1), Annotate(kind, s, i + 1, d', parameterIndex', paramAttrs))
  {
    var part := ps[i];
    if Glyph(part) == ',' {
      d' := d;
      status, parameterIndex', builder', prevIndex' := ScanComma(kind, ps, paramAttrs, i, d, parameterIndex, builder, prevIndex, s, goal);
      return;
    }
    ghost var e := Emitted(builder, ps, prevIndex, i);
    EmittedNext(builder, ps, prevIndex, i);
    status, d', parameterIndex', builder', prevIndex' := Scanned, Step(d, part), parameterIndex, builder, prevIndex;
    if Closes(kind, d', part) {
      StepClose(kind, s, i, d, parameterIndex, paramAttrs, e);
      return ListClosed, d', parameterIndex', builder', prevIndex';
    }
    StepKeep(kind, s, i, d, d', parameterIndex, paramAttrs, e);
  }

  /** The comma case of the pass: at a break point, move to the next parameter and place its attributes. */
  method ScanComma(kind: SymbolKind, ps: seq<Part>, paramAttrs: seq<seq<Part>>, i: nat, d: Depths, parameterIndex: nat,
                   builder: Option<seq<Part>>, prevIndex: nat, ghost s: seq<Tagged>, ghost goal: Option<seq<Part>>)
    returns (status: ScanStatus, parameterIndex': nat, builder': Option<seq<Part>>, prevIndex': nat)
    requires prevIndex <= i < |ps| == |s| && parameterIndex < |paramAttrs| && Untag(s) == ps && Glyph(ps[i]) == ','
    requires goal == Continue(Emitted(builder, ps, prevIndex, i), Annotate(kind, s, i, d, parameterIndex, paramAttrs))
    ensures status != ListClosed
    ensures status == ParameterMissing ==> goal == None
    ensures status == Scanned ==>
      && prevIndex' <= i + 1 && parameterIndex' < |paramAttrs|
      && goal == Continue(Emitted(builder', ps, prevIndex', i + 1), Annotate(kind, s, i + 1, d, parameterIndex', paramAttrs))
  {
    ghost var e := Emitted(builder, ps, prevIndex, i);
    EmittedNext(builder, ps, prevIndex, i);
    status, parameterIndex', builder', prevIndex' := Scanned, parameterIndex, builder, prevIndex;
    if TopLevel(d) && i < |ps| - 1 && ps[i + 1].kind == Space {
      parameterIndex' := parameterIndex + 1;
      if parameterIndex' >= |paramAttrs| {
        return ParameterMissing, parameterIndex', builder', prevIndex';
      }
      var attributeParts := paramAttrs[parameterIndex'];
      if |attributeParts| > 0 {
        StepInsert(kind, s, i, d, parameterIndex, paramAttrs, e);
        builder', prevIndex' := PlaceAttributes(builder, ps, prevIndex, i, attributeParts);
      } else {
        StepKeep(kind, s, i, d, d, parameterIndex, paramAttrs, e);
      }
    } else {
      StepKeep(kind, s, i, d, d, parameterIndex, paramAttrs, e);
    }
  }

  /** After the scan: the builder, if one was started, gets the parts it has not copied yet. */
  method CopyRest(builder: Option<seq<Part>>, ps: seq<Part>, prevIndex: nat, i: nat) returns (output: seq<Part>)
    requires prevIndex <= i <= |ps|
    ensures output == Emitted(builder, ps, prevIndex, i) + ps[i..]
  {
    Finish(builder, ps, prevIndex, i);
    if builder.Some? {
      output := AppendRange(builder.value, ps, prevIndex, |ps|);
      assert ps[prevIndex..|ps|] == ps[prevIndex..];
    } else {
      output := ps;
    }
  }

  /** A scan that runs to the end keeps everything emitted. */
  lemma ScanEnds(kind: SymbolKind, s: seq<Tagged>, ps: seq<Part>, i: nat, d: Depths, p: nat, attrs: seq<seq<Part>>, e: seq<Part>)
    requires i == |s| == |ps|
    ensures Continue(e, Annotate(kind, s, i, d, p, attrs)) == Some(e + ps[i..])
  {
    assert ps[i..] == [] && Untag([]) == [];
    assert e + [] == e;
  }

  /**
   * The scan of AddParameterAttributes from the opener at `start` over `ps`,
   * the rendering with the first parameter's attributes in place.
   */
  method ScanList(kind: SymbolKind, ps: seq<Part>, paramAttrs: seq<seq<Part>>, start: nat, ghost s: seq<Tagged>)
    returns (r: Option<seq<Part>>)
    requires start <= |ps| == |s| && 0 < |paramAttrs| && Untag(s) == ps
    ensures r == Continue(ps[..start], Annotate(kind, s, start, Zero, 0, paramAttrs))
  {
    ghost var goal := Continue(ps[..start], Annotate(kind, s, start, Zero, 0, paramAttrs));
    var i := start;
    var parameterIndex: nat := 0;
    var d := Zero;
    var builder: Option<seq<Part>> := None;
    var prevIndex: nat := 0;
    var status := Scanned;
    while i < |ps|
      invariant prevIndex <= i <= |ps| && parameterIndex < |paramAttrs|
      invariant status == Scanned
      invariant goal == Continue(Emitted(builder, ps, prevIndex, i), Annotate(kind, s, i, d, parameterIndex, paramAttrs))
    {
      status, d, parameterIndex, builder, prevIndex := ScanPart(kind, ps, paramAttrs, i, d, parameterIndex, builder, prevIndex, s, goal);
      if status == ParameterMissing {
        return None;
      } else if status == ListClosed {
        break;
      }
      i := i + 1;
    }
    if status != ListClosed {
      ScanEnds(kind, s, ps, i, d, parameterIndex, paramAttrs, Emitted(builder, ps, prevIndex, i));
    }
    var output := CopyRest(builder, ps, prevIndex, i);
    return Some(output);
  }


  /**
   * AddParameterAttributes: after the opener it inserts the first parameter's
   * attributes and a space; then it scans from the opener, and at each
   * top-level comma followed by a space moves to the next parameter and, when
   * that one has attributes, emits a space and them after the comma. The scan
   * ends at the part that closes the list.
   */
  method AddParameterAttributes(kind: SymbolKind, parts: seq<Part>, paramAttrs: seq<seq<Part>>) returns (r: Option<seq<Part>>)
    ensures r == Rendered(WithParameterAttributes(kind, parts, paramAttrs))
  {
    var i := FindParameterListStart(kind, parts);
    if i == -1 {
      assert Untag(Origs(parts)) == parts;
      return Some(parts);
    }
    var parameterIndex := 0;
    if parameterIndex >= |paramAttrs| {
      return None;
    }
    var attributeParts := paramAttrs[parameterIndex];
    var ps := InsertLeading(parts, i, attributeParts);
    Start(kind, parts, paramAttrs, i);
    r := ScanList(kind, ps, paramAttrs, i, Seeded(parts, i, paramAttrs[0]));
  }
}

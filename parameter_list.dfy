/** Locating the bracket that opens the top-level parameter list of a rendered symbol. */
module ParameterList {
  import opened DisplayParts

  /** The bracket that opens a parameter list of this kind of symbol. */
  predicate IsOpener(kind: SymbolKind, p: Part)
  {
    || ((kind == Method || kind == NamedType) && IsPunct(p, '('))
    || (kind == Property && IsPunct(p, '['))
  }

  /**
   * Position `i` opens the parameter list: it holds the opener, and scanning
   * `parts[..i + 1]` leaves the opener's own counter at 1 and the other three at 0.
   */
  predicate IsListStart(kind: SymbolKind, parts: seq<Part>, i: int)
  {
    && 0 <= i < |parts|
    && IsOpener(kind, parts[i])
    && After(Zero, parts[..i + 1]) == (if kind == Property then Depths(0, 0, 1, 0) else Depths(1, 0, 0, 0))
  }

  /** The first list start at or after `k`, or -1 when there is none. */
  function ListStartFrom(kind: SymbolKind, parts: seq<Part>, k: nat): (r: int)
    requires k <= |parts|
    ensures r == -1 || (k <= r < |parts| && IsListStart(kind, parts, r))
    ensures forall i :: k <= i < (if r == -1 then |parts| else r) ==> !IsListStart(kind, parts, i)
    decreases |parts| - k
  {
    if k == |parts| then -1
    else if IsListStart(kind, parts, k) then k
    else ListStartFrom(kind, parts, k + 1)
  }

  function ListStart(kind: SymbolKind, parts: seq<Part>): int
  {
    ListStartFrom(kind, parts, 0)
  }

  /**
   * The scan behind FindParameterListStart: the index of the first top-level
   * `(` (methods, named types) or `[` (properties), or -1.
   */
  method FindParameterListStart(kind: SymbolKind, parts: seq<Part>) returns (r: int)
    ensures r == ListStart(kind, parts)
    ensures r == -1 || (0 <= r < |parts| && IsOpener(kind, parts[r]))
    ensures kind == OtherSymbol ==> r == -1
  {
    var d := Zero;
    var i := 0;
    while i < |parts|
      invariant 0 <= i <= |parts|
      invariant d == After(Zero, parts[..i])
      invariant ListStartFrom(kind, parts, i) == ListStart(kind, parts)
    {
      var part := parts[i];
      assert parts[..i + 1][..i] == parts[..i];
      match Glyph(part) {
        case '(' =>
          d := d.(paren := d.paren + 1);
          if (kind == Method || kind == NamedType) && d.paren == 1 && d.braces == 0 && d.brackets == 0 && d.angle == 0 {
            return i;
          }
        case ')' => d := d.(paren := d.paren - 1);
        case '[' =>
          d := d.(brackets := d.brackets + 1);
          if kind == Property && d.paren == 0 && d.braces == 0 && d.brackets == 1 && d.angle == 0 {
            return i;
          }
        case ']' => d := d.(brackets := d.brackets - 1);
        case '{' => d := d.(braces := d.braces + 1);
        case '}' => d := d.(braces := d.braces - 1);
        case '<' => d := d.(angle := d.angle + 1);
        case '>' => d := d.(angle := d.angle - 1);
        case _ =>
      }
      i := i + 1;
    }
    return -1;
  }

  /**
   * A comma seen at these depths separates two parameters: no angle brackets or
   * braces are open, and exactly the list's own parenthesis or bracket is.
   */
  predicate TopLevel(d: Depths)
  {
    && d.angle == 0 && d.braces == 0
    && ((d.paren == 1 && d.brackets == 0) || (d.paren == 0 && d.brackets == 1))
  }

  /** Part `p`, which left the counters at `d`, closes the parameter list of a `kind` symbol. */
  predicate Closes(kind: SymbolKind, d: Depths, p: Part)
  {
    || (IsPunct(p, ')') && d.paren == 0 && (kind == Method || kind == NamedType))
    || (IsPunct(p, ']') && d.brackets == 0 && kind == Property)
  }

  /**
   * Position `k`, reached with counters `d`, is where one parameter ends and the
   * next begins: a top-level comma followed by a space.
   */
  predicate IsBreakPoint(s: seq<Part>, k: nat, d: Depths)
  {
    k + 1 < |s| && IsPunct(s[k], ',') && TopLevel(d) && s[k + 1].kind == Space
  }
}

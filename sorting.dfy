/**
 * Ordering a sequence by a comparison: a stable insertion sort, which is how
 * the renderings order attributes by their display strings and base
 * interfaces by namespace and name.
 */
module Sorting {

  /** `le` compares every two elements, and transitively. */
  ghost predicate TotalPreorder<T(!new)>(le: (T, T) -> bool)
  {
    (forall x, y :: le(x, y) || le(y, x))
    && (forall x, y, z :: le(x, y) && le(y, z) ==> le(x, z))
  }

  predicate Sorted<T>(s: seq<T>, le: (T, T) -> bool)
  {
    forall i, j :: 0 <= i < j < |s| ==> le(s[i], s[j])
  }

  /** Inserts `x` after every element that does not come after it. */
  function Insert<T>(s: seq<T>, x: T, le: (T, T) -> bool): (r: seq<T>)
    ensures multiset(r) == multiset(s) + multiset{x}
    decreases |s|
  {
    if s == [] then [x]
    else if !le(s[0], x) then [x] + s
    else
      assert s == [s[0]] + s[1..];
      [s[0]] + Insert(s[1..], x, le)
  }

  /** The elements in the order of `le`; elements that compare equal keep their original order. */
  function SortBy<T>(s: seq<T>, le: (T, T) -> bool): (r: seq<T>)
    ensures multiset(r) == multiset(s)
    decreases |s|
  {
    if s == [] then []
    else
      assert s == s[..|s| - 1] + [s[|s| - 1]];
      Insert(SortBy(s[..|s| - 1], le), s[|s| - 1], le)
  }

  /** Sorting keeps exactly the elements it was given. */
  lemma SortByMembers<T>(s: seq<T>, le: (T, T) -> bool)
    ensures |SortBy(s, le)| == |s|
    ensures forall x :: x in SortBy(s, le) <==> x in s
  {
    var r := SortBy(s, le);
    assert |multiset(r)| == |multiset(s)|;
    forall x
      ensures x in r <==> x in s
    {
      assert x in r <==> x in multiset(r);
      assert x in s <==> x in multiset(s);
    }
  }

  /** Every element of `s` comes no earlier than `k`. */
  predicate AllAtLeast<T>(k: T, s: seq<T>, le: (T, T) -> bool)
  {
    forall j :: 0 <= j < |s| ==> le(k, s[j])
  }

  lemma BoundCons<T>(k: T, h: T, rest: seq<T>, le: (T, T) -> bool)
    requires le(k, h) && AllAtLeast(k, rest, le)
    ensures AllAtLeast(k, [h] + rest, le)
  {
    var r := [h] + rest;
    forall j | 1 <= j < |r|
      ensures le(k, r[j])
    {
      assert r[j] == rest[j - 1];
    }
  }

  lemma BoundTail<T>(k: T, s: seq<T>, le: (T, T) -> bool)
    requires s != [] && AllAtLeast(k, s, le)
    ensures AllAtLeast(k, s[1..], le)
  {
    var tail := s[1..];
    forall j | 0 <= j < |tail|
      ensures le(k, tail[j])
    {
      assert tail[j] == s[j + 1];
    }
  }

  lemma {:induction false} InsertKeepsBound<T>(k: T, s: seq<T>, x: T, le: (T, T) -> bool)
    requires AllAtLeast(k, s, le) && le(k, x)
    ensures AllAtLeast(k, Insert(s, x, le), le)
    decreases |s|
  {
    if s == [] {
      BoundCons(k, x, [], le);
    } else if !le(s[0], x) {
      BoundCons(k, x, s, le);
    } else {
      BoundTail(k, s, le);
      InsertKeepsBound(k, s[1..], x, le);
      BoundCons(k, s[0], Insert(s[1..], x, le), le);
    }
  }

  /** A head no later than every element of a sorted rest gives a sorted sequence. */
  lemma SortedCons<T>(h: T, rest: seq<T>, le: (T, T) -> bool)
    requires Sorted(rest, le) && AllAtLeast(h, rest, le)
    ensures Sorted([h] + rest, le)
  {
    var r := [h] + rest;
    forall i, j | 0 <= i < j < |r|
      ensures le(r[i], r[j])
    {
      assert r[j] == rest[j - 1];
      if i > 0 {
        assert r[i] == rest[i - 1];
      }
    }
  }

  lemma SortedTail<T>(s: seq<T>, le: (T, T) -> bool)
    requires s != [] && Sorted(s, le)
    ensures Sorted(s[1..], le) && AllAtLeast(s[0], s[1..], le)
  {
    var tail := s[1..];
    forall i, j | 0 <= i < j < |tail|
      ensures le(tail[i], tail[j])
    {
      assert tail[i] == s[i + 1] && tail[j] == s[j + 1];
    }
    forall j | 0 <= j < |tail|
      ensures le(s[0], tail[j])
    {
      assert tail[j] == s[j + 1];
    }
  }

  /** `x` comes strictly before the head: it goes first. */
  lemma InsertFront<T(!new)>(s: seq<T>, x: T, le: (T, T) -> bool)
    requires TotalPreorder(le) && Sorted(s, le)
    requires s != [] && !le(s[0], x)
    ensures Sorted([x] + s, le)
  {
    forall j | 0 <= j < |s|
      ensures le(x, s[j])
    {
      if j > 0 {
        assert le(s[0], s[j]);
      }
    }
    SortedCons(x, s, le);
  }

  lemma {:induction false} InsertSorted<T(!new)>(s: seq<T>, x: T, le: (T, T) -> bool)
    requires TotalPreorder(le) && Sorted(s, le)
    ensures Sorted(Insert(s, x, le), le)
    decreases |s|
  {
    if s == [] {
    } else if !le(s[0], x) {
      InsertFront(s, x, le);
    } else {
      SortedTail(s, le);
      InsertSorted(s[1..], x, le);
      InsertKeepsBound(s[0], s[1..], x, le);
      SortedCons(s[0], Insert(s[1..], x, le), le);
    }
  }

  /** Under a total preorder the result is sorted. */
  lemma {:induction false} SortBySorted<T(!new)>(s: seq<T>, le: (T, T) -> bool)
    requires TotalPreorder(le)
    ensures Sorted(SortBy(s, le), le)
    decreases |s|
  {
    if s != [] {
      SortBySorted(s[..|s| - 1], le);
      InsertSorted(SortBy(s[..|s| - 1], le), s[|s| - 1], le);
    }
  }

  /** `x` and `k` compare equal: each comes no later than the other. */
  predicate Equivalent<T>(x: T, k: T, le: (T, T) -> bool)
  {
    le(x, k) && le(k, x)
  }

  /** The elements of `s` that compare equal to `k`, in their order in `s`. */
  function Equivalents<T>(s: seq<T>, k: T, le: (T, T) -> bool): (r: seq<T>)
    ensures |r| <= |s|
    decreases |s|
  {
    if s == [] then []
    else if Equivalent(s[0], k, le) then [s[0]] + Equivalents(s[1..], k, le)
    else Equivalents(s[1..], k, le)
  }

  lemma {:induction false} EquivalentsConcat<T>(a: seq<T>, b: seq<T>, k: T, le: (T, T) -> bool)
    ensures Equivalents(a + b, k, le) == Equivalents(a, k, le) + Equivalents(b, k, le)
    decreases |a|
  {
    if a == [] {
      assert a + b == b;
    } else {
      assert (a + b)[0] == a[0];
      assert (a + b)[1..] == a[1..] + b;
      EquivalentsConcat(a[1..], b, k, le);
    }
  }

  /** Nothing in a sorted `t` compares equal to an `x` that its head comes after. */
  lemma {:induction false} NoEquivalentsAfter<T(!new)>(t: seq<T>, x: T, k: T, le: (T, T) -> bool)
    requires TotalPreorder(le) && Sorted(t, le)
    requires t != [] && !le(t[0], x) && Equivalent(x, k, le)
    ensures Equivalents(t, k, le) == []
    decreases |t|
  {
    var h := t[0];
    assert Equivalent(h, k, le) ==> le(h, x);
    if |t| > 1 {
      SortedTail(t, le);
      var h' := t[1];
      assert le(h, h');
      assert le(h', x) ==> le(h, x);
      NoEquivalentsAfter(t[1..], x, k, le);
    }
  }

  /** Inserting into a sorted list puts `x` after every element that compares equal to it. */
  lemma {:induction false} InsertEquivalents<T(!new)>(t: seq<T>, x: T, k: T, le: (T, T) -> bool)
    requires TotalPreorder(le) && Sorted(t, le)
    ensures Equivalents(Insert(t, x, le), k, le)
         == Equivalents(t, k, le) + Equivalents([x], k, le)
    decreases |t|
  {
    if t == [] {
    } else if !le(t[0], x) {
      EquivalentsConcat([x], t, k, le);
      if Equivalent(x, k, le) {
        NoEquivalentsAfter(t, x, k, le);
      }
    } else {
      SortedTail(t, le);
      InsertEquivalents(t[1..], x, k, le);
      var r := [t[0]] + Insert(t[1..], x, le);
      assert r[0] == t[0] && r[1..] == Insert(t[1..], x, le);
    }
  }

  /**
   * The sort is stable: the elements that compare equal to any `k` come out
   * in the order they went in.
   */
  lemma {:induction false} SortByStable<T(!new)>(s: seq<T>, k: T, le: (T, T) -> bool)
    requires TotalPreorder(le)
    ensures Equivalents(SortBy(s, le), k, le) == Equivalents(s, k, le)
    decreases |s|
  {
    if s != [] {
      var init, last := s[..|s| - 1], s[|s| - 1];
      SortByStable(init, k, le);
      SortBySorted(init, le);
      InsertEquivalents(SortBy(init, le), last, k, le);
      assert s == init + [last];
      EquivalentsConcat(init, [last], k, le);
    }
  }
}

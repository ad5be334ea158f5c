/** `Array.prototype.sort` with a comparator, as the listing pages use it:
    the array is sorted in place and the sort is stable (equal elements keep
    their relative order). A comparator result is read by its sign only; a
    `NaN` result is passed in as 0, which is how the language's sort reads it.

    The order produced is specified by `SortSeq`, insertion of each element
    after the last element that does not compare greater than it. For a
    comparator that is a consistent total preorder this is the one stable
    sorted arrangement, so it coincides with what any stable sort produces.
    For an inconsistent comparator the language leaves the order to the
    implementation, and `SortSeq` is one of the permutations a browser may
    give. */
module Sorting {

  /** Inserts `x` into `t`, scanning from the right past every element that
      compares greater than `x`. */
  function InsertLast<T>(t: seq<T>, x: T, cmp: (T, T) -> int): (r: seq<T>)
    ensures |r| == |t| + 1
  {
    if |t| == 0 then [x]
    else if cmp(t[|t| - 1], x) > 0 then InsertLast(t[..|t| - 1], x, cmp) + [t[|t| - 1]]
    else t + [x]
  }

  /** The stable sort of `s` under `cmp`. */
  function SortSeq<T>(s: seq<T>, cmp: (T, T) -> int): (r: seq<T>)
    ensures |r| == |s|
  {
    if |s| == 0 then [] else InsertLast(SortSeq(s[..|s| - 1], cmp), s[|s| - 1], cmp)
  }

  /** Every earlier element compares at most equal to every later one. */
  ghost predicate Sorted<T>(s: seq<T>, cmp: (T, T) -> int) {
    forall i, j :: 0 <= i < j < |s| ==> cmp(s[i], s[j]) <= 0
  }

  /** Any two elements of `s` are comparable one way or the other. */
  ghost predicate Total<T>(s: seq<T>, cmp: (T, T) -> int) {
    forall x, y :: x in s && y in s ==> cmp(x, y) <= 0 || cmp(y, x) <= 0
  }

  /** "Compares at most equal" is transitive on the elements of `s`. */
  ghost predicate Transitive<T>(s: seq<T>, cmp: (T, T) -> int) {
    forall x, y, z :: x in s && y in s && z in s && cmp(x, y) <= 0 && cmp(y, z) <= 0 ==> cmp(x, z) <= 0
  }

  // ------------------------------------------------------------- the method

  /** `a.sort(cmp)`: sorts `a` in place. */
  method InsertionSort<T>(a: array<T>, cmp: (T, T) -> int)
    modifies a
    ensures a[..] == SortSeq(old(a[..]), cmp)
  {
    ghost var s := a[..];
    var i := 0;
    while i < a.Length
      invariant 0 <= i <= a.Length
      invariant a[..i] == SortSeq(s[..i], cmp)
      invariant a[i..] == s[i..]
    {
      assert s[..i + 1][..i] == s[..i];
      InsertAt(a, i, cmp);
      i := i + 1;
    }
    assert a[..] == a[..a.Length];
    assert s == s[..a.Length];
  }

  /** One pass of the sort: moves `a[i]` left into the sorted prefix `a[..i]`. */
  method InsertAt<T>(a: array<T>, i: int, cmp: (T, T) -> int)
    requires 0 <= i < a.Length
    modifies a
    ensures a[..i + 1] == InsertLast(old(a[..i]), old(a[i]), cmp)
    ensures a[i + 1..] == old(a[i + 1..])
  {
    var x := a[i];
    ghost var p := a[..i];
    var j := i;
    assert p[..j] == p && p[j..i] == [];
    while j > 0 && cmp(a[j - 1], x) > 0
      invariant 0 <= j <= i
      invariant forall k :: 0 <= k < j ==> a[k] == p[k]
      invariant forall k :: j < k <= i ==> a[k] == p[k - 1]
      invariant forall k :: i < k < a.Length ==> a[k] == old(a[k])
      invariant InsertLast(p, x, cmp) == InsertLast(p[..j], x, cmp) + p[j..i]
      decreases j
    {
      InsertLastStep(p, j, i, x, cmp);
      a[j] := a[j - 1];
      j := j - 1;
    }
    InsertLastStop(p, j, x, cmp);
    a[j] := x;
    Placed(a[..i + 1], p, j, x);
  }

  /** The array prefix after the last move is the prefix before the gap,
      the inserted element, and the shifted rest. */
  lemma Placed<T>(s: seq<T>, p: seq<T>, j: int, x: T)
    requires 0 <= j < |s| && |p| == |s| - 1
    requires forall k :: 0 <= k < j ==> s[k] == p[k]
    requires s[j] == x
    requires forall k :: j < k < |s| ==> s[k] == p[k - 1]
    ensures s == p[..j] + [x] + p[j..]
  {
  }

  lemma InsertLastStep<T>(p: seq<T>, j: int, i: int, x: T, cmp: (T, T) -> int)
    requires 0 < j <= i == |p| && cmp(p[j - 1], x) > 0
    ensures InsertLast(p[..j], x, cmp) + p[j..i] == InsertLast(p[..j - 1], x, cmp) + p[j - 1..i]
  {
    assert p[..j][..j - 1] == p[..j - 1];
    assert p[j - 1..i] == [p[j - 1]] + p[j..i];
  }

  lemma InsertLastStop<T>(p: seq<T>, j: int, x: T, cmp: (T, T) -> int)
    requires 0 <= j <= |p| && (j == 0 || cmp(p[j - 1], x) <= 0)
    ensures InsertLast(p[..j], x, cmp) == p[..j] + [x]
  {
  }

  // ------------------------------------------------------------- its properties

  lemma {:induction false} InsertLastMultiset<T>(t: seq<T>, x: T, cmp: (T, T) -> int)
    ensures multiset(InsertLast(t, x, cmp)) == multiset(t) + multiset{x}
  {
    if |t| > 0 && cmp(t[|t| - 1], x) > 0 {
      InsertLastMultiset(t[..|t| - 1], x, cmp);
      assert t == t[..|t| - 1] + [t[|t| - 1]];
    }
  }

  /** Sorting only reorders: the result is a permutation of the input. */
  lemma {:induction false} SortPermutes<T>(s: seq<T>, cmp: (T, T) -> int)
    ensures multiset(SortSeq(s, cmp)) == multiset(s)
  {
    if |s| > 0 {
      var s', x := s[..|s| - 1], s[|s| - 1];
      assert s == s' + [x];
      assert multiset(s) == multiset(s') + multiset{x};
      SortPermutes(s', cmp);
      InsertLastMultiset(SortSeq(s', cmp), x, cmp);
    }
  }

  lemma InsertLastMember<T>(t: seq<T>, x: T, cmp: (T, T) -> int, y: T)
    requires y in InsertLast(t, x, cmp)
    ensures y in t || y == x
  {
    InsertLastMultiset(t, x, cmp);
    assert y in multiset(InsertLast(t, x, cmp));
  }

  lemma {:induction false} InsertLastSorted<T>(t: seq<T>, x: T, cmp: (T, T) -> int, u: seq<T>)
    requires Sorted(t, cmp)
    requires (forall y :: y in t ==> y in u) && x in u
    requires Total(u, cmp) && Transitive(u, cmp)
    ensures Sorted(InsertLast(t, x, cmp), cmp)
  {
    if |t| > 0 {
      var t' := t[..|t| - 1];
      var last := t[|t| - 1];
      assert last in u;
      if cmp(last, x) > 0 {
        assert Sorted(t', cmp);
        InsertLastSorted(t', x, cmp, u);
        var w := InsertLast(t', x, cmp);
        forall i | 0 <= i < |w| ensures cmp(w[i], last) <= 0 {
          InsertLastMember(t', x, cmp, w[i]);
          if w[i] != x {
            assert w[i] in t';
            var k :| 0 <= k < |t'| && t'[k] == w[i];
            assert t[k] == w[i];
          }
        }
      } else {
        forall i | 0 <= i < |t| ensures cmp(t[i], x) <= 0 {
          assert t[i] in u;
          if i < |t| - 1 {
            assert cmp(t[i], last) <= 0;
          }
        }
      }
    }
  }

  lemma SortMember<T>(s: seq<T>, cmp: (T, T) -> int, y: T)
    requires y in SortSeq(s, cmp)
    ensures y in s
  {
    SortPermutes(s, cmp);
    assert y in multiset(SortSeq(s, cmp));
  }

  /** With a comparator that is a total preorder on the input, the result is
      sorted. */
  lemma {:induction false} SortSorts<T>(s: seq<T>, cmp: (T, T) -> int, u: seq<T>)
    requires forall y :: y in s ==> y in u
    requires Total(u, cmp) && Transitive(u, cmp)
    ensures Sorted(SortSeq(s, cmp), cmp)
  {
    if |s| > 0 {
      var s' := s[..|s| - 1];
      assert s == s' + [s[|s| - 1]];
      SortSorts(s', cmp, u);
      forall y | y in SortSeq(s', cmp) ensures y in u {
        SortMember(s', cmp, y);
        assert y in s;
      }
      assert s[|s| - 1] in s;
      InsertLastSorted(SortSeq(s', cmp), s[|s| - 1], cmp, u);
    }
  }

  /** A comparator under which no element is greater than another leaves the
      order unchanged (the sort is stable). */
  lemma {:induction false} SortKeepsOrder<T>(s: seq<T>, cmp: (T, T) -> int)
    requires forall x, y :: x in s && y in s ==> cmp(x, y) <= 0
    ensures SortSeq(s, cmp) == s
  {
    if |s| > 0 {
      var s', x := s[..|s| - 1], s[|s| - 1];
      assert s == s' + [x];
      forall y, z | y in s' && z in s' ensures cmp(y, z) <= 0 {
        assert y in s && z in s;
      }
      SortKeepsOrder(s', cmp);
      if |s'| > 0 {
        assert s'[|s'| - 1] in s && x in s;
      }
      InsertLastStop(s', |s'|, x, cmp);
      assert s'[..|s'|] == s';
    }
  }
}

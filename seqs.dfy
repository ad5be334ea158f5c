/** Sequence operations shared by the listing pages and the admin form:
    `Array.prototype.filter` and the iteration order of a JavaScript `Set`
    built from an array (distinct values, first occurrence first). */
module Seqs {
  import opened Wrappers

  // ------------------------------------------------------------- filter

  /** `s.filter(p)`. */
  function Filter<T(!new)>(s: seq<T>, p: T -> bool): (r: seq<T>)
    ensures |r| <= |s|
    ensures forall x :: x in r <==> x in s && p(x)
  {
    if |s| == 0 then [] else (if p(s[0]) then [s[0]] else []) + Filter(s[1..], p)
  }

  /** Filtering keeps every copy of a kept value and no copy of the others. */
  lemma {:induction false} FilterCount<T(!new)>(s: seq<T>, p: T -> bool, x: T)
    ensures multiset(Filter(s, p))[x] == if p(x) then multiset(s)[x] else 0
  {
    if |s| > 0 {
      FilterCount(s[1..], p, x);
      assert s == [s[0]] + s[1..];
    }
  }

  /** Filtering only removes elements. */
  lemma FilterSubMultiset<T(!new)>(s: seq<T>, p: T -> bool)
    ensures multiset(Filter(s, p)) <= multiset(s)
  {
    forall x ensures multiset(Filter(s, p))[x] <= multiset(s)[x] {
      FilterCount(s, p, x);
    }
  }

  /** Filtering a sequence with a given head decides the head, then filters the rest. */
  lemma FilterCons<T(!new)>(x: T, rest: seq<T>, p: T -> bool)
    ensures Filter([x] + rest, p) == (if p(x) then [x] else []) + Filter(rest, p)
  {
    assert ([x] + rest)[1..] == rest;
  }

  /** Filtering a concatenation filters each part in place: relative order is kept. */
  lemma {:induction false} FilterAppend<T(!new)>(a: seq<T>, b: seq<T>, p: T -> bool)
    ensures Filter(a + b, p) == Filter(a, p) + Filter(b, p)
  {
    if |a| > 0 {
      assert (a + b)[1..] == a[1..] + b;
      FilterAppend(a[1..], b, p);
    } else {
      assert a + b == b;
    }
  }

  /** A filter step applied only when its control is set. */
  function FilterIf<T(!new)>(s: seq<T>, on: bool, p: T -> bool): seq<T> {
    if on then Filter(s, p) else s
  }

  lemma FilterIfAppend<T(!new)>(a: seq<T>, b: seq<T>, on: bool, p: T -> bool)
    ensures FilterIf(a + b, on, p) == FilterIf(a, on, p) + FilterIf(b, on, p)
  {
    if on {
      FilterAppend(a, b, p);
    }
  }

  lemma FilterIfOne<T(!new)>(x: T, on: bool, p: T -> bool)
    ensures FilterIf([x], on, p) == if !on || p(x) then [x] else []
  {
    assert [x][1..] == [];
  }

  /** One element through three conditional filter steps. */
  lemma OneThroughChain<T(!new)>(x: T, on1: bool, p1: T -> bool, on2: bool, p2: T -> bool, on3: bool, p3: T -> bool)
    ensures FilterIf(FilterIf(FilterIf([x], on1, p1), on2, p2), on3, p3)
         == if (!on1 || p1(x)) && (!on2 || p2(x)) && (!on3 || p3(x)) then [x] else []
  {
    FilterIfOne(x, on1, p1);
    FilterIfOne(x, on2, p2);
    FilterIfOne(x, on3, p3);
  }

  /** Three conditional filter steps in a row are one filter on the
      conjunction of the active ones, in input order. */
  lemma {:induction false} FilterChain<T(!new)>(s: seq<T>, on1: bool, p1: T -> bool, on2: bool, p2: T -> bool,
                                                on3: bool, p3: T -> bool, q: T -> bool)
    requires forall x :: q(x) == ((!on1 || p1(x)) && (!on2 || p2(x)) && (!on3 || p3(x)))
    ensures FilterIf(FilterIf(FilterIf(s, on1, p1), on2, p2), on3, p3) == Filter(s, q)
  {
    if |s| > 0 {
      var h, t := s[0], s[1..];
      assert s == [h] + t;
      FilterChain(t, on1, p1, on2, p2, on3, p3, q);
      var a1, b1 := FilterIf([h], on1, p1), FilterIf(t, on1, p1);
      FilterIfAppend([h], t, on1, p1);
      var a2, b2 := FilterIf(a1, on2, p2), FilterIf(b1, on2, p2);
      FilterIfAppend(a1, b1, on2, p2);
      FilterIfAppend(a2, b2, on3, p3);
      OneThroughChain(h, on1, p1, on2, p2, on3, p3);
      FilterCons(h, t, q);
    }
  }

  /** Two successive filters are one filter on the conjunction. */
  lemma {:induction false} FilterFilter<T(!new)>(s: seq<T>, p: T -> bool, q: T -> bool)
    ensures Filter(Filter(s, p), q) == Filter(s, x => p(x) && q(x))
  {
    if |s| > 0 {
      FilterFilter(s[1..], p, q);
      var head := if p(s[0]) then [s[0]] else [];
      FilterAppend(head, Filter(s[1..], p), q);
    }
  }

  /** A filter that every element passes is the identity. */
  lemma {:induction false} FilterAll<T(!new)>(s: seq<T>, p: T -> bool)
    requires forall i :: 0 <= i < |s| ==> p(s[i])
    ensures Filter(s, p) == s
  {
    if |s| > 0 {
      FilterAll(s[1..], p);
    }
  }

  /** A filter that no element passes gives the empty sequence. */
  lemma {:induction false} FilterNone<T(!new)>(s: seq<T>, p: T -> bool)
    requires forall i :: 0 <= i < |s| ==> !p(s[i])
    ensures Filter(s, p) == []
  {
    if |s| > 0 {
      FilterNone(s[1..], p);
    }
  }

  /** A predicate and its negation split a sequence: every element lands in
      exactly one of the two filters. */
  lemma Partition<T(!new)>(s: seq<T>, p: T -> bool, q: T -> bool)
    requires forall x :: q(x) == !p(x)
    ensures multiset(Filter(s, p)) + multiset(Filter(s, q)) == multiset(s)
  {
    forall x
      ensures (multiset(Filter(s, p)) + multiset(Filter(s, q)))[x] == multiset(s)[x]
    {
      FilterCount(s, p, x);
      FilterCount(s, q, x);
    }
  }

  function NotEqualTo<T(==)>(x: T): T -> bool {
    y => y != x
  }

  /** `s.filter(y => y !== x)`. */
  function Without<T(==, !new)>(s: seq<T>, x: T): (r: seq<T>)
    ensures x !in r && |r| <= |s|
  {
    Filter(s, NotEqualTo(x))
  }

  /** Removing a value drops every copy of it and keeps every copy of any
      other value. */
  lemma WithoutCounts<T(!new)>(s: seq<T>, x: T, y: T)
    ensures multiset(Without(s, x))[y] == if y == x then 0 else multiset(s)[y]
  {
    FilterCount(s, NotEqualTo(x), y);
  }

  /** Removing a value that is not there changes nothing. */
  lemma WithoutAbsent<T(!new)>(s: seq<T>, x: T)
    requires x !in s
    ensures Without(s, x) == s
  {
    FilterAll(s, NotEqualTo(x));
  }

  // ------------------------------------------------------------- distinct

  predicate NoDuplicates<T(==, !new)>(s: seq<T>) {
    forall i, j :: 0 <= i < j < |s| ==> s[i] != s[j]
  }

  /** Without repeats, every value occurs at most once. */
  lemma {:induction false} NoDuplicatesCounts<T(!new)>(s: seq<T>, x: T)
    requires NoDuplicates(s)
    ensures multiset(s)[x] <= 1
  {
    if |s| > 0 {
      assert s == [s[0]] + s[1..];
      assert NoDuplicates(s[1..]) by {
        forall i, j | 0 <= i < j < |s[1..]| ensures s[1..][i] != s[1..][j] {
          assert s[1..][i] == s[i + 1] && s[1..][j] == s[j + 1];
        }
      }
      NoDuplicatesCounts(s[1..], x);
      if x == s[0] {
        assert x !in s[1..] by {
          forall k | 0 <= k < |s[1..]| ensures s[1..][k] != x {
            assert s[1..][k] == s[k + 1];
          }
        }
      }
    }
  }

  /** A reordering of a sequence without repeats has none either. */
  lemma PermutationNoDuplicates<T(!new)>(s: seq<T>, t: seq<T>)
    requires NoDuplicates(s) && multiset(t) == multiset(s)
    ensures NoDuplicates(t)
  {
    forall i, j | 0 <= i < j < |t| ensures t[i] != t[j] {
      if t[i] == t[j] {
        assert t == t[..j] + [t[j]] + t[j + 1..];
        assert t[i] in t[..j];
        assert multiset(t)[t[i]] >= 2;
        NoDuplicatesCounts(s, t[i]);
        assert false;
      }
    }
  }

  /** The position of the first occurrence of `x` in `s`. */
  function FirstIndex<T(==, !new)>(s: seq<T>, x: T): (k: nat)
    requires x in s
    ensures k < |s| && s[k] == x
    ensures forall j :: 0 <= j < k ==> s[j] != x
  {
    if s[0] == x then 0 else 1 + FirstIndex(s[1..], x)
  }

  /** `[...new Set(s)]`: the distinct values of `s` in insertion order. */
  function Distinct<T(==, !new)>(s: seq<T>): (r: seq<T>)
    ensures forall x :: x in r <==> x in s
    ensures NoDuplicates(r)
  {
    if |s| == 0 then []
    else
      var d := Distinct(s[..|s| - 1]);
      if s[|s| - 1] in d then d else d + [s[|s| - 1]]
  }

  /** The distinct values come out ordered by where each first occurs. */
  lemma {:induction false} DistinctFirstOccurrenceOrder<T(!new)>(s: seq<T>)
    ensures forall i, j :: 0 <= i < j < |Distinct(s)| ==>
      FirstIndex(s, Distinct(s)[i]) < FirstIndex(s, Distinct(s)[j])
  {
    if |s| > 0 {
      var s' := s[..|s| - 1];
      var last := s[|s| - 1];
      var d := Distinct(s');
      DistinctFirstOccurrenceOrder(s');
      forall y | y in s' ensures FirstIndex(s, y) == FirstIndex(s', y) {
        assert s[FirstIndex(s', y)] == y;
      }
      if last !in d {
        assert FirstIndex(s, last) == |s| - 1;
      }
    }
  }

  // ------------------------------------------------------------- find

  /** `s.findIndex(p)`, with `None` for -1. */
  function FindIndex<T>(s: seq<T>, p: T -> bool): (r: Option<nat>)
    ensures r.Some? ==> r.value < |s| && p(s[r.value])
    ensures r.Some? ==> forall j :: 0 <= j < r.value ==> !p(s[j])
    ensures r.None? ==> forall j :: 0 <= j < |s| ==> !p(s[j])
  {
    if |s| == 0 then None
    else if p(s[0]) then Some(0)
    else match FindIndex(s[1..], p)
      case None => None
      case Some(k) => Some(k + 1)
  }

  /** `s.find(p)`: the first element satisfying `p`, `None` for undefined. */
  function Find<T>(s: seq<T>, p: T -> bool): (r: Option<T>)
    ensures r.Some? ==> p(r.value) && exists i :: 0 <= i < |s| && s[i] == r.value && forall j :: 0 <= j < i ==> !p(s[j])
    ensures r.None? ==> forall j :: 0 <= j < |s| ==> !p(s[j])
  {
    match FindIndex(s, p)
    case None => None
    case Some(i) => Some(s[i])
  }
}

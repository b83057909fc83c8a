/**
  Python's `sorted` and `list.sort`, as far as the program relies on them: the
  result is a sorted permutation, and under a strict total order that permutation
  is unique, so that the order in which the input was collected leaves no trace.
 */
module Sorting {
  ghost predicate StrictTotal<T(!new)>(less: (T, T) -> bool)
  {
    && (forall x :: !less(x, x))
    && (forall x, y, z :: less(x, y) && less(y, z) ==> less(x, z))
    && (forall x, y :: less(x, y) || less(y, x) || x == y)
  }

  ghost predicate Sorted<T>(s: seq<T>, less: (T, T) -> bool)
  {
    forall i, j :: 0 <= i < j < |s| ==> !less(s[j], s[i])
  }

  function Insert<T>(x: T, s: seq<T>, less: (T, T) -> bool): seq<T>
  {
    if s != [] && less(x, s[|s| - 1]) then Insert(x, s[..|s| - 1], less) + [s[|s| - 1]] else s + [x]
  }

  function Sort<T>(s: seq<T>, less: (T, T) -> bool): seq<T>
  {
    if s == [] then [] else Insert(s[|s| - 1], Sort(s[..|s| - 1], less), less)
  }

  lemma InitMultiset<T>(s: seq<T>)
    requires s != []
    ensures multiset(s) == multiset(s[..|s| - 1]) + multiset{s[|s| - 1]}
  {
    assert s == s[..|s| - 1] + [s[|s| - 1]];
  }

  lemma {:induction false} InsertPermutes<T>(x: T, s: seq<T>, less: (T, T) -> bool)
    ensures multiset(Insert(x, s, less)) == multiset(s) + multiset{x}
  {
    if s != [] && less(x, s[|s| - 1]) {
      InitMultiset(s);
      InsertPermutes(x, s[..|s| - 1], less);
    }
  }

  lemma {:induction false} SortPermutes<T>(s: seq<T>, less: (T, T) -> bool)
    ensures multiset(Sort(s, less)) == multiset(s)
    ensures |Sort(s, less)| == |s|
  {
    if s != [] {
      var init := s[..|s| - 1];
      SortPermutes(init, less);
      InsertPermutes(s[|s| - 1], Sort(init, less), less);
      InitMultiset(s);
    }
    assert |multiset(Sort(s, less))| == |multiset(s)|;
  }

  lemma MemberOfPermutation<T>(a: seq<T>, b: seq<T>, x: T)
    requires multiset(a) == multiset(b)
    ensures x in a <==> x in b
  {
    assert x in a <==> x in multiset(a);
    assert x in b <==> x in multiset(b);
  }

  lemma NotAbove<T(!new)>(s: seq<T>, y: T, x: T, less: (T, T) -> bool)
    requires StrictTotal(less)
    requires Sorted(s, less) && s != [] && less(x, s[|s| - 1])
    requires y in s[..|s| - 1] || y == x
    ensures !less(s[|s| - 1], y)
  {
  }

  lemma {:induction false} InsertSorts<T(!new)>(x: T, s: seq<T>, less: (T, T) -> bool)
    requires StrictTotal(less)
    requires Sorted(s, less)
    ensures Sorted(Insert(x, s, less), less)
  {
    if s != [] && less(x, s[|s| - 1]) {
      var init, last := s[..|s| - 1], s[|s| - 1];
      InsertSorts(x, init, less);
      var r := Insert(x, init, less);
      InsertPermutes(x, init, less);
      assert multiset(init + [x]) == multiset(init) + multiset{x};
      forall i | 0 <= i < |r| ensures !less(last, r[i]) {
        MemberOfPermutation(r, init + [x], r[i]);
        assert r[i] in init || r[i] == x;
        NotAbove(s, r[i], x, less);
      }
    }
  }

  lemma {:induction false} SortSorts<T(!new)>(s: seq<T>, less: (T, T) -> bool)
    requires StrictTotal(less)
    ensures Sorted(Sort(s, less), less)
  {
    if s != [] {
      SortSorts(s[..|s| - 1], less);
      InsertSorts(s[|s| - 1], Sort(s[..|s| - 1], less), less);
    }
  }

  lemma HeadIsLeast<T(!new)>(a: seq<T>, x: T, less: (T, T) -> bool)
    requires Sorted(a, less)
    requires x in multiset(a)
    ensures a != [] && (a[0] == x || !less(x, a[0]))
  {
    var j :| 0 <= j < |a| && a[j] == x;
  }

  lemma TailMultiset<T>(s: seq<T>)
    requires s != []
    ensures multiset(s[1..]) == multiset(s) - multiset{s[0]}
  {
    assert s == [s[0]] + s[1..];
  }

  lemma {:induction false} SortedIsUnique<T(!new)>(a: seq<T>, b: seq<T>, less: (T, T) -> bool)
    requires StrictTotal(less)
    requires Sorted(a, less) && Sorted(b, less)
    requires multiset(a) == multiset(b)
    ensures a == b
  {
    if a == [] {
      assert |multiset(b)| == |b|;
    } else {
      assert a[0] in multiset(a);
      HeadIsLeast(b, a[0], less);
      assert b[0] in multiset(b);
      HeadIsLeast(a, b[0], less);
      assert a[0] == b[0];
      TailMultiset(a);
      TailMultiset(b);
      SortedIsUnique(a[1..], b[1..], less);
      assert a == [a[0]] + a[1..] && b == [b[0]] + b[1..];
    }
  }

  /** A sorted list is already the sort of any of its permutations. */
  lemma SortFinds<T(!new)>(s: seq<T>, sorted: seq<T>, less: (T, T) -> bool)
    requires StrictTotal(less)
    requires Sorted(sorted, less)
    requires multiset(s) == multiset(sorted)
    ensures Sort(s, less) == sorted
  {
    SortPermutes(s, less);
    SortSorts(s, less);
    SortedIsUnique(Sort(s, less), sorted, less);
  }
}

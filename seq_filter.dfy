/**
  A model of `Array.prototype.filter` followed by `.length`, the two list
  operations the dashboard metrics are built from: the filtered list keeps
  the elements that satisfy the predicate, in their original order, and
  the number of them is the number of positions whose element satisfies it.
 */
module SeqFilter {

  /** The elements of `s` that satisfy `p`, in their original order. */
  function Filter<T(!new)>(p: T -> bool, s: seq<T>): (r: seq<T>)
    ensures |r| <= |s|
    ensures forall x :: x in r ==> x in s && p(x)
  {
    if s == [] then []
    else
      var rest := Filter(p, s[1..]);
      if p(s[0]) then [s[0]] + rest else rest
  }

  /** Filtering keeps every occurrence of an element that satisfies `p` and
      drops every occurrence of one that does not. */
  lemma {:induction false} FilterMultiset<T(!new)>(p: T -> bool, s: seq<T>)
    ensures forall x :: multiset(Filter(p, s))[x] == if p(x) then multiset(s)[x] else 0
  {
    if s != [] {
      assert s == [s[0]] + s[1..];
      FilterMultiset(p, s[1..]);
    }
  }

  /** The positions of `s` whose element satisfies `p`: the reference
      definition of "how many elements satisfy `p`". */
  function IndicesWhere<T(!new)>(p: T -> bool, s: seq<T>): set<int> {
    set i | 0 <= i < |s| && p(s[i])
  }

  /** Filtering distributes over concatenation: order is kept. */
  lemma {:induction false} FilterAppend<T(!new)>(p: T -> bool, a: seq<T>, b: seq<T>)
    ensures Filter(p, a + b) == Filter(p, a) + Filter(p, b)
  {
    if a == [] {
      assert a + b == b;
    } else {
      assert (a + b)[1..] == a[1..] + b;
      FilterAppend(p, a[1..], b);
    }
  }

  /** The length of the filtered list is the number of positions whose
      element satisfies `p`. */
  lemma {:induction false} FilterLengthCountsIndices<T(!new)>(p: T -> bool, s: seq<T>)
    ensures |Filter(p, s)| == |IndicesWhere(p, s)|
  {
    if s != [] {
      var n := |s| - 1;
      var init := s[..n];
      assert s == init + [s[n]];
      FilterAppend(p, init, [s[n]]);
      assert Filter(p, [s[n]]) == (if p(s[n]) then [s[n]] else []) by {
        assert [s[n]][1..] == [];
      }
      FilterLengthCountsIndices(p, init);
      assert IndicesWhere(p, init) == set i | 0 <= i < n && p(s[i]);
      if p(s[n]) {
        assert IndicesWhere(p, s) == IndicesWhere(p, init) + {n};
      } else {
        assert IndicesWhere(p, s) == IndicesWhere(p, init);
      }
    }
  }

  /** Filtering the same elements in another order keeps as many of them. */
  lemma FilterLengthPermutation<T(!new)>(p: T -> bool, s: seq<T>, t: seq<T>)
    requires multiset(s) == multiset(t)
    ensures |Filter(p, s)| == |Filter(p, t)|
  {
    var fs, ft := Filter(p, s), Filter(p, t);
    FilterMultiset(p, s);
    FilterMultiset(p, t);
    assert forall x :: multiset(fs)[x] == multiset(ft)[x];
    assert multiset(fs) == multiset(ft);
    assert |fs| == |multiset(fs)| && |ft| == |multiset(ft)|;
  }

  /** Every element is kept exactly when the filtered list is as long as the
      input, and none is kept exactly when it is empty. */
  lemma {:induction false} FilterLengthExtremes<T(!new)>(p: T -> bool, s: seq<T>)
    ensures |Filter(p, s)| == |s| <==> forall i :: 0 <= i < |s| ==> p(s[i])
    ensures |Filter(p, s)| == 0 <==> forall i :: 0 <= i < |s| ==> !p(s[i])
  {
    if s != [] {
      FilterLengthExtremes(p, s[1..]);
      assert forall i :: 1 <= i < |s| ==> s[i] == s[1..][i - 1];
    }
  }

  /** Two lists that agree position by position on whether their elements are
      kept yield filtered lists of the same length. */
  lemma FilterLengthPointwise<T(!new), U(!new)>(p: T -> bool, s: seq<T>, q: U -> bool, t: seq<U>)
    requires |s| == |t|
    requires forall i :: 0 <= i < |s| ==> p(s[i]) == q(t[i])
    ensures |Filter(p, s)| == |Filter(q, t)|
  {
    FilterLengthCountsIndices(p, s);
    FilterLengthCountsIndices(q, t);
    assert IndicesWhere(p, s) == IndicesWhere(q, t);
  }
}

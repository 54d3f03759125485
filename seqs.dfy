/** Sequence operations the storefront's JavaScript uses on arrays:
    `filter`, `reduce` sums, `splice(i, 1)` and element swaps, with the facts
    about them that the rest of the model relies on. */
module Seqs {

  /** `s.filter(p)`: the elements that satisfy p, in their original order. */
  function Filter<T>(s: seq<T>, p: T -> bool): (r: seq<T>)
    ensures |r| <= |s|
    ensures forall i :: 0 <= i < |r| ==> r[i] in s && p(r[i])
    ensures forall i :: 0 <= i < |s| && p(s[i]) ==> s[i] in r
  {
    if s == [] then []
    else if p(s[0]) then [s[0]] + Filter(s[1..], p)
    else Filter(s[1..], p)
  }

  /** a can be obtained from b by deleting elements (greedy matching). */
  predicate IsSubsequence<T(==)>(a: seq<T>, b: seq<T>)
    decreases |b|
  {
    if a == [] then true
    else if b == [] then false
    else if a[0] == b[0] then IsSubsequence(a[1..], b[1..])
    else IsSubsequence(a, b[1..])
  }

  /** Filtering keeps the survivors in their original relative order. */
  lemma {:induction false} FilterIsSubsequence<T>(s: seq<T>, p: T -> bool)
    ensures IsSubsequence(Filter(s, p), s)
  {
    if s != [] {
      FilterIsSubsequence(s[1..], p);
      var r := Filter(s[1..], p);
      if !p(s[0]) && r != [] {
        assert p(r[0]);
        assert r[0] != s[0];
      }
    }
  }

  /** Filtering by p then by q is filtering once by their conjunction. */
  lemma {:induction false} FilterFilter<T>(s: seq<T>, p: T -> bool, q: T -> bool)
    ensures Filter(Filter(s, p), q) == Filter(s, x => p(x) && q(x))
  {
    if s != [] {
      FilterFilter(s[1..], p, q);
      if p(s[0]) {
        assert Filter(s, p) == [s[0]] + Filter(s[1..], p);
        assert Filter(s, p)[1..] == Filter(s[1..], p);
      }
    }
  }

  /** Filtering first by a weaker predicate changes nothing. */
  lemma {:induction false} FilterImplied<T>(s: seq<T>, p: T -> bool, q: T -> bool)
    requires forall i :: 0 <= i < |s| ==> q(s[i]) ==> p(s[i])
    ensures Filter(Filter(s, p), q) == Filter(s, q)
  {
    if s != [] {
      FilterImplied(s[1..], p, q);
      if p(s[0]) {
        assert Filter(s, p) == [s[0]] + Filter(s[1..], p);
        assert Filter(s, p)[1..] == Filter(s[1..], p);
      }
    }
  }

  /** What x relates to in s it still relates to after filtering s. */
  lemma FilterKeepsRelated<T>(x: T, s: seq<T>, p: T -> bool, rel: (T, T) -> bool)
    requires forall k :: 0 <= k < |s| ==> rel(x, s[k])
    ensures forall j :: 0 <= j < |Filter(s, p)| ==> rel(x, Filter(s, p)[j])
  {
    var kept := Filter(s, p);
    forall j | 0 <= j < |kept| ensures rel(x, kept[j]) {
      var t :| 0 <= t < |s| && s[t] == kept[j];
    }
  }

  /** An element related to every later one, in front of a pairwise related
      sequence, gives a pairwise related sequence. */
  lemma ConsKeepsPairs<T>(x: T, s: seq<T>, rel: (T, T) -> bool)
    requires forall k :: 0 <= k < |s| ==> rel(x, s[k])
    requires forall i, j :: 0 <= i < j < |s| ==> rel(s[i], s[j])
    ensures forall i, j :: 0 <= i < j < |[x] + s| ==> rel(([x] + s)[i], ([x] + s)[j])
  {
    var all := [x] + s;
    forall i, j | 0 <= i < j < |all| ensures rel(all[i], all[j]) {
      assert all[j] == s[j - 1];
      if i > 0 {
        assert all[i] == s[i - 1];
      }
    }
  }

  /** A relation that holds between every earlier and later element still
      holds after filtering. */
  lemma {:induction false} FilterKeepsPairs<T>(s: seq<T>, p: T -> bool, rel: (T, T) -> bool)
    requires forall i, j :: 0 <= i < j < |s| ==> rel(s[i], s[j])
    ensures forall i, j :: 0 <= i < j < |Filter(s, p)| ==> rel(Filter(s, p)[i], Filter(s, p)[j])
  {
    if s != [] {
      var tail := s[1..];
      assert forall i, j :: 0 <= i < j < |tail| ==> rel(tail[i], tail[j]) by {
        forall i, j | 0 <= i < j < |tail| ensures rel(tail[i], tail[j]) {
          assert tail[i] == s[i + 1] && tail[j] == s[j + 1];
        }
      }
      FilterKeepsPairs(tail, p, rel);
      if p(s[0]) {
        assert forall k :: 0 <= k < |tail| ==> rel(s[0], tail[k]) by {
          forall k | 0 <= k < |tail| ensures rel(s[0], tail[k]) {
            assert tail[k] == s[k + 1];
          }
        }
        FilterKeepsRelated(s[0], tail, p, rel);
        ConsKeepsPairs(s[0], Filter(tail, p), rel);
        assert Filter(s, p) == [s[0]] + Filter(tail, p);
      } else {
        assert Filter(s, p) == Filter(tail, p);
      }
    }
  }

  /** Filtering distributes over concatenation. */
  lemma {:induction false} FilterAppend<T>(a: seq<T>, b: seq<T>, p: T -> bool)
    ensures Filter(a + b, p) == Filter(a, p) + Filter(b, p)
  {
    if a == [] {
      assert a + b == b;
    } else {
      assert (a + b)[0] == a[0];
      assert (a + b)[1..] == a[1..] + b;
      FilterAppend(a[1..], b, p);
    }
  }

  /** A filter that every element passes returns its input. */
  lemma {:induction false} FilterAll<T>(s: seq<T>, p: T -> bool)
    requires forall i :: 0 <= i < |s| ==> p(s[i])
    ensures Filter(s, p) == s
  {
    if s != [] {
      FilterAll(s[1..], p);
    }
  }

  /** A filter that no element passes returns nothing. */
  lemma {:induction false} FilterNone<T>(s: seq<T>, p: T -> bool)
    requires forall i :: 0 <= i < |s| ==> !p(s[i])
    ensures Filter(s, p) == []
  {
    if s != [] {
      FilterNone(s[1..], p);
    }
  }

  /** Filters with predicates that agree on every element return the same. */
  lemma {:induction false} FilterExt<T>(s: seq<T>, p: T -> bool, q: T -> bool)
    requires forall i :: 0 <= i < |s| ==> p(s[i]) == q(s[i])
    ensures Filter(s, p) == Filter(s, q)
  {
    if s != [] {
      FilterExt(s[1..], p, q);
    }
  }

  /** Three filters in a row are one filter by their conjunction. */
  lemma {:induction false} FilterThree<T>(s: seq<T>, p: T -> bool, q: T -> bool, r: T -> bool, k: T -> bool)
    requires forall i :: 0 <= i < |s| ==> k(s[i]) == (p(s[i]) && q(s[i]) && r(s[i]))
    ensures Filter(Filter(Filter(s, p), q), r) == Filter(s, k)
  {
    if s != [] {
      FilterThree(s[1..], p, q, r, k);
      if p(s[0]) {
        assert Filter(s, p) == [s[0]] + Filter(s[1..], p);
        if q(s[0]) {
          assert Filter(Filter(s, p), q) == [s[0]] + Filter(Filter(s[1..], p), q);
        }
      }
    }
  }

  /** `s.reduce((acc, x) => acc + f(x), 0)`. */
  function SumOf<T>(s: seq<T>, f: T -> int): int
  {
    if s == [] then 0 else f(s[0]) + SumOf(s[1..], f)
  }

  /** The sum of a concatenation is the sum of the sums. */
  lemma {:induction false} SumAppend<T>(a: seq<T>, b: seq<T>, f: T -> int)
    ensures SumOf(a + b, f) == SumOf(a, f) + SumOf(b, f)
  {
    if a == [] {
      assert a + b == b;
    } else {
      assert (a + b)[0] == a[0];
      assert (a + b)[1..] == a[1..] + b;
      SumAppend(a[1..], b, f);
    }
  }

  /** A sum of non-negative terms is non-negative, and strictly positive
      once one term is. */
  lemma {:induction false} SumNonNegative<T>(s: seq<T>, f: T -> int)
    requires forall i :: 0 <= i < |s| ==> f(s[i]) >= 0
    ensures SumOf(s, f) >= 0
    ensures (exists i :: 0 <= i < |s| && f(s[i]) > 0) ==> SumOf(s, f) > 0
  {
    if s != [] {
      SumNonNegative(s[1..], f);
      if exists i :: 0 <= i < |s| && f(s[i]) > 0 {
        var i :| 0 <= i < |s| && f(s[i]) > 0;
        if i > 0 {
          assert f(s[1..][i - 1]) > 0;
        }
      }
    }
  }

  /** Changing one element changes the sum by the difference of its terms. */
  lemma {:induction false} SumUpdate<T>(s: seq<T>, i: nat, x: T, f: T -> int)
    requires i < |s|
    ensures SumOf(s[i := x], f) == SumOf(s, f) - f(s[i]) + f(x)
  {
    if i == 0 {
      assert s[i := x][1..] == s[1..];
    } else {
      assert s[i := x][1..] == s[1..][i - 1 := x];
      SumUpdate(s[1..], i - 1, x, f);
    }
  }

  /** JavaScript's `s.splice(index, 1)`: a negative index counts from the end
      (clamped at 0), an index at or past the end removes nothing. */
  function SpliceOne<T>(s: seq<T>, index: int): (r: seq<T>)
  {
    var start := if index < 0 then (if |s| + index < 0 then 0 else |s| + index)
                 else if index > |s| then |s| else index;
    if start < |s| then s[..start] + s[start + 1..] else s
  }

  /** What `splice(index, 1)` removes: the element at the normalised index,
      the others staying in order, or nothing when that index is past the end. */
  lemma SpliceOneRemoves<T>(s: seq<T>, index: int)
    ensures 0 <= index < |s| ==> SpliceOne(s, index) == s[..index] + s[index + 1..]
    ensures -|s| <= index < 0 ==> SpliceOne(s, index) == s[..|s| + index] + s[|s| + index + 1..]
    ensures index >= |s| || s == [] ==> SpliceOne(s, index) == s
    ensures index < -|s| && s != [] ==> SpliceOne(s, index) == s[1..]
    ensures |SpliceOne(s, index)| == if s == [] || index >= |s| then |s| else |s| - 1
  {
  }

  /** Exchanging the elements at positions i and j. */
  function Swap<T>(s: seq<T>, i: nat, j: nat): (r: seq<T>)
    requires i < |s| && j < |s|
    ensures |r| == |s| && r[i] == s[j] && r[j] == s[i]
    ensures forall k :: 0 <= k < |s| && k != i && k != j ==> r[k] == s[k]
  {
    s[i := s[j]][j := s[i]]
  }

  /** A swap permutes the sequence. */
  lemma SwapIsPermutation<T>(s: seq<T>, i: nat, j: nat)
    requires i < |s| && j < |s|
    ensures multiset(Swap(s, i, j)) == multiset(s)
  {
    var t := s[i := s[j]];
    assert multiset(t) == multiset(s) - multiset{s[i]} + multiset{s[j]};
    assert multiset(t[j := s[i]]) == multiset(t) - multiset{t[j]} + multiset{s[i]};
  }

  /** The distinct values of s, each at its first occurrence. */
  function Distinct<T(==)>(s: seq<T>): (r: seq<T>)
    ensures forall i :: 0 <= i < |r| ==> r[i] in s
    ensures forall i :: 0 <= i < |s| ==> s[i] in r
    ensures forall i, j :: 0 <= i < j < |r| ==> r[i] != r[j]
    decreases |s|
  {
    if s == [] then []
    else
      var head := s[0];
      var rest := Filter(s[1..], x => x != head);
      [head] + Distinct(rest)
  }

  /** `s.findIndex(p)`: the first position satisfying p, or -1. */
  function FindIndex<T>(s: seq<T>, p: T -> bool): (r: int)
    ensures -1 <= r < |s|
    ensures r >= 0 ==> p(s[r]) && forall k :: 0 <= k < r ==> !p(s[k])
    ensures r == -1 ==> forall k :: 0 <= k < |s| ==> !p(s[k])
  {
    if s == [] then -1
    else if p(s[0]) then 0
    else
      var k := FindIndex(s[1..], p);
      if k == -1 then -1 else k + 1
  }

  /** Two sequences with the same multiset hold the same elements. */
  lemma PermutationSameElements<T>(a: seq<T>, b: seq<T>)
    requires multiset(a) == multiset(b)
    ensures forall i :: 0 <= i < |a| ==> a[i] in b
    ensures forall i :: 0 <= i < |b| ==> b[i] in a
  {
    forall i | 0 <= i < |a| ensures a[i] in b {
      assert a[i] in multiset(a);
    }
    forall i | 0 <= i < |b| ensures b[i] in a {
      assert b[i] in multiset(b);
    }
  }

  /** In a sequence without repeats each value occurs at most once. */
  lemma {:induction false} UniqueCountAtMostOne<T>(d: seq<T>, x: T)
    requires forall i, j :: 0 <= i < j < |d| ==> d[i] != d[j]
    ensures multiset(d)[x] <= 1
  {
    if d != [] {
      UniqueCountAtMostOne(d[1..], x);
      assert d == [d[0]] + d[1..];
      if d[0] == x {
        assert x !in d[1..];
      }
    }
  }

  /** A value at two positions occurs at least twice. */
  lemma TwoOccurrences<T>(r: seq<T>, i: nat, j: nat)
    requires i < j < |r| && r[i] == r[j]
    ensures multiset(r)[r[i]] >= 2
  {
    assert r == r[..j] + r[j..];
    assert r[..j][i] == r[i];
    assert r[j..][0] == r[j];
    assert r[i] in multiset(r[..j]);
    assert r[j] in multiset(r[j..]);
  }

  /** A permutation of a sequence without repeats has none either. */
  lemma PermutationKeepsDistinct<T>(d: seq<T>, r: seq<T>)
    requires multiset(r) == multiset(d)
    requires forall i, j :: 0 <= i < j < |d| ==> d[i] != d[j]
    ensures forall i, j :: 0 <= i < j < |r| ==> r[i] != r[j]
  {
    forall i, j | 0 <= i < j < |r| ensures r[i] != r[j] {
      if r[i] == r[j] {
        TwoOccurrences(r, i, j);
        UniqueCountAtMostOne(d, r[i]);
        assert false;
      }
    }
  }
}

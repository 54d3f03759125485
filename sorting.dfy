/** The orderings the SQL queries ask for (`ORDER BY created_at DESC`,
    `ORDER BY display_order`, `ORDER BY name`), as insertion sorts that
    return a sorted permutation of their input. */
module Sorting {
  import opened Text
  import opened Seqs

  predicate SortedBy<T>(s: seq<T>, key: T -> int) {
    forall i, j :: 0 <= i < j < |s| ==> key(s[i]) <= key(s[j])
  }

  /** Putting an element no larger than the head in front keeps a
      sequence sorted. */
  lemma ConsSorted<T>(y: T, t: seq<T>, key: T -> int)
    requires SortedBy(t, key)
    requires t != [] ==> key(y) <= key(t[0])
    ensures SortedBy([y] + t, key)
  {
    forall i, j | 0 <= i < j < |[y] + t| ensures key(([y] + t)[i]) <= key(([y] + t)[j]) {
      if 0 < i {
        assert ([y] + t)[i] == t[i - 1];
      }
      assert ([y] + t)[j] == t[j - 1];
    }
  }

  /** x placed before the first element whose key is not smaller. */
  function InsertBy<T(==)>(x: T, s: seq<T>, key: T -> int): (r: seq<T>)
    ensures multiset(r) == multiset(s) + multiset{x}
    ensures |r| == |s| + 1
  {
    if s == [] then [x]
    else if key(x) <= key(s[0]) then [x] + s
    else
      assert s == [s[0]] + s[1..];
      [s[0]] + InsertBy(x, s[1..], key)
  }

  /** Inserting into a key-sorted sequence keeps it sorted; the head is the
      new element or the old head. */
  lemma {:induction false} InsertBySorted<T>(x: T, s: seq<T>, key: T -> int)
    requires SortedBy(s, key)
    ensures SortedBy(InsertBy(x, s, key), key)
    ensures var r := InsertBy(x, s, key); r[0] == x || (s != [] && r[0] == s[0])
  {
    if s == [] {
    } else if key(x) <= key(s[0]) {
      ConsSorted(x, s, key);
    } else {
      var u := s[1..];
      assert SortedBy(u, key) by {
        forall i, j | 0 <= i < j < |u| ensures key(u[i]) <= key(u[j]) {
          assert u[i] == s[i + 1] && u[j] == s[j + 1];
        }
      }
      InsertBySorted(x, u, key);
      var t := InsertBy(x, u, key);
      assert t[0] == x || t[0] == s[1];
      ConsSorted(s[0], t, key);
    }
  }

  /** The elements of s in ascending key order. */
  function SortBy<T(==)>(s: seq<T>, key: T -> int): (r: seq<T>)
    ensures SortedBy(r, key)
    ensures multiset(r) == multiset(s)
    ensures |r| == |s|
  {
    if s == [] then []
    else
      assert s == [s[0]] + s[1..];
      var t := SortBy(s[1..], key);
      InsertBySorted(s[0], t, key);
      InsertBy(s[0], t, key)
  }

  /** Sorting a sequence that is already in order returns it unchanged. */
  lemma {:induction false} SortBySorted<T>(s: seq<T>, key: T -> int)
    requires SortedBy(s, key)
    ensures SortBy(s, key) == s
  {
    if s != [] {
      SortBySorted(s[1..], key);
      assert s == [s[0]] + s[1..];
    }
  }

  /** Inserting a key smaller than every key of a trailing block leaves
      that block at the end. */
  lemma {:induction false} InsertBeforeLarger<T>(x: T, s: seq<T>, b: seq<T>, key: T -> int)
    requires SortedBy(s + b, key)
    requires forall j :: 0 <= j < |b| ==> key(x) < key(b[j])
    ensures SortedBy(s, key)
    ensures InsertBy(x, s + b, key) == InsertBy(x, s, key) + b
  {
    assert SortedBy(s, key) by {
      forall i, j | 0 <= i < j < |s| ensures key(s[i]) <= key(s[j]) {
        assert (s + b)[i] == s[i] && (s + b)[j] == s[j];
      }
    }
    if s == [] {
      assert s + b == b;
    } else if key(x) <= key(s[0]) {
      assert (s + b)[0] == s[0];
      assert InsertBy(x, s + b, key) == [x] + (s + b);
      assert [x] + (s + b) == ([x] + s) + b;
    } else {
      assert (s + b)[0] == s[0];
      assert (s + b)[1..] == s[1..] + b;
      assert s == [s[0]] + s[1..];
      InsertBeforeLarger(x, s[1..], b, key);
      assert InsertBy(x, s + b, key) == [s[0]] + InsertBy(x, s[1..] + b, key);
      assert InsertBy(x, s, key) == [s[0]] + InsertBy(x, s[1..], key);
    }
  }

  /** Two sorted sequences, every key of the first below every key of the
      second, concatenate to a sorted sequence. */
  lemma AppendSorted<T>(s: seq<T>, b: seq<T>, key: T -> int)
    requires SortedBy(s, key) && SortedBy(b, key)
    requires forall i, j :: 0 <= i < |s| && 0 <= j < |b| ==> key(s[i]) < key(b[j])
    ensures SortedBy(s + b, key)
  {
    forall i, j | 0 <= i < j < |s + b| ensures key((s + b)[i]) <= key((s + b)[j]) {
      if j < |s| {
        assert (s + b)[i] == s[i] && (s + b)[j] == s[j];
      } else if i >= |s| {
        assert (s + b)[i] == b[i - |s|] && (s + b)[j] == b[j - |s|];
      } else {
        assert (s + b)[i] == s[i] && (s + b)[j] == b[j - |s|];
      }
    }
  }

  /** Sorting a sequence followed by a sorted block of larger keys sorts
      the front and leaves the block at the end. */
  lemma {:induction false} SortAppendLarger<T>(a: seq<T>, b: seq<T>, key: T -> int)
    requires SortedBy(b, key)
    requires forall i, j :: 0 <= i < |a| && 0 <= j < |b| ==> key(a[i]) < key(b[j])
    ensures SortBy(a + b, key) == SortBy(a, key) + b
  {
    if a == [] {
      assert a + b == b;
      SortBySorted(b, key);
    } else {
      assert (a + b)[0] == a[0];
      assert (a + b)[1..] == a[1..] + b;
      SortAppendLarger(a[1..], b, key);
      var s := SortBy(a[1..], key);
      PermutationSameElements(s, a[1..]);
      assert forall i, j :: 0 <= i < |s| && 0 <= j < |b| ==> key(s[i]) < key(b[j]) by {
        forall i, j | 0 <= i < |s| && 0 <= j < |b| ensures key(s[i]) < key(b[j]) {
          assert s[i] in a[1..];
        }
      }
      AppendSorted(s, b, key);
      InsertBeforeLarger(a[0], s, b, key);
    }
  }

  predicate SortedByName<T>(s: seq<T>, name: T -> string) {
    forall i, j :: 0 <= i < j < |s| ==> LexLe(name(s[i]), name(s[j]))
  }

  /** Putting a name no later than every name of a sorted sequence in front
      keeps it sorted. */
  lemma ConsSortedByName<T>(y: T, t: seq<T>, name: T -> string)
    requires SortedByName(t, name)
    requires t != [] ==> LexLe(name(y), name(t[0]))
    ensures SortedByName([y] + t, name)
  {
    forall i, j | 0 <= i < j < |[y] + t| ensures LexLe(name(([y] + t)[i]), name(([y] + t)[j])) {
      assert ([y] + t)[j] == t[j - 1];
      if 0 < i {
        assert ([y] + t)[i] == t[i - 1];
      } else if 1 < j {
        LexLeTransitive(name(y), name(t[0]), name(t[j - 1]));
      }
    }
  }

  /** x placed before the first element whose name is not earlier. */
  function InsertByName<T(==)>(x: T, s: seq<T>, name: T -> string): (r: seq<T>)
    ensures multiset(r) == multiset(s) + multiset{x}
    ensures |r| == |s| + 1
  {
    if s == [] then [x]
    else if LexLe(name(x), name(s[0])) then [x] + s
    else
      assert s == [s[0]] + s[1..];
      [s[0]] + InsertByName(x, s[1..], name)
  }

  /** Inserting into a name-sorted sequence keeps it sorted; the head is
      the new element or the old head. */
  lemma {:induction false} InsertByNameSorted<T>(x: T, s: seq<T>, name: T -> string)
    requires SortedByName(s, name)
    ensures SortedByName(InsertByName(x, s, name), name)
    ensures var r := InsertByName(x, s, name); r[0] == x || (s != [] && r[0] == s[0])
  {
    if s == [] {
    } else if LexLe(name(x), name(s[0])) {
      ConsSortedByName(x, s, name);
    } else {
      LexLeTotal(name(x), name(s[0]));
      var u := s[1..];
      assert SortedByName(u, name) by {
        forall i, j | 0 <= i < j < |u| ensures LexLe(name(u[i]), name(u[j])) {
          assert u[i] == s[i + 1] && u[j] == s[j + 1];
        }
      }
      InsertByNameSorted(x, u, name);
      var t := InsertByName(x, u, name);
      assert t[0] == x || t[0] == s[1];
      ConsSortedByName(s[0], t, name);
    }
  }

  /** The elements of s in ascending order of their names. */
  function SortByName<T(==)>(s: seq<T>, name: T -> string): (r: seq<T>)
    ensures SortedByName(r, name)
    ensures multiset(r) == multiset(s)
    ensures |r| == |s|
  {
    if s == [] then []
    else
      assert s == [s[0]] + s[1..];
      var t := SortByName(s[1..], name);
      InsertByNameSorted(s[0], t, name);
      InsertByName(s[0], t, name)
  }
}

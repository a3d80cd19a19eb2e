/**
 * The list operations the handlers and client stores rely on: `filter`, `findIndex`,
 * a stable sort by a numeric key (a query's `orderBy`) and a prefix (a query's `take`).
 */
module Seqs {

  /** `s.filter(p)`: the elements satisfying `p`, in their original order. */
  function Filter<T(!new)>(s: seq<T>, p: T -> bool): (r: seq<T>)
    ensures |r| <= |s|
    ensures forall i :: 0 <= i < |r| ==> p(r[i])
    ensures forall x :: x in r <==> x in s && p(x)
  {
    if s == [] then []
    else
      var rest := Filter(s[1..], p);
      assert s == [s[0]] + s[1..];
      if p(s[0]) then [s[0]] + rest else rest
  }

  /** The number of elements satisfying `p`. */
  function Count<T(!new)>(s: seq<T>, p: T -> bool): nat {
    |Filter(s, p)|
  }

  /** Filtering a sequence with a first element `x`. */
  lemma FilterCons<T(!new)>(x: T, s: seq<T>, p: T -> bool)
    ensures Filter([x] + s, p) == (if p(x) then [x] else []) + Filter(s, p)
  {
    assert ([x] + s)[1..] == s;
  }

  /** Filtering keeps every occurrence of an element that satisfies `p` and none of one
      that does not. */
  lemma {:induction false} FilterMultiplicity<T(!new)>(s: seq<T>, p: T -> bool, x: T)
    ensures multiset(Filter(s, p))[x] == if p(x) then multiset(s)[x] else 0
    decreases |s|
  {
    if s != [] {
      assert s == [s[0]] + s[1..];
      FilterCons(s[0], s[1..], p);
      FilterMultiplicity(s[1..], p, x);
    }
  }

  /** Filtering distributes over concatenation. */
  lemma {:induction false} FilterAppend<T(!new)>(a: seq<T>, b: seq<T>, p: T -> bool)
    ensures Filter(a + b, p) == Filter(a, p) + Filter(b, p)
    decreases |a|
  {
    if a != [] {
      var head := if p(a[0]) then [a[0]] else [];
      assert (a + b)[0] == a[0] && (a + b)[1..] == a[1..] + b;
      assert Filter(a + b, p) == head + Filter(a[1..] + b, p);
      assert Filter(a, p) == head + Filter(a[1..], p);
      FilterAppend(a[1..], b, p);
    } else {
      assert a + b == b;
    }
  }

  /** Every element falls on exactly one side of a filter. */
  lemma {:induction false} FilterSplit<T(!new)>(s: seq<T>, p: T -> bool, q: T -> bool)
    requires forall x :: q(x) == !p(x)
    ensures |Filter(s, p)| + |Filter(s, q)| == |s|
    decreases |s|
  {
    if s != [] { FilterSplit(s[1..], p, q); }
  }

  /** Filtering by `q` after `p` is filtering by `q` when `q` implies `p`. */
  lemma {:induction false} FilterImplied<T(!new)>(s: seq<T>, p: T -> bool, q: T -> bool)
    requires forall x :: q(x) ==> p(x)
    ensures Filter(Filter(s, p), q) == Filter(s, q)
    decreases |s|
  {
    if s != [] {
      var t := s[1..];
      FilterImplied(t, p, q);
      assert Filter(s, p) == (if p(s[0]) then [s[0]] else []) + Filter(t, p);
      assert Filter(s, q) == (if q(s[0]) then [s[0]] else []) + Filter(t, q);
      if p(s[0]) {
        FilterCons(s[0], Filter(t, p), q);
      }
    }
  }

  /** Nothing satisfies `p` exactly when filtering by `p` leaves nothing. */
  lemma FilterEmptyIff<T(!new)>(s: seq<T>, p: T -> bool)
    ensures Filter(s, p) == [] <==> forall x :: x in s ==> !p(x)
  {
    if Filter(s, p) != [] {
      assert Filter(s, p)[0] in Filter(s, p);
    }
  }

  /** No two elements share a key (a primary key or a unique column). */
  ghost predicate Distinct<T, K>(s: seq<T>, key: T -> K) {
    forall i, j :: 0 <= i < j < |s| ==> key(s[i]) != key(s[j])
  }

  /** In a sequence with distinct keys an element is determined by its key. */
  lemma DistinctSame<T, K>(s: seq<T>, key: T -> K, x: T, y: T)
    requires Distinct(s, key) && x in s && y in s && key(x) == key(y)
    ensures x == y
  {
    var i :| 0 <= i < |s| && s[i] == x;
    var j :| 0 <= j < |s| && s[j] == y;
    if i != j { assert false; }
  }

  /** Filtering keeps keys distinct. */
  lemma {:induction false} FilterDistinct<T(!new), K>(s: seq<T>, p: T -> bool, key: T -> K)
    requires Distinct(s, key)
    ensures Distinct(Filter(s, p), key)
    decreases |s|
  {
    if s != [] {
      FilterDistinct(s[1..], p, key);
      assert s == [s[0]] + s[1..];
      FilterCons(s[0], s[1..], p);
      var rest := Filter(s[1..], p);
      forall x | x in rest ensures key(x) != key(s[0]) {
        var j :| 0 <= j < |s[1..]| && s[1..][j] == x;
        assert s[j + 1] == x;
      }
    }
  }

  /** Appending an element with a new key keeps keys distinct. */
  lemma DistinctAppend<T, K>(s: seq<T>, x: T, key: T -> K)
    requires Distinct(s, key) && forall y :: y in s ==> key(y) != key(x)
    ensures Distinct(s + [x], key)
  {
    var t := s + [x];
    forall i, j | 0 <= i < j < |t| ensures key(t[i]) != key(t[j]) {
      if j == |s| { assert t[i] in s; }
    }
  }

  /** `key` is non-decreasing along `s`. */
  ghost predicate SortedBy<T>(s: seq<T>, key: T -> int) {
    forall i, j :: 0 <= i < j < |s| ==> key(s[i]) <= key(s[j])
  }

  /** The key negated, to sort in descending order. */
  function Negated<T>(key: T -> int): T -> int {
    x => -key(x)
  }

  /** Sorted by the negated key is sorted by the key in descending order. */
  lemma SortedDescending<T>(s: seq<T>, key: T -> int)
    requires SortedBy(s, Negated(key))
    ensures forall j, k :: 0 <= j < k < |s| ==> key(s[j]) >= key(s[k])
  {
    forall j, k | 0 <= j < k < |s| ensures key(s[j]) >= key(s[k]) {
      assert Negated(key)(s[j]) <= Negated(key)(s[k]);
    }
  }

  /** Inserts `x` before the first element whose key is not smaller. */
  function Insert<T>(x: T, s: seq<T>, key: T -> int): (r: seq<T>)
    ensures |r| == |s| + 1
  {
    if s == [] then [x]
    else if key(x) <= key(s[0]) then [x] + s
    else [s[0]] + Insert(x, s[1..], key)
  }

  /** Insertion adds exactly `x` to the multiset of elements. */
  lemma {:induction false} InsertPermutes<T>(x: T, s: seq<T>, key: T -> int)
    ensures multiset(Insert(x, s, key)) == multiset(s) + multiset{x}
    decreases |s|
  {
    if s != [] && key(x) > key(s[0]) {
      InsertPermutes(x, s[1..], key);
      assert s == [s[0]] + s[1..];
    }
  }

  /** Every element of an insertion's result is `x` or comes from `s`. */
  lemma InsertFrom<T>(x: T, s: seq<T>, key: T -> int, y: T)
    requires y in Insert(x, s, key)
    ensures y == x || y in s
  {
    InsertPermutes(x, s, key);
    assert y in multiset(Insert(x, s, key));
  }

  /** Insertion into a sorted sequence keeps it sorted. */
  lemma {:induction false} InsertSorted<T>(x: T, s: seq<T>, key: T -> int)
    requires SortedBy(s, key)
    ensures SortedBy(Insert(x, s, key), key)
    decreases |s|
  {
    if s != [] && key(x) > key(s[0]) {
      var rest := Insert(x, s[1..], key);
      InsertSorted(x, s[1..], key);
      forall j | 0 <= j < |rest| ensures key(s[0]) <= key(rest[j]) {
        InsertFrom(x, s[1..], key, rest[j]);
      }
      assert Insert(x, s, key) == [s[0]] + rest;
    }
  }

  /** A stable insertion sort by `key`: a permutation of `s` in non-decreasing key order. */
  function SortBy<T>(s: seq<T>, key: T -> int): (r: seq<T>)
    ensures |r| == |s|
    ensures multiset(r) == multiset(s)
    ensures SortedBy(r, key)
  {
    if s == [] then []
    else
      var rest := SortBy(s[1..], key);
      InsertPermutes(s[0], rest, key);
      InsertSorted(s[0], rest, key);
      assert s == [s[0]] + s[1..];
      Insert(s[0], rest, key)
  }

  /** Sorting keeps exactly the same elements. */
  lemma SortByMembers<T>(s: seq<T>, key: T -> int)
    ensures forall x :: x in SortBy(s, key) <==> x in s
  {
    forall x ensures x in SortBy(s, key) <==> x in s {
      assert x in SortBy(s, key) <==> x in multiset(SortBy(s, key));
    }
  }

  /** `s.map(f)`. */
  function Map<T(!new), U(!new)>(s: seq<T>, f: T -> U): (r: seq<U>)
    ensures |r| == |s|
    ensures forall k :: 0 <= k < |s| ==> r[k] == f(s[k])
    ensures forall y :: y in r <==> exists x :: x in s && y == f(x)
  {
    var r := seq(|s|, k requires 0 <= k < |s| => f(s[k]));
    assert forall x :: x in s ==> f(x) in r by {
      forall x | x in s ensures f(x) in r {
        var k :| 0 <= k < |s| && s[k] == x;
        assert r[k] == f(x);
      }
    }
    r
  }

  /** `take: n` of a query: the first `n` elements, or all of them when there are fewer. */
  function Take<T>(s: seq<T>, n: nat): (r: seq<T>)
    ensures |r| == if |s| <= n then |s| else n
    ensures r == s[..|r|]
  {
    if |s| <= n then s else s[..n]
  }

  /** A prefix of a sorted sequence is sorted, and no later element has a smaller key
      than any element of the prefix. */
  lemma TakeSorted<T>(s: seq<T>, n: nat, key: T -> int)
    requires SortedBy(s, key)
    ensures SortedBy(Take(s, n), key)
    ensures forall i, j :: 0 <= i < |Take(s, n)| <= j < |s| ==> key(s[i]) <= key(s[j])
  {
  }

  /** Whatever `s` holds beyond its prefix lies in the remaining suffix. */
  lemma TakeRest<T>(s: seq<T>, n: nat, x: T)
    requires x in s && x !in Take(s, n)
    ensures exists j :: |Take(s, n)| <= j < |s| && s[j] == x
  {
    var j :| 0 <= j < |s| && s[j] == x;
  }

  /** `findMany({ where, orderBy: { key: "asc" }, take: n })`: the `n` rows with the
      smallest keys among those satisfying `where`, in ascending key order. */
  function FindMany<T(!new)>(rows: seq<T>, where: T -> bool, key: T -> int, n: nat): (r: seq<T>)
    ensures |r| <= n
    ensures forall x :: x in r ==> x in rows && where(x)
    ensures SortedBy(r, key)
  {
    var sorted := SortBy(Filter(rows, where), key);
    TakeSorted(sorted, n, key);
    assert forall x :: x in Take(sorted, n) ==> x in multiset(sorted);
    Take(sorted, n)
  }

  /** A matching row left out by the query has a key no smaller than any row taken. */
  lemma FindManyOldest<T(!new)>(rows: seq<T>, where: T -> bool, key: T -> int, n: nat, x: T)
    requires x in rows && where(x) && x !in FindMany(rows, where, key, n)
    ensures forall y :: y in FindMany(rows, where, key, n) ==> key(y) <= key(x)
  {
    var sorted := SortBy(Filter(rows, where), key);
    assert x in multiset(sorted);
    TakeSorted(sorted, n, key);
    TakeRest(sorted, n, x);
    var j :| |Take(sorted, n)| <= j < |sorted| && sorted[j] == x;
    forall y | y in Take(sorted, n) ensures key(y) <= key(x) {
      var i :| 0 <= i < |Take(sorted, n)| && Take(sorted, n)[i] == y;
    }
  }

  /** When at most `n` rows match, the query takes every one of them. */
  lemma FindManyAll<T(!new)>(rows: seq<T>, where: T -> bool, key: T -> int, n: nat)
    requires |Filter(rows, where)| <= n
    ensures forall x :: x in FindMany(rows, where, key, n) <==> x in rows && where(x)
  {
    var sorted := SortBy(Filter(rows, where), key);
    assert Take(sorted, n) == sorted;
    forall x | x in rows && where(x) ensures x in sorted {
      assert x in multiset(Filter(rows, where));
    }
  }

  /** `findIndex`: the position of the first element with key `k`, or -1. */
  function FindIndex<T, K(==)>(s: seq<T>, key: T -> K, k: K): (r: int)
    ensures -1 <= r < |s|
    ensures r >= 0 ==> key(s[r]) == k && forall j :: 0 <= j < r ==> key(s[j]) != k
    ensures r == -1 <==> forall j :: 0 <= j < |s| ==> key(s[j]) != k
  {
    if s == [] then -1
    else if key(s[0]) == k then 0
    else
      var r := FindIndex(s[1..], key, k);
      if r == -1 then -1 else r + 1
  }
}

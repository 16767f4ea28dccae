/**
 * The LINQ operators the services apply to tables and lists: `Where`, `Any`, `OrderBy`
 * (a stable sort on a key), `Skip` and `Take`, with the facts the services' proofs use.
 */
module Sequences {

  /** No element occurs twice. */
  ghost predicate NoDup<T>(s: seq<T>) {
    forall i, j :: 0 <= i < j < |s| ==> s[i] != s[j]
  }

  /** A sequence without repetitions has as many elements as the set of its elements. */
  lemma {:induction false} DistinctCardinality<T>(s: seq<T>)
    requires NoDup(s)
    ensures |set x | x in s| == |s|
    decreases |s|
  {
    if s != [] {
      var t := s[..|s| - 1];
      DistinctCardinality(t);
      assert (set x | x in s) == (set x | x in t) + {s[|s| - 1]};
      assert s[|s| - 1] !in (set x | x in t);
    }
  }

  /** Two repetition-free sequences with the same elements have the same length. */
  lemma SameElementsSameLength<T>(a: seq<T>, b: seq<T>)
    requires NoDup(a) && NoDup(b)
    requires forall x :: x in a <==> x in b
    ensures |a| == |b|
  {
    DistinctCardinality(a);
    DistinctCardinality(b);
    assert (set x | x in a) == (set x | x in b);
  }

  /** `s.Where(p)`: the elements of `s` that satisfy `p`, in their order in `s`. */
  function Where<T>(s: seq<T>, p: T -> bool): (r: seq<T>)
    ensures |r| <= |s|
    ensures forall x :: x in r ==> x in s && p(x)
    ensures forall x :: x in s && p(x) ==> x in r
    decreases |s|
  {
    if s == [] then [] else (if p(s[0]) then [s[0]] else []) + Where(s[1..], p)
  }

  /** Filtering twice is filtering once by the conjunction: chained `Where` calls narrow a query. */
  lemma {:induction false} WhereWhere<T>(s: seq<T>, p: T -> bool, q: T -> bool, pq: T -> bool)
    requires forall x :: x in s ==> (pq(x) <==> p(x) && q(x))
    ensures Where(Where(s, p), q) == Where(s, pq)
    decreases |s|
  {
    if s != [] {
      WhereWhere(s[1..], p, q, pq);
      var w := Where(s[1..], p);
      if p(s[0]) {
        assert Where(s, p) == [s[0]] + w;
        assert ([s[0]] + w)[0] == s[0] && ([s[0]] + w)[1..] == w;
        assert Where(s, pq) == (if q(s[0]) then [s[0]] else []) + Where(s[1..], pq);
      } else {
        assert Where(s, p) == w;
        assert Where(s, pq) == Where(s[1..], pq);
      }
    }
  }

  /** Two filters that agree on every element select the same elements. */
  lemma {:induction false} WhereCongruent<T>(s: seq<T>, p: T -> bool, q: T -> bool)
    requires forall x :: x in s ==> (p(x) <==> q(x))
    ensures Where(s, p) == Where(s, q)
    decreases |s|
  {
    if s != [] {
      WhereCongruent(s[1..], p, q);
    }
  }

  /** A weaker filter keeps at least as many elements. */
  lemma {:induction false} WhereMonotone<T>(s: seq<T>, p: T -> bool, q: T -> bool)
    requires forall x :: x in s && p(x) ==> q(x)
    ensures |Where(s, p)| <= |Where(s, q)|
    decreases |s|
  {
    if s != [] {
      WhereMonotone(s[1..], p, q);
    }
  }

  /** `s.Any(p)`. */
  predicate Any<T>(s: seq<T>, p: T -> bool)
    decreases |s|
  {
    s != [] && (p(s[0]) || Any(s[1..], p))
  }

  lemma {:induction false} AnyExists<T>(s: seq<T>, p: T -> bool)
    ensures Any(s, p) <==> exists x :: x in s && p(x)
    decreases |s|
  {
    if s != [] {
      AnyExists(s[1..], p);
      assert forall x :: x in s <==> x == s[0] || x in s[1..];
    }
  }

  /** `s.Skip(n)`: the elements after the first `n`; a count that is not positive skips nothing. */
  function Skip<T>(s: seq<T>, n: int): seq<T> {
    if n <= 0 then s else if n >= |s| then [] else s[n..]
  }

  /** `s.Take(n)`: the first `n` elements; a count that is not positive takes nothing. */
  function Take<T>(s: seq<T>, n: int): seq<T> {
    if n <= 0 then [] else if n >= |s| then s else s[..n]
  }

  /**
   * A sort key: rows are ordered by `tier` first and `value` second. PostgreSQL places NULL
   * after every value in ascending order, which a second tier expresses.
   */
  datatype SortKey = SortKey(tier: int, value: int)

  predicate KeyLe(a: SortKey, b: SortKey) {
    a.tier < b.tier || (a.tier == b.tier && a.value <= b.value)
  }

  /** `x` may precede `y` in the requested direction. */
  predicate Before<T>(key: T -> SortKey, descending: bool, x: T, y: T) {
    if descending then KeyLe(key(y), key(x)) else KeyLe(key(x), key(y))
  }

  ghost predicate Sorted<T>(s: seq<T>, key: T -> SortKey, descending: bool) {
    forall i, j :: 0 <= i < j < |s| ==> Before(key, descending, s[i], s[j])
  }

  /** Places `x` in front of the first element it may precede. */
  function Insert<T>(x: T, s: seq<T>, key: T -> SortKey, descending: bool): seq<T>
    decreases |s|
  {
    if s == [] then [x]
    else if Before(key, descending, x, s[0]) then [x] + s
    else [s[0]] + Insert(x, s[1..], key, descending)
  }

  /**
   * `OrderBy(key)` / `OrderByDescending(key)`: an insertion sort that keeps rows with equal
   * keys in their original order.
   */
  function SortBy<T>(s: seq<T>, key: T -> SortKey, descending: bool): seq<T>
    decreases |s|
  {
    if s == [] then [] else Insert(s[0], SortBy(s[1..], key, descending), key, descending)
  }

  lemma {:induction false} InsertPermutes<T>(x: T, s: seq<T>, key: T -> SortKey, descending: bool)
    ensures multiset(Insert(x, s, key, descending)) == multiset(s) + multiset{x}
    decreases |s|
  {
    if s != [] && !Before(key, descending, x, s[0]) {
      InsertPermutes(x, s[1..], key, descending);
      assert s == [s[0]] + s[1..];
    }
  }

  lemma {:induction false} InsertSorted<T>(x: T, s: seq<T>, key: T -> SortKey, descending: bool)
    requires Sorted(s, key, descending)
    ensures Sorted(Insert(x, s, key, descending), key, descending)
    decreases |s|
  {
    if s != [] && !Before(key, descending, x, s[0]) {
      var rest := Insert(x, s[1..], key, descending);
      InsertSorted(x, s[1..], key, descending);
      InsertPermutes(x, s[1..], key, descending);
      forall z | z in rest
        ensures Before(key, descending, s[0], z)
      {
        assert z in multiset(rest);
        if z != x {
          assert z in multiset(s[1..]);
          var j :| 0 <= j < |s[1..]| && s[1..][j] == z;
          assert s[1 + j] == z;
        }
      }
      ConsSorted(s[0], rest, key, descending);
    }
  }

  /** An element that may precede every element of a sorted sequence can be put in front of it. */
  lemma ConsSorted<T>(a: T, rest: seq<T>, key: T -> SortKey, descending: bool)
    requires Sorted(rest, key, descending)
    requires forall z :: z in rest ==> Before(key, descending, a, z)
    ensures Sorted([a] + rest, key, descending)
  {
    var r := [a] + rest;
    forall i, j | 0 <= i < j < |r|
      ensures Before(key, descending, r[i], r[j])
    {
      if i == 0 {
        assert r[j] == rest[j - 1];
        assert r[j] in rest;
      } else {
        assert r[i] == rest[i - 1] && r[j] == rest[j - 1];
      }
    }
  }

  /** The sort returns a permutation of its input, in the requested order. */
  lemma {:induction false} SortByCorrect<T>(s: seq<T>, key: T -> SortKey, descending: bool)
    ensures multiset(SortBy(s, key, descending)) == multiset(s)
    ensures Sorted(SortBy(s, key, descending), key, descending)
    decreases |s|
  {
    if s != [] {
      SortByCorrect(s[1..], key, descending);
      InsertPermutes(s[0], SortBy(s[1..], key, descending), key, descending);
      InsertSorted(s[0], SortBy(s[1..], key, descending), key, descending);
      assert s == [s[0]] + s[1..];
    }
  }
}

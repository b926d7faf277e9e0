/** Sequence helpers shared by the task queries and the calendar scan: an
    order-preserving filter (Array.prototype.filter, and the index collects
    followed by a filter) and a stable sort by a lexicographic key
    (Array.prototype.sort with a comparator, which is stable). */
module Seqs {

  /** Sort keys, compared lexicographically: first `major`, then `minor`. */
  datatype Key = Key(major: int, minor: int)

  predicate KeyLe(a: Key, b: Key) {
    a.major < b.major || (a.major == b.major && a.minor <= b.minor)
  }

  /** `r` can be obtained from `s` by deleting elements, so it lists what it
      keeps in the order `s` has it. */
  ghost predicate Subsequence<T>(r: seq<T>, s: seq<T>)
    decreases |s|
  {
    if r == [] then true
    else if s == [] then false
    else if r[0] == s[0] then Subsequence(r[1..], s[1..])
    else Subsequence(r, s[1..])
  }

  /** The elements of `s` that satisfy `keep`, in their original order. */
  function Filter<T>(s: seq<T>, keep: T -> bool): (r: seq<T>)
    ensures |r| <= |s|
    ensures forall i | 0 <= i < |r| :: r[i] in s && keep(r[i])
    ensures forall i | 0 <= i < |s| :: keep(s[i]) ==> s[i] in r
    ensures Subsequence(r, s)
  {
    if s == [] then []
    else
      assert s == [s[0]] + s[1..];
      var rest := Filter(s[1..], keep);
      if keep(s[0]) then
        assert ([s[0]] + rest)[1..] == rest;
        [s[0]] + rest
      else
        assert rest == [] || rest[0] != s[0];
        rest
  }

  /** Filtering distributes over concatenation: what comes from `a` stays in
      front of what comes from `b`, so the relative order is kept. */
  lemma {:induction false} FilterAppend<T>(a: seq<T>, b: seq<T>, keep: T -> bool)
    ensures Filter(a + b, keep) == Filter(a, keep) + Filter(b, keep)
  {
    if a == [] {
      assert a + b == b;
    } else {
      assert (a + b)[0] == a[0];
      assert (a + b)[1..] == a[1..] + b;
      FilterAppend(a[1..], b, keep);
    }
  }

  /** Filtering twice is filtering once by both conditions. */
  lemma {:induction false} FilterFilter<T>(s: seq<T>, p: T -> bool, q: T -> bool, pq: T -> bool)
    requires forall x :: pq(x) == (p(x) && q(x))
    ensures Filter(Filter(s, p), q) == Filter(s, pq)
  {
    if s != [] {
      FilterFilter(s[1..], p, q, pq);
      var rest := Filter(s[1..], p);
      if p(s[0]) {
        assert Filter(s, p) == [s[0]] + rest;
        assert ([s[0]] + rest)[0] == s[0];
        assert ([s[0]] + rest)[1..] == rest;
      } else {
        assert Filter(s, p) == rest;
      }
    }
  }

  lemma AppendAssoc3<T>(a: seq<T>, b: seq<T>, c: seq<T>)
    ensures a + (b + c) == a + b + c
  {
  }

  /** The concatenation of `group(x, id)` over `xs`, where each element's
      `id` is `first` plus the length of everything produced before it: the
      shape of a loop that inserts a group of rows per element and numbers
      the rows consecutively. */
  function FlatMapFrom<T, U>(xs: seq<T>, group: (T, nat) -> seq<U>, first: nat): seq<U> {
    if xs == [] then []
    else
      var before := FlatMapFrom(xs[..|xs| - 1], group, first);
      before + group(xs[|xs| - 1], first + |before|)
  }

  /** The `id` element `i` of `xs` receives. */
  function Offset<T, U>(xs: seq<T>, i: nat, group: (T, nat) -> seq<U>, first: nat): nat
    requires i <= |xs|
  {
    first + |FlatMapFrom(xs[..i], group, first)|
  }

  /** One `head(x, id)` per element of `xs`, with the same ids. */
  function HeadsFrom<T, U, V>(xs: seq<T>, group: (T, nat) -> seq<U>, head: (T, nat) -> V, first: nat): (r: seq<V>)
    ensures |r| == |xs|
  {
    if xs == [] then []
    else
      var n := |xs| - 1;
      HeadsFrom(xs[..n], group, head, first) + [head(xs[n], Offset(xs, n, group, first))]
  }

  lemma FlatMapStep<T, U>(xs: seq<T>, i: nat, group: (T, nat) -> seq<U>, first: nat)
    requires i < |xs|
    ensures FlatMapFrom(xs[..i + 1], group, first) == FlatMapFrom(xs[..i], group, first) + group(xs[i], Offset(xs, i, group, first))
  {
    assert xs[..i + 1][..i] == xs[..i];
  }

  lemma HeadsStep<T, U, V>(xs: seq<T>, i: nat, group: (T, nat) -> seq<U>, head: (T, nat) -> V, first: nat)
    requires i < |xs|
    ensures HeadsFrom(xs[..i + 1], group, head, first) == HeadsFrom(xs[..i], group, head, first) + [head(xs[i], Offset(xs, i, group, first))]
  {
    assert xs[..i + 1][..i] == xs[..i];
  }

  lemma OffsetOfPrefix<T, U>(xs: seq<T>, n: nat, i: nat, group: (T, nat) -> seq<U>, first: nat)
    requires i <= n <= |xs|
    ensures Offset(xs[..n], i, group, first) == Offset(xs, i, group, first)
  {
    assert xs[..n][..i] == xs[..i];
  }

  /** Element `i` of the heads is the head of `xs[i]` at its own id. */
  lemma {:induction false} HeadsAt<T, U, V>(xs: seq<T>, group: (T, nat) -> seq<U>, head: (T, nat) -> V, first: nat)
    ensures forall i | 0 <= i < |xs| :: HeadsFrom(xs, group, head, first)[i] == head(xs[i], Offset(xs, i, group, first))
  {
    if xs != [] {
      var n := |xs| - 1;
      var init := HeadsFrom(xs[..n], group, head, first);
      HeadsAt(xs[..n], group, head, first);
      assert HeadsFrom(xs, group, head, first) == init + [head(xs[n], Offset(xs, n, group, first))];
      forall i | 0 <= i < n
        ensures HeadsFrom(xs, group, head, first)[i] == head(xs[i], Offset(xs, i, group, first))
      {
        OffsetOfPrefix(xs, n, i, group, first);
        assert init[i] == head(xs[..n][i], Offset(xs[..n], i, group, first));
      }
    }
  }

  /** `f(xs[k], first + k)` for each position `k`: a loop that creates one
      row per element with consecutive ids. */
  function MapFrom<T, U>(xs: seq<T>, f: (T, nat) -> U, first: nat): (r: seq<U>)
    ensures |r| == |xs|
  {
    if xs == [] then [] else MapFrom(xs[..|xs| - 1], f, first) + [f(xs[|xs| - 1], first + |xs| - 1)]
  }

  lemma MapStep<T, U>(xs: seq<T>, j: nat, f: (T, nat) -> U, first: nat)
    requires j < |xs|
    ensures MapFrom(xs[..j + 1], f, first) == MapFrom(xs[..j], f, first) + [f(xs[j], first + j)]
  {
    assert xs[..j + 1][..j] == xs[..j];
  }

  lemma {:induction false} MapAt<T, U>(xs: seq<T>, f: (T, nat) -> U, first: nat)
    ensures forall k | 0 <= k < |xs| :: MapFrom(xs, f, first)[k] == f(xs[k], first + k)
  {
    if xs != [] {
      var n := |xs| - 1;
      MapAt(xs[..n], f, first);
      assert forall k | 0 <= k < n :: xs[..n][k] == xs[k];
    }
  }

  /** The concatenation of `f(x)` over `xs`, in the order of `xs`. */
  function ConcatMap<T, U>(xs: seq<T>, f: T -> seq<U>): seq<U> {
    if xs == [] then [] else ConcatMap(xs[..|xs| - 1], f) + f(xs[|xs| - 1])
  }

  lemma ConcatMapStep<T, U>(xs: seq<T>, i: nat, f: T -> seq<U>)
    requires i < |xs|
    ensures ConcatMap(xs[..i + 1], f) == ConcatMap(xs[..i], f) + f(xs[i])
  {
    assert xs[..i + 1][..i] == xs[..i];
  }

  lemma {:induction false} ConcatMapAppend<T, U>(a: seq<T>, b: seq<T>, f: T -> seq<U>)
    ensures ConcatMap(a + b, f) == ConcatMap(a, f) + ConcatMap(b, f)
  {
    if b == [] {
      assert a + b == a;
    } else {
      var n := |b| - 1;
      assert (a + b)[..|a + b| - 1] == a + b[..n];
      assert (a + b)[|a + b| - 1] == b[n];
      ConcatMapAppend(a, b[..n], f);
    }
  }

  /** An element of the concatenation comes from one of the parts, and every
      part's elements are in it. */
  lemma {:induction false} ConcatMapMembers<T, U>(xs: seq<T>, f: T -> seq<U>, y: U)
    ensures y in ConcatMap(xs, f) <==> exists p | 0 <= p < |xs| :: y in f(xs[p])
  {
    if xs != [] {
      var n := |xs| - 1;
      ConcatMapMembers(xs[..n], f, y);
      assert forall p | 0 <= p < n :: xs[..n][p] == xs[p];
    }
  }

  predicate SortedBy<T>(s: seq<T>, key: T -> Key) {
    forall i, j :: 0 <= i < j < |s| ==> KeyLe(key(s[i]), key(s[j]))
  }

  /** Inserts `x` behind every element whose key is at most its own, which is
      what keeps the sort stable. */
  function InsertByKey<T>(s: seq<T>, x: T, key: T -> Key): (r: seq<T>)
    requires SortedBy(s, key)
    ensures |r| == |s| + 1
    ensures SortedBy(r, key)
    ensures multiset(r) == multiset(s) + multiset{x}
  {
    if s == [] || KeyLe(key(s[|s| - 1]), key(x)) then s + [x]
    else
      var init, last := s[..|s| - 1], s[|s| - 1];
      assert s == init + [last];
      var r' := InsertByKey(init, x, key);
      assert forall i | 0 <= i < |r'| :: KeyLe(key(r'[i]), key(last)) by {
        forall i | 0 <= i < |r'| ensures KeyLe(key(r'[i]), key(last)) {
          assert r'[i] in multiset(r');
          if r'[i] != x {
            assert r'[i] in multiset(init);
            var k :| 0 <= k < |init| && init[k] == r'[i];
            assert s[k] == init[k];
          }
        }
      }
      r' + [last]
  }

  /** The test "has key `k`", for filtering out one key's elements. */
  function KeyIs<T>(key: T -> Key, k: Key): T -> bool {
    (x: T) => key(x) == k
  }

  /** Insertion keeps the elements of each key in their order, with `x`
      behind the elements whose key equals its own. */
  lemma {:induction false} InsertByKeyStable<T>(s: seq<T>, x: T, key: T -> Key, k: Key)
    requires SortedBy(s, key)
    ensures Filter(InsertByKey(s, x, key), KeyIs(key, k)) == Filter(s, KeyIs(key, k)) + Filter([x], KeyIs(key, k))
  {
    var p := KeyIs(key, k);
    if s == [] || KeyLe(key(s[|s| - 1]), key(x)) {
      FilterAppend(s, [x], p);
    } else {
      var init, last := s[..|s| - 1], s[|s| - 1];
      assert s == init + [last];
      InsertByKeyStable(init, x, key, k);
      FilterAppend(InsertByKey(init, x, key), [last], p);
      FilterAppend(init, [last], p);
      assert !(p(last) && p(x));
    }
  }

  /** A stable insertion sort in ascending key order. */
  function SortByKey<T>(s: seq<T>, key: T -> Key): (r: seq<T>)
    ensures |r| == |s|
    ensures SortedBy(r, key)
    ensures multiset(r) == multiset(s)
  {
    if s == [] then []
    else
      assert s == s[..|s| - 1] + [s[|s| - 1]];
      InsertByKey(SortByKey(s[..|s| - 1], key), s[|s| - 1], key)
  }

  /** The sort is stable: for every key, the elements with that key come
      out in the order they went in. */
  lemma {:induction false} SortByKeyStable<T>(s: seq<T>, key: T -> Key, k: Key)
    ensures Filter(SortByKey(s, key), KeyIs(key, k)) == Filter(s, KeyIs(key, k))
  {
    if s != [] {
      var init, last := s[..|s| - 1], s[|s| - 1];
      assert s == init + [last];
      SortByKeyStable(init, key, k);
      InsertByKeyStable(SortByKey(init, key), last, key, k);
      FilterAppend(init, [last], KeyIs(key, k));
    }
  }
}

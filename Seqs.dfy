/** Sequence operations that the source takes from JavaScript's Array
    prototype (`findIndex`, `filter`, `sort`), each with the contract the
    language gives it. */
module Seqs {

  /** `Array.prototype.findIndex`: the index of the first element satisfying
      `p`, or -1 when there is none. */
  function FindIndex<T>(s: seq<T>, p: T -> bool): (r: int)
    ensures -1 <= r < |s|
    ensures 0 <= r ==> p(s[r]) && forall k :: 0 <= k < r ==> !p(s[k])
    ensures r == -1 <==> forall k :: 0 <= k < |s| ==> !p(s[k])
  {
    if |s| == 0 then -1
    else if p(s[0]) then 0
    else
      var r := FindIndex(s[1..], p);
      if r == -1 then -1 else r + 1
  }

  /** Two lists on whose positions `p` agrees have the same first match. */
  lemma {:induction false} FindIndexAgrees<T>(s: seq<T>, t: seq<T>, p: T -> bool)
    requires |s| == |t|
    requires forall k :: 0 <= k < |s| ==> p(s[k]) == p(t[k])
    ensures FindIndex(s, p) == FindIndex(t, p)
  {
    if s != [] {
      FindIndexAgrees(s[1..], t[1..], p);
    }
  }

  /** `find` followed by an in-place update of what it found: the first
      element satisfying `p` is replaced by `f` of it, nothing else moves. */
  function UpdateFirst<T>(s: seq<T>, p: T -> bool, f: T -> T): (r: seq<T>)
    ensures |r| == |s|
    ensures forall k :: 0 <= k < |s| ==> r[k] == if k == FindIndex(s, p) then f(s[k]) else s[k]
    ensures FindIndex(s, p) == -1 ==> r == s
  {
    if s == [] then []
    else if p(s[0]) then [f(s[0])] + s[1..]
    else [s[0]] + UpdateFirst(s[1..], p, f)
  }

  /** `Array.prototype.filter`: the elements satisfying `p`, in order. */
  function Filter<T>(s: seq<T>, p: T -> bool): (r: seq<T>)
    ensures |r| <= |s|
    ensures forall i :: 0 <= i < |r| ==> r[i] in s && p(r[i])
    ensures forall i :: 0 <= i < |s| && p(s[i]) ==> s[i] in r
  {
    if s == [] then []
    else (if p(s[0]) then [s[0]] else []) + Filter(s[1..], p)
  }

  /** `a` is obtained from `b` by deleting elements, keeping the order. */
  ghost predicate IsSubsequence<T>(a: seq<T>, b: seq<T>)
    decreases |b|
  {
    a == [] || (b != [] && ((a[0] == b[0] && IsSubsequence(a[1..], b[1..])) || IsSubsequence(a, b[1..])))
  }

  /** An element is kept exactly when it is in the input and passes. */
  lemma FilterMembership<T>(s: seq<T>, p: T -> bool, x: T)
    ensures x in Filter(s, p) <==> x in s && p(x)
  {
    var r := Filter(s, p);
    if x in r {
      var i :| 0 <= i < |r| && r[i] == x;
    }
    if x in s && p(x) {
      var i :| 0 <= i < |s| && s[i] == x;
    }
  }

  /** A reordering of the filtered list holds exactly the elements of the
      input that pass. */
  lemma PermutedFilterMembers<T>(r: seq<T>, s: seq<T>, p: T -> bool)
    requires multiset(r) == multiset(Filter(s, p))
    ensures forall k :: 0 <= k < |r| ==> r[k] in s && p(r[k])
    ensures forall k :: 0 <= k < |s| && p(s[k]) ==> s[k] in r
  {
    forall k | 0 <= k < |r| ensures r[k] in s && p(r[k]) {
      assert r[k] in multiset(r);
      FilterMembership(s, p, r[k]);
    }
    forall k | 0 <= k < |s| && p(s[k]) ensures s[k] in r {
      FilterMembership(s, p, s[k]);
      assert s[k] in multiset(Filter(s, p));
    }
  }

  /** Filtering keeps the relative order of the kept elements. */
  lemma {:induction false} FilterIsSubsequence<T>(s: seq<T>, p: T -> bool)
    ensures IsSubsequence(Filter(s, p), s)
  {
    if s != [] {
      FilterIsSubsequence(s[1..], p);
      var r := Filter(s, p);
      if p(s[0]) {
        assert r[0] == s[0] && r[1..] == Filter(s[1..], p);
      } else {
        assert r == Filter(s[1..], p);
      }
    }
  }

  /** Filtering distributes over concatenation. */
  lemma {:induction false} FilterConcat<T>(a: seq<T>, b: seq<T>, p: T -> bool)
    ensures Filter(a + b, p) == Filter(a, p) + Filter(b, p)
  {
    if a == [] {
      assert a + b == b;
    } else {
      assert (a + b)[1..] == a[1..] + b;
      FilterConcat(a[1..], b, p);
    }
  }

  /** Filtering keeps everything when every element passes. */
  lemma {:induction false} FilterAllPass<T>(s: seq<T>, p: T -> bool)
    requires forall i :: 0 <= i < |s| ==> p(s[i])
    ensures Filter(s, p) == s
  {
    if s != [] {
      FilterAllPass(s[1..], p);
    }
  }

  /** Filtering twice is filtering once by the conjunction. */
  lemma {:induction false} FilterTwice<T>(s: seq<T>, p: T -> bool, q: T -> bool, both: T -> bool)
    requires forall i :: 0 <= i < |s| ==> both(s[i]) == (p(s[i]) && q(s[i]))
    ensures Filter(Filter(s, p), q) == Filter(s, both)
  {
    if s != [] {
      FilterTwice(s[1..], p, q, both);
      var head := if p(s[0]) then [s[0]] else [];
      FilterConcat(head, Filter(s[1..], p), q);
    }
  }

  /** The number of elements satisfying `p`. */
  function Count<T>(s: seq<T>, p: T -> bool): (n: nat)
    ensures n <= |s|
  {
    |Filter(s, p)|
  }

  // ---------------------------------------------------------------- sorting

  ghost predicate TotalRelation<T(!new)>(le: (T, T) -> bool) {
    forall a, b :: le(a, b) || le(b, a)
  }

  ghost predicate TransitiveRelation<T(!new)>(le: (T, T) -> bool) {
    forall a, b, c :: le(a, b) && le(b, c) ==> le(a, c)
  }

  ghost predicate SortedBy<T>(s: seq<T>, le: (T, T) -> bool) {
    forall i, j :: 0 <= i < j < |s| ==> le(s[i], s[j])
  }

  /** Inserts `x` before the first element it is `le` to. */
  function InsertSorted<T>(x: T, s: seq<T>, le: (T, T) -> bool): (r: seq<T>)
    ensures multiset(r) == multiset(s) + multiset{x}
    ensures |r| == |s| + 1
  {
    if s == [] then [x]
    else if le(x, s[0]) then [x] + s
    else
      assert s == [s[0]] + s[1..];
      [s[0]] + InsertSorted(x, s[1..], le)
  }

  /** A sort of `s` by the total preorder `le`, as `Array.prototype.sort`
      does it on a copy. */
  function SortBy<T>(s: seq<T>, le: (T, T) -> bool): (r: seq<T>)
    ensures multiset(r) == multiset(s)
    ensures |r| == |s|
  {
    if s == [] then []
    else
      assert s == [s[0]] + s[1..];
      InsertSorted(s[0], SortBy(s[1..], le), le)
  }

  /** An element below every element of a sorted list can go in front. */
  lemma ConsSorted<T>(h: T, rest: seq<T>, le: (T, T) -> bool)
    requires SortedBy(rest, le)
    requires forall k :: 0 <= k < |rest| ==> le(h, rest[k])
    ensures SortedBy([h] + rest, le)
  {
    var r := [h] + rest;
    forall i, j | 0 <= i < j < |r| ensures le(r[i], r[j]) {
      if i == 0 {
        assert r[j] == rest[j - 1];
      } else {
        assert r[i] == rest[i - 1] && r[j] == rest[j - 1];
      }
    }
  }

  /** The head of a sorted list stays below everything once `x`, which is
      not below it, is inserted into the tail. */
  lemma HeadBelowInsert<T>(x: T, s: seq<T>, le: (T, T) -> bool)
    requires s != [] && SortedBy(s, le) && le(s[0], x)
    ensures var rest := InsertSorted(x, s[1..], le);
      forall k :: 0 <= k < |rest| ==> le(s[0], rest[k])
  {
    var tail := s[1..];
    var rest := InsertSorted(x, tail, le);
    forall k | 0 <= k < |rest| ensures le(s[0], rest[k]) {
      var y := rest[k];
      assert y in multiset(rest);
      assert y in multiset(tail) + multiset{x};
      if y in multiset(tail) {
        var m :| 0 <= m < |tail| && tail[m] == y;
        assert s[m + 1] == y;
      }
    }
  }

  lemma {:induction false} InsertSortedKeepsOrder<T(!new)>(x: T, s: seq<T>, le: (T, T) -> bool)
    requires TotalRelation(le) && TransitiveRelation(le)
    requires SortedBy(s, le)
    ensures SortedBy(InsertSorted(x, s, le), le)
  {
    if s != [] && !le(x, s[0]) {
      var tail := s[1..];
      InsertSortedKeepsOrder(x, tail, le);
      assert le(s[0], x);
      HeadBelowInsert(x, s, le);
      assert forall k :: 0 <= k < |InsertSorted(x, tail, le)| ==> le(s[0], InsertSorted(x, tail, le)[k]);
      ConsSorted(s[0], InsertSorted(x, tail, le), le);
    }
  }

  /** The result of SortBy is ordered by `le`. */
  lemma {:induction false} SortByIsSorted<T(!new)>(s: seq<T>, le: (T, T) -> bool)
    requires TotalRelation(le) && TransitiveRelation(le)
    ensures SortedBy(SortBy(s, le), le)
  {
    if s != [] {
      SortByIsSorted(s[1..], le);
      InsertSortedKeepsOrder(s[0], SortBy(s[1..], le), le);
    }
  }

  // ------------------------------------------------------ concatenation

  /** A common head cancels from two equal concatenations. */
  lemma CancelPrefix<T>(h: seq<T>, x: seq<T>, y: seq<T>)
    requires h + x == h + y
    ensures x == y
  {
    assert x == (h + x)[|h|..];
    assert y == (h + y)[|h|..];
  }

  /** A non-empty sequence followed by more is its first element followed by
      the rest. */
  lemma FirstAndRest<T>(a: seq<T>, x: seq<T>)
    requires |a| >= 1
    ensures a + x == [a[0]] + (a[1..] + x)
  {
    assert (a + x)[1..] == a[1..] + x;
  }
}

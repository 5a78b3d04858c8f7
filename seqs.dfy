/**
 * Generic sequence operations that the application code uses through the
 * JavaScript array methods `filter`, `findIndex`, `find` and `sort`, stated and
 * proved once here and shared by the models of the individual source files.
 */
module Seqs {

  datatype Option<T> = None | Some(value: T) {
    /** `x ?? default` */
    function GetOr(default: T): T {
      if Some? then value else default
    }
  }

  /** `Array.prototype.filter`: the elements that satisfy `p`, in their original order. */
  function Filter<T>(s: seq<T>, p: T -> bool): (r: seq<T>)
    ensures |r| <= |s|
    ensures forall i :: 0 <= i < |r| ==> p(r[i]) && r[i] in s
    ensures forall i :: 0 <= i < |s| && p(s[i]) ==> s[i] in r
    ensures multiset(r) <= multiset(s)
  {
    if s == [] then []
    else
      assert s == [s[0]] + s[1..];
      if p(s[0]) then [s[0]] + Filter(s[1..], p) else Filter(s[1..], p)
  }

  /** `r` is obtained from `s` by deleting elements (order is kept). */
  predicate IsSubsequence<T(==)>(r: seq<T>, s: seq<T>)
    decreases s
  {
    r == [] || (s != [] && if r[0] == s[0] then IsSubsequence(r[1..], s[1..]) else IsSubsequence(r, s[1..]))
  }

  lemma {:induction false} FilterIsSubsequence<T>(s: seq<T>, p: T -> bool)
    ensures IsSubsequence(Filter(s, p), s)
  {
    if s != [] {
      FilterIsSubsequence(s[1..], p);
      if p(s[0]) {
        assert Filter(s, p)[1..] == Filter(s[1..], p);
      } else {
        var r := Filter(s, p);
        if r != [] {
          assert p(r[0]);
        }
      }
    }
  }

  lemma {:induction false} FilterAppend<T>(a: seq<T>, b: seq<T>, p: T -> bool)
    ensures Filter(a + b, p) == Filter(a, p) + Filter(b, p)
  {
    if a == [] {
      assert a + b == b;
    } else {
      assert (a + b)[0] == a[0];
      assert (a + b)[1..] == a[1..] + b;
      FilterAppend(a[1..], b, p);
    }
  }

  /** Filtering keeps every element that passes as often as the input holds it. */
  lemma {:induction false} FilterKeepsCounts<T>(s: seq<T>, p: T -> bool)
    ensures forall x :: p(x) ==> multiset(Filter(s, p))[x] == multiset(s)[x]
  {
    if s != [] {
      FilterKeepsCounts(s[1..], p);
      assert s == [s[0]] + s[1..];
    }
  }

  /** Filtering twice by the same predicate is filtering once. */
  lemma {:induction false} FilterIdempotent<T>(s: seq<T>, p: T -> bool)
    ensures Filter(Filter(s, p), p) == Filter(s, p)
  {
    if s != [] {
      FilterIdempotent(s[1..], p);
      if p(s[0]) {
        var r := Filter(s, p);
        assert r[0] == s[0] && r[1..] == Filter(s[1..], p);
      }
    }
  }

  /** Filtering keeps everything when every element passes. */
  lemma {:induction false} FilterKeepsAll<T>(s: seq<T>, p: T -> bool)
    requires forall i :: 0 <= i < |s| ==> p(s[i])
    ensures Filter(s, p) == s
  {
    if s != [] {
      FilterKeepsAll(s[1..], p);
    }
  }

  /** Filtering drops everything when no element passes. */
  lemma {:induction false} FilterDropsAll<T>(s: seq<T>, p: T -> bool)
    requires forall i :: 0 <= i < |s| ==> !p(s[i])
    ensures Filter(s, p) == []
  {
    if s != [] {
      FilterDropsAll(s[1..], p);
    }
  }

  /** Two predicates that agree on every element filter alike. */
  lemma {:induction false} FilterCongruent<T>(s: seq<T>, p: T -> bool, q: T -> bool)
    requires forall i :: 0 <= i < |s| ==> p(s[i]) == q(s[i])
    ensures Filter(s, p) == Filter(s, q)
  {
    if s != [] {
      FilterCongruent(s[1..], p, q);
    }
  }

  /** The elements that pass and those that fail make up the whole sequence. */
  lemma {:induction false} FilterPartition<T>(s: seq<T>, p: T -> bool, q: T -> bool)
    requires forall x :: q(x) == !p(x)
    ensures multiset(Filter(s, p)) + multiset(Filter(s, q)) == multiset(s)
    ensures |Filter(s, p)| + |Filter(s, q)| == |s|
  {
    if s != [] {
      FilterPartition(s[1..], p, q);
      assert s == [s[0]] + s[1..];
      assert multiset(s) == multiset{s[0]} + multiset(s[1..]);
    }
  }

  /** `s.filter(y => y !== x)`: every occurrence of `x` removed. */
  function RemoveAll<T(==)>(s: seq<T>, x: T): (r: seq<T>)
    ensures x !in r
    ensures multiset(r) == multiset(s)[x := 0]
    ensures x !in s ==> r == s
  {
    if s == [] then []
    else
      assert s == [s[0]] + s[1..];
      if s[0] == x then RemoveAll(s[1..], x) else [s[0]] + RemoveAll(s[1..], x)
  }

  lemma {:induction false} RemoveAllIsFilter<T>(s: seq<T>, x: T)
    ensures RemoveAll(s, x) == Filter(s, y => y != x)
  {
    if s != [] {
      RemoveAllIsFilter(s[1..], x);
    }
  }

  lemma {:induction false} RemoveAllIsSubsequence<T>(s: seq<T>, x: T)
    ensures IsSubsequence(RemoveAll(s, x), s)
  {
    RemoveAllIsFilter(s, x);
    FilterIsSubsequence(s, y => y != x);
  }

  /** `s.findIndex(y => y === x)`: the first index holding `x`, or -1. */
  function FirstIndex<T(==)>(s: seq<T>, x: T): (k: int)
    ensures -1 <= k < |s|
    ensures k == -1 <==> x !in s
    ensures 0 <= k ==> s[k] == x && forall j :: 0 <= j < k ==> s[j] != x
  {
    if s == [] then -1
    else if s[0] == x then 0
    else var k := FirstIndex(s[1..], x); if k == -1 then -1 else k + 1
  }

  /** The first index is the position of the first copy. */
  lemma FirstIndexAt<T>(s: seq<T>, x: T, i: int)
    requires 0 <= i < |s| && s[i] == x
    requires forall j :: 0 <= j < i ==> s[j] != x
    ensures FirstIndex(s, x) == i
  {
  }

  /** `s.find(y => f(y) === key)`: the first element with the given key. */
  function FindBy<T, K(==)>(s: seq<T>, f: T -> K, key: K): (r: Option<T>)
    ensures r.None? <==> forall i :: 0 <= i < |s| ==> f(s[i]) != key
    ensures r.Some? ==> r.value in s && f(r.value) == key
    ensures r.Some? ==> exists i :: 0 <= i < |s| && s[i] == r.value && forall j :: 0 <= j < i ==> f(s[j]) != key
  {
    if s == [] then None
    else if f(s[0]) == key then Some(s[0])
    else
      var r := FindBy(s[1..], f, key);
      assert r.Some? ==> forall i :: 0 <= i < |s[1..]| && s[1..][i] == r.value && (forall j :: 0 <= j < i ==> f(s[1..][j]) != key) ==>
        s[i + 1] == r.value && forall j :: 0 <= j < i + 1 ==> f(s[j]) != key;
      r
  }

  /** The search stops at the first element with the key. */
  lemma {:induction false} FindByFirst<T, K>(s: seq<T>, f: T -> K, key: K, i: int)
    requires 0 <= i < |s| && f(s[i]) == key
    requires forall j :: 0 <= j < i ==> f(s[j]) != key
    ensures FindBy(s, f, key) == Some(s[i])
  {
    if i > 0 {
      assert f(s[0]) != key;
      FindByFirst(s[1..], f, key, i - 1);
    }
  }

  /** Applies `f` to every element; `None` as soon as one of them gives `None`. */
  function AllSome<A, B>(s: seq<A>, f: A -> Option<B>): (r: Option<seq<B>>)
    ensures r.Some? <==> forall i :: 0 <= i < |s| ==> f(s[i]).Some?
    ensures r.Some? ==> |r.value| == |s| && forall i :: 0 <= i < |s| ==> r.value[i] == f(s[i]).value
  {
    if s == [] then Some([])
    else
      var head := f(s[0]);
      var rest := AllSome(s[1..], f);
      if head.None? then None
      else if rest.None? then
        var i :| 0 <= i < |s[1..]| && f(s[1..][i]).None?;
        assert s[i + 1] == s[1..][i];
        None
      else
        assert forall i :: 1 <= i < |s| ==> s[i] == s[1..][i - 1];
        Some([head.value] + rest.value)
  }

  // ---------------------------------------------------------------------------
  // Sorting. `Array.prototype.sort` with a comparator is stable; it is modelled
  // by a stable insertion sort over a "less or equal" relation.
  // ---------------------------------------------------------------------------

  ghost predicate TotalPreorder<T(!new)>(leq: (T, T) -> bool) {
    && (forall a, b :: leq(a, b) || leq(b, a))
    && (forall a, b, c :: leq(a, b) && leq(b, c) ==> leq(a, c))
  }

  ghost predicate SortedBy<T>(s: seq<T>, leq: (T, T) -> bool) {
    forall i, j :: 0 <= i < j < |s| ==> leq(s[i], s[j])
  }

  /** Inserts `x` in front of the first element it is not greater than. */
  function Insert<T>(x: T, s: seq<T>, leq: (T, T) -> bool): (r: seq<T>)
    ensures |r| == |s| + 1
    ensures multiset(r) == multiset(s) + multiset{x}
  {
    if s == [] then [x]
    else if leq(x, s[0]) then [x] + s
    else
      assert s == [s[0]] + s[1..];
      [s[0]] + Insert(x, s[1..], leq)
  }

  function SortBy<T>(s: seq<T>, leq: (T, T) -> bool): (r: seq<T>)
    ensures |r| == |s|
    ensures multiset(r) == multiset(s)
  {
    if s == [] then []
    else
      assert s == [s[0]] + s[1..];
      Insert(s[0], SortBy(s[1..], leq), leq)
  }

  /** The elements after an insertion are the inserted one and those already there. */
  lemma InsertElements<T>(x: T, s: seq<T>, leq: (T, T) -> bool)
    ensures forall y :: y in Insert(x, s, leq) <==> y == x || y in s
  {
    var r := Insert(x, s, leq);
    forall y
      ensures y in r <==> y == x || y in s
    {
      assert y in r <==> y in multiset(r);
      assert y in s <==> y in multiset(s);
    }
  }

  /** An element no greater than any element of a sorted sequence can go in front of it. */
  lemma ConsSorted<T>(h: T, t: seq<T>, leq: (T, T) -> bool)
    requires SortedBy(t, leq)
    requires forall y :: y in t ==> leq(h, y)
    ensures SortedBy([h] + t, leq)
  {
    var r := [h] + t;
    forall i, j | 0 <= i < j < |r|
      ensures leq(r[i], r[j])
    {
      assert r[j] == t[j - 1];
      if i > 0 {
        assert r[i] == t[i - 1];
      }
    }
  }

  lemma {:induction false} InsertSorted<T(!new)>(x: T, s: seq<T>, leq: (T, T) -> bool)
    requires TotalPreorder(leq)
    requires SortedBy(s, leq)
    ensures SortedBy(Insert(x, s, leq), leq)
  {
    if s == [] {
    } else if leq(x, s[0]) {
      forall y | y in s
        ensures leq(x, y)
      {
        var j :| 0 <= j < |s| && s[j] == y;
        if j > 0 {
          assert leq(s[0], s[j]);
        }
      }
      ConsSorted(x, s, leq);
    } else {
      var rest := Insert(x, s[1..], leq);
      InsertSorted(x, s[1..], leq);
      InsertElements(x, s[1..], leq);
      forall y | y in rest
        ensures leq(s[0], y)
      {
        if y != x {
          var j :| 0 <= j < |s[1..]| && s[1..][j] == y;
          assert s[j + 1] == y;
        }
      }
      ConsSorted(s[0], rest, leq);
    }
  }

  /** The sort yields an ordered permutation of its input. */
  lemma {:induction false} SortBySorted<T(!new)>(s: seq<T>, leq: (T, T) -> bool)
    requires TotalPreorder(leq)
    ensures SortedBy(SortBy(s, leq), leq)
  {
    if s != [] {
      SortBySorted(s[1..], leq);
      InsertSorted(s[0], SortBy(s[1..], leq), leq);
    }
  }

  /**
   * Inserting `x` keeps the relative order of the elements `p` selects when
   * those are pairwise "less or equal": `x` goes in front of all of them.
   */
  lemma {:induction false} InsertFilter<T>(x: T, t: seq<T>, leq: (T, T) -> bool, p: T -> bool)
    requires forall a, b :: p(a) && p(b) ==> leq(a, b)
    ensures Filter(Insert(x, t, leq), p) == if p(x) then [x] + Filter(t, p) else Filter(t, p)
  {
    if t == [] {
      assert [x][1..] == [];
    } else if leq(x, t[0]) {
      assert ([x] + t)[1..] == t;
    } else {
      var rest := Insert(x, t[1..], leq);
      InsertFilter(x, t[1..], leq, p);
      assert ([t[0]] + rest)[1..] == rest;
    }
  }

  /**
   * The sort is stable: the elements of one class of mutually "less or equal"
   * elements (those `p` selects) come out in the order they went in.
   */
  lemma {:induction false} SortByStable<T>(s: seq<T>, leq: (T, T) -> bool, p: T -> bool)
    requires forall a, b :: p(a) && p(b) ==> leq(a, b)
    ensures Filter(SortBy(s, leq), p) == Filter(s, p)
  {
    if s != [] {
      SortByStable(s[1..], leq, p);
      InsertFilter(s[0], SortBy(s[1..], leq), leq, p);
    }
  }

  /** Sorting a sequence that is already in order changes nothing. */
  lemma {:induction false} SortByOfSorted<T>(s: seq<T>, leq: (T, T) -> bool)
    requires SortedBy(s, leq)
    ensures SortBy(s, leq) == s
  {
    if s != [] {
      assert SortedBy(s[1..], leq);
      SortByOfSorted(s[1..], leq);
      if |s| > 1 {
        assert leq(s[0], s[1]);
        assert s[1..][0] == s[1];
      }
      assert s == [s[0]] + s[1..];
    }
  }
}

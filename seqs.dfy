/**
  * Sequence operations shared by the client and the backend: `filter`, `find`, and a stable sort
  * by a numeric key, ascending. The sort stands for JavaScript's `Array.prototype.sort` with a
  * numeric comparator (stable since ES2019), for `np.sort` and for pandas' `sort_values`.
  */
module Seqs {
  import opened Wrappers

  predicate SortedBy<T>(s: seq<T>, key: T -> real) {
    forall i, j :: 0 <= i < j < |s| ==> key(s[i]) <= key(s[j])
  }

  /** The elements of `s` that satisfy `p`, in order (`Array.prototype.filter`). */
  function Select<T>(s: seq<T>, p: T -> bool): (r: seq<T>)
    ensures |r| <= |s|
    ensures forall x :: x in r ==> x in s && p(x)
  {
    if s == [] then []
    else if p(s[0]) then [s[0]] + Select(s[1..], p)
    else Select(s[1..], p)
  }

  /** Filtering distributes over concatenation, so it keeps the input order. */
  lemma {:induction false} SelectAppend<T>(a: seq<T>, b: seq<T>, p: T -> bool)
    ensures Select(a + b, p) == Select(a, p) + Select(b, p)
  {
    if a != [] {
      assert (a + b)[1..] == a[1..] + b;
      SelectAppend(a[1..], b, p);
    } else {
      assert a + b == b;
    }
  }

  /** The first element of `s` that satisfies `p` (`Array.prototype.find`). */
  function FindFirst<T>(s: seq<T>, p: T -> bool): (r: Option<T>)
    ensures r.Some? ==> r.value in s && p(r.value)
    ensures r.None? <==> forall x :: x in s ==> !p(x)
  {
    if s == [] then None else if p(s[0]) then Some(s[0]) else FindFirst(s[1..], p)
  }

  /** `FindFirst` returns the element at the first index that satisfies `p`. */
  lemma {:induction false} FindFirstIsFirst<T>(s: seq<T>, p: T -> bool, k: nat)
    requires k < |s| && p(s[k])
    requires forall i :: 0 <= i < k ==> !p(s[i])
    ensures FindFirst(s, p) == Some(s[k])
  {
    if k > 0 {
      FindFirstIsFirst(s[1..], p, k - 1);
    }
  }

  /** The values a sequence holds. */
  function Elems<T(!new)>(s: seq<T>): (r: set<T>)
    ensures forall x :: x in r <==> x in s
  {
    set x | x in s
  }

  lemma {:induction false} SelectAll<T>(s: seq<T>, p: T -> bool)
    requires forall x :: x in s ==> p(x)
    ensures Select(s, p) == s
  {
    if s != [] {
      SelectAll(s[1..], p);
    }
  }

  /** Filtering by two predicates that agree everywhere gives the same result. */
  lemma {:induction false} SelectSame<T>(s: seq<T>, p: T -> bool, q: T -> bool)
    requires forall x :: p(x) == q(x)
    ensures Select(s, p) == Select(s, q)
  {
    if s != [] {
      SelectSame(s[1..], p, q);
    }
  }

  /** Three filters in a row are one filter by their conjunction. */
  lemma {:induction false} SelectChain<T>(s: seq<T>, p: T -> bool, q: T -> bool, r: T -> bool, k: T -> bool)
    requires forall x :: k(x) == (p(x) && q(x) && r(x))
    ensures Select(Select(Select(s, p), q), r) == Select(s, k)
  {
    if s != [] {
      SelectChain(s[1..], p, q, r, k);
    }
  }

  lemma {:induction false} SelectMembers<T>(s: seq<T>, p: T -> bool)
    ensures forall x :: x in Select(s, p) <==> x in s && p(x)
  {
    if s != [] {
      SelectMembers(s[1..], p);
      assert s == [s[0]] + s[1..];
    }
  }

  /** `f` applied to each element (`Array.prototype.map`). */
  function Map<A, B>(s: seq<A>, f: A -> B): (r: seq<B>)
    ensures |r| == |s| && forall i :: 0 <= i < |s| ==> r[i] == f(s[i])
  {
    seq(|s|, i requires 0 <= i < |s| => f(s[i]))
  }

  lemma MapAppend<A, B>(a: seq<A>, b: seq<A>, f: A -> B)
    ensures Map(a + b, f) == Map(a, f) + Map(b, f)
  {
    assert forall i :: 0 <= i < |a + b| ==> Map(a + b, f)[i] == (Map(a, f) + Map(b, f))[i];
  }

  /** The defined results of `f` over `s`, in order. */
  function FilterMap<A, B>(s: seq<A>, f: A -> Option<B>): (r: seq<B>)
    ensures |r| <= |s|
  {
    if s == [] then []
    else
      match f(s[0])
      case Some(y) => [y] + FilterMap(s[1..], f)
      case None => FilterMap(s[1..], f)
  }

  lemma {:induction false} FilterMapAppend<A, B>(a: seq<A>, b: seq<A>, f: A -> Option<B>)
    ensures FilterMap(a + b, f) == FilterMap(a, f) + FilterMap(b, f)
  {
    if a != [] {
      assert (a + b)[0] == a[0];
      assert (a + b)[1..] == a[1..] + b;
      FilterMapAppend(a[1..], b, f);
      match f(a[0]) {
        case Some(y) =>
          calc {
            FilterMap(a + b, f);
            [y] + FilterMap(a[1..] + b, f);
            [y] + (FilterMap(a[1..], f) + FilterMap(b, f));
            ([y] + FilterMap(a[1..], f)) + FilterMap(b, f);
          }
        case None =>
      }
    } else {
      assert a + b == b;
    }
  }

  /** A one-element input has the one result `f` gives, if any. */
  lemma FilterMapSingle<A, B>(x: A, f: A -> Option<B>)
    ensures FilterMap([x], f) == if f(x).Some? then [f(x).value] else []
  {
    assert [x][1..] == [];
  }

  /** Every result comes from some element; all undefined gives none, all defined keeps the length. */
  lemma {:induction false} FilterMapFacts<A, B>(s: seq<A>, f: A -> Option<B>)
    ensures forall y :: y in FilterMap(s, f) ==> exists i :: 0 <= i < |s| && f(s[i]) == Some(y)
    ensures (forall i :: 0 <= i < |s| ==> f(s[i]).None?) ==> FilterMap(s, f) == []
    ensures (forall i :: 0 <= i < |s| ==> f(s[i]).Some?) ==> |FilterMap(s, f)| == |s|
  {
    if s != [] {
      FilterMapFacts(s[1..], f);
      assert forall i :: 1 <= i < |s| ==> s[1..][i - 1] == s[i];
      forall y | y in FilterMap(s, f)
        ensures exists i :: 0 <= i < |s| && f(s[i]) == Some(y)
      {
        if f(s[0]) != Some(y) {
          assert y in FilterMap(s[1..], f);
          var i :| 0 <= i < |s[1..]| && f(s[1..][i]) == Some(y);
          assert s[1..][i] == s[i + 1];
        }
      }
    }
  }

  /** Places `x` before the first element whose key is not below its own. */
  function Insert<T>(x: T, s: seq<T>, key: T -> real): seq<T> {
    if s == [] || key(x) <= key(s[0]) then [x] + s else [s[0]] + Insert(x, s[1..], key)
  }

  function SortBy<T>(s: seq<T>, key: T -> real): seq<T> {
    if s == [] then [] else Insert(s[0], SortBy(s[1..], key), key)
  }

  lemma {:induction false} InsertPermutes<T>(x: T, s: seq<T>, key: T -> real)
    ensures multiset(Insert(x, s, key)) == multiset([x]) + multiset(s)
  {
    if s != [] && key(x) > key(s[0]) {
      InsertPermutes(x, s[1..], key);
      assert s == [s[0]] + s[1..];
    }
  }

  lemma {:induction false} InsertMembers<T>(x: T, s: seq<T>, key: T -> real)
    ensures forall y :: y in Insert(x, s, key) ==> y == x || y in s
  {
    if s != [] && key(x) > key(s[0]) {
      InsertMembers(x, s[1..], key);
    }
  }

  lemma {:induction false} InsertFacts<T>(x: T, s: seq<T>, key: T -> real)
    requires SortedBy(s, key)
    ensures SortedBy(Insert(x, s, key), key)
    ensures multiset(Insert(x, s, key)) == multiset([x]) + multiset(s)
  {
    InsertPermutes(x, s, key);
    if s != [] && key(x) > key(s[0]) {
      InsertFacts(x, s[1..], key);
      var t := Insert(x, s[1..], key);
      InsertMembers(x, s[1..], key);
      var r := [s[0]] + t;
      assert Insert(x, s, key) == r;
      forall k | 0 <= k < |t| ensures key(s[0]) <= key(t[k]) {
        assert t[k] in t;
        if t[k] != x {
          assert t[k] in s[1..];
          var m :| 0 <= m < |s[1..]| && s[1..][m] == t[k];
          assert s[m + 1] == t[k];
        }
      }
      forall i, j | 0 <= i < j < |r| ensures key(r[i]) <= key(r[j]) {
        assert r[j] == t[j - 1];
        if i > 0 {
          assert r[i] == t[i - 1];
        }
      }
    }
  }

  /** The sorted sequence is ordered by key and is a permutation of the input. */
  lemma {:induction false} SortByFacts<T>(s: seq<T>, key: T -> real)
    ensures SortedBy(SortBy(s, key), key)
    ensures multiset(SortBy(s, key)) == multiset(s)
  {
    if s != [] {
      SortByFacts(s[1..], key);
      InsertFacts(s[0], SortBy(s[1..], key), key);
      assert s == [s[0]] + s[1..];
    }
  }

  lemma {:induction false} SelectInsertEqualKey<T>(x: T, s: seq<T>, key: T -> real, v: real, p: T -> bool)
    requires SortedBy(s, key)
    requires forall y :: p(y) == (key(y) == v)
    ensures key(x) == v ==> Select(Insert(x, s, key), p) == [x] + Select(s, p)
    ensures key(x) != v ==> Select(Insert(x, s, key), p) == Select(s, p)
  {
    if s == [] || key(x) <= key(s[0]) {
      assert ([x] + s)[1..] == s;
    } else {
      SelectInsertEqualKey(x, s[1..], key, v, p);
      assert Insert(x, s, key)[1..] == Insert(x, s[1..], key);
      if key(x) == v {
        assert !p(s[0]);
      }
    }
  }

  /**
    * Stability: for every key value `v`, the elements whose key is `v` (those selected by
    * `p`) keep their relative order.
    */
  lemma {:induction false} SortByStable<T>(s: seq<T>, key: T -> real, v: real, p: T -> bool)
    requires forall y :: p(y) == (key(y) == v)
    ensures Select(SortBy(s, key), p) == Select(s, p)
  {
    if s != [] {
      SortByStable(s[1..], key, v, p);
      SortByFacts(s[1..], key);
      SelectInsertEqualKey(s[0], SortBy(s[1..], key), key, v, p);
    }
  }
}

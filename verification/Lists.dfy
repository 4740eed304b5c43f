/**
 * The array operations the handlers are built from, over sequences: `findIndex` on a key,
 * `splice(i, 1)`, `filter`, and the `reduce` sums of the cart. Records are compared by a key
 * function (`t => t.id`).
 */
module Lists {

  /** The key of every element, in order. */
  function Keys<T>(s: seq<T>, key: T -> int): seq<int> {
    seq(|s|, i requires 0 <= i < |s| => key(s[i]))
  }

  /** No two elements share a key. */
  predicate UniqueKeys<T>(s: seq<T>, key: T -> int) {
    forall i, j :: 0 <= i < j < |s| ==> key(s[i]) != key(s[j])
  }

  /** Every key is strictly below `bound`. */
  predicate KeysBelow<T>(s: seq<T>, key: T -> int, bound: int) {
    forall i :: 0 <= i < |s| ==> key(s[i]) < bound
  }

  /** `s.findIndex(x => key(x) === k)`: the first position with key `k`, or -1 when there is none. */
  function FirstIndex<T>(s: seq<T>, key: T -> int, k: int): (r: int)
    ensures -1 <= r < |s|
    ensures r == -1 <==> forall i :: 0 <= i < |s| ==> key(s[i]) != k
    ensures r >= 0 ==> key(s[r]) == k && forall i :: 0 <= i < r ==> key(s[i]) != k
  {
    if s == [] then -1
    else if key(s[0]) == k then 0
    else
      var r := FirstIndex(s[1..], key, k);
      if r == -1 then -1 else r + 1
  }

  /** `findIndex` looks at keys only: two sequences with the same keys give the same answer. */
  lemma {:induction false} FirstIndexByKeys<T>(s: seq<T>, t: seq<T>, key: T -> int, k: int)
    requires Keys(s, key) == Keys(t, key)
    ensures FirstIndex(s, key, k) == FirstIndex(t, key, k)
  {
    assert |s| == |Keys(s, key)| == |t|;
    if s != [] {
      assert key(s[0]) == Keys(s, key)[0] == key(t[0]);
      assert Keys(s[1..], key) == Keys(s, key)[1..] == Keys(t, key)[1..] == Keys(t[1..], key);
      FirstIndexByKeys(s[1..], t[1..], key, k);
    }
  }

  /** `s.splice(i, 1)`: drops the element at index `i` and keeps the others in order. */
  function RemoveAt<T>(s: seq<T>, i: int): (r: seq<T>)
    requires 0 <= i < |s|
    ensures |r| == |s| - 1
    ensures forall j :: 0 <= j < i ==> r[j] == s[j]
    ensures forall j :: i <= j < |r| ==> r[j] == s[j + 1]
    ensures multiset(r) + multiset{s[i]} == multiset(s)
  {
    assert s == s[..i] + [s[i]] + s[i + 1..];
    s[..i] + s[i + 1..]
  }

  /** `findIndex` followed by `splice` when found: removes the first element with key `k`, if any. */
  function DeleteFirst<T>(s: seq<T>, key: T -> int, k: int): (r: seq<T>)
    ensures (forall j :: 0 <= j < |s| ==> key(s[j]) != k) ==> r == s
    ensures (exists j :: 0 <= j < |s| && key(s[j]) == k) ==>
      |r| == |s| - 1 && multiset(r) + multiset{s[FirstIndex(s, key, k)]} == multiset(s)
  {
    var i := FirstIndex(s, key, k);
    if i == -1 then s else RemoveAt(s, i)
  }

  /** `s.filter(p)`: the elements satisfying `p`, in their original order. */
  function Filter<T(==,!new)>(s: seq<T>, p: T -> bool): (r: seq<T>)
    ensures |r| <= |s|
    ensures forall x :: x in r <==> x in s && p(x)
  {
    if s == [] then []
    else if p(s[0]) then [s[0]] + Filter(s[1..], p) else Filter(s[1..], p)
  }

  /** A filter depends only on what its predicate says about the elements present. */
  lemma {:induction false} FilterExt<T(!new)>(s: seq<T>, p: T -> bool, q: T -> bool)
    requires forall x :: x in s ==> p(x) == q(x)
    ensures Filter(s, p) == Filter(s, q)
  {
    if s != [] {
      FilterExt(s[1..], p, q);
    }
  }

  /** Filtering twice is filtering once by the conjunction. */
  lemma {:induction false} FilterFilter<T(!new)>(s: seq<T>, p: T -> bool, q: T -> bool, both: T -> bool)
    requires forall x :: both(x) == (p(x) && q(x))
    ensures Filter(Filter(s, p), q) == Filter(s, both)
  {
    if s != [] {
      FilterFilter(s[1..], p, q, both);
      if p(s[0]) {
        assert Filter(s, p) == [s[0]] + Filter(s[1..], p);
        assert Filter(s, p)[1..] == Filter(s[1..], p);
      }
    }
  }

  /** A filter that every element passes returns the sequence unchanged. */
  lemma {:induction false} FilterAll<T(!new)>(s: seq<T>, p: T -> bool)
    requires forall x :: x in s ==> p(x)
    ensures Filter(s, p) == s
  {
    if s != [] {
      FilterAll(s[1..], p);
      assert s == [s[0]] + s[1..];
    }
  }

  /** Unique keys stay unique in the tail, and no element of the tail shares the head's key. */
  lemma UniqueTail<T>(s: seq<T>, key: T -> int)
    requires s != [] && UniqueKeys(s, key)
    ensures UniqueKeys(s[1..], key)
    ensures forall m :: 0 <= m < |s| - 1 ==> key(s[1..][m]) != key(s[0])
  {
    var t := s[1..];
    forall i, j | 0 <= i < j < |t| ensures key(t[i]) != key(t[j]) {
      assert t[i] == s[i + 1] && t[j] == s[j + 1];
    }
  }

  /** Filtering keeps keys unique. */
  lemma {:induction false} FilterUnique<T(!new)>(s: seq<T>, p: T -> bool, key: T -> int)
    requires UniqueKeys(s, key)
    ensures UniqueKeys(Filter(s, p), key)
  {
    if s != [] {
      var t := s[1..];
      UniqueTail(s, key);
      FilterUnique(t, p, key);
      var f := Filter(t, p);
      if p(s[0]) {
        var r := [s[0]] + f;
        assert Filter(s, p) == r;
        forall j | 1 <= j < |r| ensures key(r[0]) != key(r[j]) {
          assert r[j] == f[j - 1];
          assert f[j - 1] in t;
          var m :| 0 <= m < |t| && t[m] == f[j - 1];
        }
        forall i, j | 0 <= i < j < |r| ensures key(r[i]) != key(r[j]) {
          if i > 0 {
            assert r[i] == f[i - 1] && r[j] == f[j - 1];
          }
        }
      }
    }
  }

  /** Filtering keeps keys unique and below the same bound. */
  lemma FilterKeys<T(!new)>(s: seq<T>, p: T -> bool, key: T -> int, bound: int)
    requires UniqueKeys(s, key) && KeysBelow(s, key, bound)
    ensures UniqueKeys(Filter(s, p), key) && KeysBelow(Filter(s, p), key, bound)
  {
    FilterUnique(s, p, key);
    var r := Filter(s, p);
    forall i | 0 <= i < |r| ensures key(r[i]) < bound {
      assert r[i] in s;
    }
  }

  /** Appending an element keyed by the bound keeps keys unique, with the bound one higher. */
  lemma AppendFresh<T>(s: seq<T>, x: T, key: T -> int, bound: int)
    requires UniqueKeys(s, key) && KeysBelow(s, key, bound) && key(x) == bound
    ensures UniqueKeys(s + [x], key) && KeysBelow(s + [x], key, bound + 1)
  {
    var r := s + [x];
    forall i | 0 <= i < |r| ensures key(r[i]) < bound + 1 {
      if i < |s| { assert r[i] == s[i]; }
    }
    forall i, j | 0 <= i < j < |r| ensures key(r[i]) != key(r[j]) {
      assert r[i] == s[i];
      if j < |s| { assert r[j] == s[j]; }
    }
  }

  /** With unique keys, an element is determined by its key. */
  lemma SameKeySame<T>(s: seq<T>, key: T -> int, x: T, y: T)
    requires UniqueKeys(s, key) && x in s && y in s && key(x) == key(y)
    ensures x == y
  {
    var i :| 0 <= i < |s| && s[i] == x;
    var j :| 0 <= j < |s| && s[j] == y;
    assert !(i < j) && !(j < i);
  }

  /**
   * With unique keys, deleting the first element with key `k` is the same as keeping every
   * element whose key differs from `k`.
   */
  lemma {:induction false} DeleteFirstIsFilter<T(!new)>(s: seq<T>, key: T -> int, k: int, other: T -> bool)
    requires UniqueKeys(s, key) && forall x :: other(x) == (key(x) != k)
    ensures DeleteFirst(s, key, k) == Filter(s, other)
  {
    if s != [] {
      var t := s[1..];
      UniqueTail(s, key);
      if key(s[0]) == k {
        forall x | x in t ensures other(x) {
          var m :| 0 <= m < |t| && t[m] == x;
        }
        FilterAll(t, other);
        assert Filter(s, other) == Filter(t, other);
        assert FirstIndex(s, key, k) == 0;
        assert DeleteFirst(s, key, k) == RemoveAt(s, 0) == t;
      } else {
        DeleteFirstIsFilter(t, key, k, other);
        assert Filter(s, other) == [s[0]] + Filter(t, other);
        DeleteFirstCons(s, key, k);
      }
    }
  }

  /** Deleting a key the head does not carry happens in the tail. */
  lemma DeleteFirstCons<T>(s: seq<T>, key: T -> int, k: int)
    requires s != [] && key(s[0]) != k
    ensures DeleteFirst(s, key, k) == [s[0]] + DeleteFirst(s[1..], key, k)
  {
    var t := s[1..];
    var i := FirstIndex(t, key, k);
    if i == -1 {
      assert FirstIndex(s, key, k) == -1;
      assert s == [s[0]] + t;
    } else {
      assert FirstIndex(s, key, k) == i + 1;
      assert RemoveAt(s, i + 1) == [s[0]] + RemoveAt(t, i);
    }
  }

  /** `s.reduce((sum, x) => sum + f(x), 0)` over integers. */
  function Sum<T>(s: seq<T>, f: T -> int): (r: int)
    ensures (forall j :: 0 <= j < |s| ==> f(s[j]) >= 0) ==> r >= 0
  {
    if s == [] then 0 else f(s[0]) + Sum(s[1..], f)
  }

  /** Appending an element adds its term to the sum. */
  lemma {:induction false} SumAppend<T>(s: seq<T>, x: T, f: T -> int)
    ensures Sum(s + [x], f) == Sum(s, f) + f(x)
  {
    if s != [] {
      assert (s + [x])[1..] == s[1..] + [x];
      SumAppend(s[1..], x, f);
    }
  }

  /** Replacing one element changes the sum by the difference of the two terms. */
  lemma {:induction false} SumUpdate<T>(s: seq<T>, i: int, x: T, f: T -> int)
    requires 0 <= i < |s|
    ensures Sum(s[i := x], f) == Sum(s, f) - f(s[i]) + f(x)
  {
    if i > 0 {
      assert s[i := x][1..] == s[1..][i - 1 := x];
      SumUpdate(s[1..], i - 1, x, f);
    }
  }

  /**
   * With unique keys, dropping the elements with key `k` lowers the sum by exactly the term
   * of the element that had that key (and by nothing when there was none).
   */
  lemma {:induction false} SumFilterOut<T(!new)>(s: seq<T>, key: T -> int, k: int, other: T -> bool, f: T -> int)
    requires UniqueKeys(s, key) && forall x :: other(x) == (key(x) != k)
    ensures var i := FirstIndex(s, key, k);
      Sum(Filter(s, other), f) == Sum(s, f) - (if i == -1 then 0 else f(s[i]))
  {
    if s != [] {
      if key(s[0]) == k {
        HeadKeyFilteredOut(s, key, k, other);
      } else {
        var t := s[1..];
        UniqueTail(s, key);
        SumFilterOut(t, key, k, other, f);
        SumCons(s[0], Filter(t, other), f);
      }
    }
  }

  /** With unique keys, filtering out the head's key leaves exactly the tail. */
  lemma HeadKeyFilteredOut<T(!new)>(s: seq<T>, key: T -> int, k: int, other: T -> bool)
    requires s != [] && UniqueKeys(s, key) && key(s[0]) == k && forall x :: other(x) == (key(x) != k)
    ensures Filter(s, other) == s[1..]
  {
    var t := s[1..];
    UniqueTail(s, key);
    forall x | x in t ensures other(x) {
      var m :| 0 <= m < |t| && t[m] == x;
    }
    FilterAll(t, other);
  }

  /** The sum of a sequence with one more element in front. */
  lemma SumCons<T>(x: T, r: seq<T>, f: T -> int)
    ensures Sum([x] + r, f) == f(x) + Sum(r, f)
  {
    assert ([x] + r)[1..] == r;
  }

  /** When every term is at least 1, the sum is at least the length. */
  lemma {:induction false} SumAtLeastLength<T>(s: seq<T>, f: T -> int)
    requires forall x :: x in s ==> f(x) >= 1
    ensures Sum(s, f) >= |s|
  {
    if s != [] {
      SumAtLeastLength(s[1..], f);
    }
  }
}

/**
 * A stable sort into descending order of a real-valued key, the behaviour
 * of `Array.prototype.sort` with the comparator `(a, b) => key(b) - key(a)`,
 * together with the facts the report relies on: the result is sorted, it is
 * a permutation of the input, elements with equal keys keep their relative
 * order, and any sequence with those three properties is this one.
 */
module StableSort {

  /** Keys do not increase from left to right. */
  predicate SortedDesc<T>(s: seq<T>, key: T -> real)
  {
    forall i, j :: 0 <= i < j < |s| ==> key(s[i]) >= key(s[j])
  }

  /**
   * Inserts `x` in front of the first element whose key is not larger than
   * its own, so that `x` precedes every later element with an equal key.
   */
  function Insert<T>(x: T, s: seq<T>, key: T -> real): (r: seq<T>)
    requires SortedDesc(s, key)
    ensures multiset(r) == multiset(s) + multiset{x}
    ensures |r| == |s| + 1
    ensures SortedDesc(r, key)
    ensures r[0] == x || (s != [] && r[0] == s[0])
  {
    if s == [] || key(x) >= key(s[0]) then [x] + s
    else
      var rest := Insert(x, s[1..], key);
      assert s == [s[0]] + s[1..];
      [s[0]] + rest
  }

  /** Insertion sort, taking elements from the back so that earlier ones end up first among equals. */
  function SortDesc<T>(s: seq<T>, key: T -> real): (r: seq<T>)
    ensures multiset(r) == multiset(s)
    ensures |r| == |s|
    ensures SortedDesc(r, key)
  {
    if s == [] then []
    else
      assert s == [s[0]] + s[1..];
      Insert(s[0], SortDesc(s[1..], key), key)
  }

  /** The elements of `s` whose key equals `k`, in their order in `s`. */
  function WithKey<T>(s: seq<T>, key: T -> real, k: real): seq<T>
  {
    if s == [] then []
    else (if key(s[0]) == k then [s[0]] else []) + WithKey(s[1..], key, k)
  }

  /** Inserting `x` places it first among the elements that share its key. */
  lemma {:induction false} WithKeyInsert<T>(x: T, s: seq<T>, key: T -> real, k: real)
    requires SortedDesc(s, key)
    ensures WithKey(Insert(x, s, key), key, k) ==
      (if key(x) == k then [x] else []) + WithKey(s, key, k)
  {
    var r := Insert(x, s, key);
    if s == [] || key(x) >= key(s[0]) {
      assert r == [x] + s && r[1..] == s;
    } else {
      var rest := Insert(x, s[1..], key);
      var head: seq<T> := if key(s[0]) == k then [s[0]] else [];
      assert r == [s[0]] + rest && r[1..] == rest;
      WithKeyInsert(x, s[1..], key, k);
      assert WithKey(r, key, k) == head + WithKey(rest, key, k);
      assert WithKey(s, key, k) == head + WithKey(s[1..], key, k);
      if key(x) == k {
        assert head == [];
        assert WithKey(r, key, k) == [x] + WithKey(s[1..], key, k);
      } else {
        assert WithKey(rest, key, k) == WithKey(s[1..], key, k);
      }
    }
  }

  /** Stability: for every key value, the sorted sequence lists its elements in input order. */
  lemma {:induction false} SortIsStable<T>(s: seq<T>, key: T -> real, k: real)
    ensures WithKey(SortDesc(s, key), key, k) == WithKey(s, key, k)
  {
    if s != [] {
      SortIsStable(s[1..], key, k);
      WithKeyInsert(s[0], SortDesc(s[1..], key), key, k);
    }
  }

  /** An element of `s` with key `k` appears in `WithKey(s, key, k)`. */
  lemma {:induction false} WithKeyHas<T>(s: seq<T>, key: T -> real, i: nat)
    requires i < |s|
    ensures s[i] in WithKey(s, key, key(s[i]))
  {
    if i > 0 {
      WithKeyHas(s[1..], key, i - 1);
    }
  }

  /** Every element of `WithKey(s, key, k)` is an element of `s` whose key is `k`. */
  lemma {:induction false} WithKeyIn<T>(s: seq<T>, key: T -> real, k: real, x: T)
    requires x in WithKey(s, key, k)
    ensures x in s && key(x) == k
  {
    if s != [] && !(key(s[0]) == k && x == s[0]) {
      WithKeyIn(s[1..], key, k, x);
    }
  }

  /** In a sorted sequence, the elements with the first element's key come first. */
  lemma {:induction false} WithKeyOfHead<T>(s: seq<T>, key: T -> real, k: real)
    requires SortedDesc(s, key) && s != []
    ensures WithKey(s, key, k) ==
      if key(s[0]) == k then [s[0]] + WithKey(s[1..], key, k) else WithKey(s[1..], key, k)
  {
  }

  /**
   * Uniqueness: two descending sequences that list the same elements, in the
   * same order, under every key value are equal. So the sort's result is the
   * only sorted sequence that keeps equal-key elements in input order.
   */
  lemma {:induction false} SortedStableIsUnique<T>(a: seq<T>, b: seq<T>, key: T -> real)
    requires SortedDesc(a, key) && SortedDesc(b, key)
    requires forall k :: WithKey(a, key, k) == WithKey(b, key, k)
    ensures a == b
    decreases |a| + |b|
  {
    if a == [] && b == [] {
    } else if a == [] {
      WithKeyHas(b, key, 0);
      assert false;
    } else if b == [] {
      WithKeyHas(a, key, 0);
      assert false;
    } else {
      SameHeadKey(a, b, key);
      SameHeadKey(b, a, key);
      var k0 := key(a[0]);
      WithKeyOfHead(a, key, k0);
      WithKeyOfHead(b, key, k0);
      assert WithKey(a, key, k0)[0] == a[0] && WithKey(b, key, k0)[0] == b[0];
      forall k ensures WithKey(a[1..], key, k) == WithKey(b[1..], key, k) {
        SameTails(a, b, key, k);
      }
      SortedStableIsUnique(a[1..], b[1..], key);
      assert a == [a[0]] + a[1..] && b == [b[0]] + b[1..];
    }
  }

  /** The head of a sorted sequence has the largest key, so sequences with the same filters share it. */
  lemma SameHeadKey<T>(a: seq<T>, b: seq<T>, key: T -> real)
    requires SortedDesc(b, key) && a != [] && b != []
    requires WithKey(a, key, key(a[0])) == WithKey(b, key, key(a[0]))
    ensures key(b[0]) >= key(a[0])
  {
    WithKeyHas(a, key, 0);
    WithKeyIn(b, key, key(a[0]), a[0]);
    var m :| 0 <= m < |b| && b[m] == a[0];
  }

  /** Dropping equal heads keeps the filters equal. */
  lemma SameTails<T>(a: seq<T>, b: seq<T>, key: T -> real, k: real)
    requires SortedDesc(a, key) && SortedDesc(b, key) && a != [] && b != []
    requires a[0] == b[0]
    requires WithKey(a, key, k) == WithKey(b, key, k)
    ensures WithKey(a[1..], key, k) == WithKey(b[1..], key, k)
  {
    WithKeyOfHead(a, key, k);
    WithKeyOfHead(b, key, k);
    if key(a[0]) == k {
      assert WithKey(a[1..], key, k) == WithKey(a, key, k)[1..];
      assert WithKey(b[1..], key, k) == WithKey(b, key, k)[1..];
    }
  }

  /** The sort is the unique stable descending arrangement of its input. */
  lemma SortIsTheStableArrangement<T>(s: seq<T>, r: seq<T>, key: T -> real)
    requires SortedDesc(r, key)
    requires forall k :: WithKey(r, key, k) == WithKey(s, key, k)
    ensures r == SortDesc(s, key)
  {
    forall k ensures WithKey(r, key, k) == WithKey(SortDesc(s, key), key, k) {
      SortIsStable(s, key, k);
    }
    SortedStableIsUnique(r, SortDesc(s, key), key);
  }

  /** Among the elements of `s` that share a key, `f` strictly increases. */
  predicate TiesIncrease<T>(s: seq<T>, key: T -> real, f: T -> int)
  {
    forall i, j :: 0 <= i < j < |s| && key(s[i]) == key(s[j]) ==> f(s[i]) < f(s[j])
  }

  /** Inserting an element whose `f` is below all of `s` keeps ties in increasing `f`. */
  lemma {:induction false} InsertTiesIncrease<T>(x: T, t: seq<T>, key: T -> real, f: T -> int)
    requires SortedDesc(t, key) && TiesIncrease(t, key, f)
    requires forall k :: 0 <= k < |t| ==> f(x) < f(t[k])
    ensures TiesIncrease(Insert(x, t, key), key, f)
    decreases |t|
  {
    var r := Insert(x, t, key);
    if t == [] || key(x) >= key(t[0]) {
      assert r == [x] + t;
      forall i, j | 0 <= i < j < |r| && key(r[i]) == key(r[j]) ensures f(r[i]) < f(r[j]) {
        assert r[j] == t[j - 1];
        if i > 0 {
          assert r[i] == t[i - 1];
        }
      }
    } else {
      var rest := Insert(x, t[1..], key);
      assert r == [t[0]] + rest;
      assert forall k :: 0 <= k < |t| - 1 ==> t[1..][k] == t[k + 1];
      InsertTiesIncrease(x, t[1..], key, f);
      forall i, j | 0 <= i < j < |r| && key(r[i]) == key(r[j]) ensures f(r[i]) < f(r[j]) {
        assert r[j] == rest[j - 1];
        if i == 0 {
          assert r[j] in multiset(rest);
          HeadBeforeTies(x, t, key, f, r[j]);
        } else {
          assert r[i] == rest[i - 1];
        }
      }
    }
  }

  /** An element that `Insert` placed after the head of `t`, with the head's key, comes from `t`'s tail. */
  lemma HeadBeforeTies<T>(x: T, t: seq<T>, key: T -> real, f: T -> int, y: T)
    requires SortedDesc(t, key) && TiesIncrease(t, key, f)
    requires t != [] && key(x) < key(t[0])
    requires y in multiset(Insert(x, t[1..], key)) && key(y) == key(t[0])
    ensures f(t[0]) < f(y)
  {
    assert y != x;
    assert y in multiset(t[1..]);
    var m :| 0 <= m < |t[1..]| && t[1..][m] == y;
    assert t[m + 1] == y;
  }

  /**
   * Stability by position: when `f` strictly increases along the input,
   * elements that share a key come out of the sort in increasing `f`.
   */
  lemma {:induction false} SortTiesIncrease<T>(s: seq<T>, key: T -> real, f: T -> int)
    requires forall a, b :: 0 <= a < b < |s| ==> f(s[a]) < f(s[b])
    ensures TiesIncrease(SortDesc(s, key), key, f)
    decreases |s|
  {
    if s != [] {
      assert forall k :: 0 <= k < |s| - 1 ==> s[1..][k] == s[k + 1];
      SortTiesIncrease(s[1..], key, f);
      var t := SortDesc(s[1..], key);
      forall k | 0 <= k < |t| ensures f(s[0]) < f(t[k]) {
        assert t[k] in multiset(s[1..]);
        var m :| 0 <= m < |s[1..]| && s[1..][m] == t[k];
      }
      InsertTiesIncrease(s[0], t, key, f);
    }
  }

  /** The sum of `f` over `s`. */
  function SumOf<T>(s: seq<T>, f: T -> int): int
  {
    if s == [] then 0 else f(s[0]) + SumOf(s[1..], f)
  }

  /** Sorting does not change a sum. */
  lemma {:induction false} SumOfSort<T>(s: seq<T>, key: T -> real, f: T -> int)
    ensures SumOf(SortDesc(s, key), f) == SumOf(s, f)
  {
    if s != [] {
      SumOfSort(s[1..], key, f);
      SumOfInsert(s[0], SortDesc(s[1..], key), key, f);
    }
  }

  lemma {:induction false} SumOfInsert<T>(x: T, s: seq<T>, key: T -> real, f: T -> int)
    requires SortedDesc(s, key)
    ensures SumOf(Insert(x, s, key), f) == f(x) + SumOf(s, f)
  {
    if s == [] || key(x) >= key(s[0]) {
      assert ([x] + s)[1..] == s;
    } else {
      var r := Insert(x, s, key);
      assert r[0] == s[0] && r[1..] == Insert(x, s[1..], key);
      SumOfInsert(x, s[1..], key, f);
    }
  }

  /** Two sequences whose elements agree under `f` and `g` position by position have equal sums. */
  lemma {:induction false} SumOfPointwise<T, U>(a: seq<T>, f: T -> int, b: seq<U>, g: U -> int)
    requires |a| == |b|
    requires forall i :: 0 <= i < |a| ==> f(a[i]) == g(b[i])
    ensures SumOf(a, f) == SumOf(b, g)
  {
    if a != [] {
      SumOfPointwise(a[1..], f, b[1..], g);
    }
  }

  /** `f` applied to every element of `s`. */
  function MapSeq<T, U>(s: seq<T>, f: T -> U): (r: seq<U>)
    ensures |r| == |s| && forall i :: 0 <= i < |s| ==> r[i] == f(s[i])
  {
    if s == [] then [] else [f(s[0])] + MapSeq(s[1..], f)
  }

  /** Sorting permutes the images of the elements under any `f` too. */
  lemma {:induction false} MapSeqSort<T, U>(s: seq<T>, key: T -> real, f: T -> U)
    ensures multiset(MapSeq(SortDesc(s, key), f)) == multiset(MapSeq(s, f))
  {
    if s != [] {
      MapSeqSort(s[1..], key, f);
      MapSeqInsert(s[0], SortDesc(s[1..], key), key, f);
      assert MapSeq(s, f) == [f(s[0])] + MapSeq(s[1..], f);
    }
  }

  lemma {:induction false} MapSeqInsert<T, U>(x: T, s: seq<T>, key: T -> real, f: T -> U)
    requires SortedDesc(s, key)
    ensures multiset(MapSeq(Insert(x, s, key), f)) == multiset{f(x)} + multiset(MapSeq(s, f))
  {
    var r := Insert(x, s, key);
    if s == [] || key(x) >= key(s[0]) {
      assert r == [x] + s && r[1..] == s;
      assert MapSeq(r, f) == [f(x)] + MapSeq(s, f);
    } else {
      assert r[0] == s[0] && r[1..] == Insert(x, s[1..], key);
      MapSeqInsert(x, s[1..], key, f);
      assert MapSeq(r, f) == [f(s[0])] + MapSeq(r[1..], f);
      assert MapSeq(s, f) == [f(s[0])] + MapSeq(s[1..], f);
    }
  }

  /** No element occurs twice. */
  predicate Distinct<T(==)>(s: seq<T>)
  {
    forall i, j :: 0 <= i < j < |s| ==> s[i] != s[j]
  }

  /** A sequence with the same elements as a duplicate-free one is duplicate-free. */
  lemma DistinctPermutation<T>(a: seq<T>, b: seq<T>)
    requires Distinct(a) && multiset(a) == multiset(b)
    ensures Distinct(b)
  {
    forall i, j | 0 <= i < j < |b| ensures b[i] != b[j] {
      if b[i] == b[j] {
        assert b == b[..j] + b[j..];
        assert b[i] in b[..j] && b[j] in b[j..];
        assert multiset(b)[b[i]] >= 2;
        DistinctCountsOnce(a, b[i]);
        assert false;
      }
    }
  }

  /** In a duplicate-free sequence every value occurs at most once. */
  lemma {:induction false} DistinctCountsOnce<T>(s: seq<T>, x: T)
    requires Distinct(s)
    ensures multiset(s)[x] <= 1
  {
    if s != [] {
      assert s == [s[0]] + s[1..];
      DistinctCountsOnce(s[1..], x);
      if s[0] == x {
        assert x !in s[1..];
      }
    }
  }

  /** Truncating keeps, for every key value, a prefix of the elements with that key. */
  lemma {:induction false} WithKeyOfPrefix<T>(s: seq<T>, n: nat, key: T -> real, k: real)
    requires n <= |s|
    ensures var w := WithKey(s[..n], key, k);
      |w| <= |WithKey(s, key, k)| && w == WithKey(s, key, k)[..|w|]
  {
    if n > 0 {
      assert s[..n][0] == s[0] && s[..n][1..] == s[1..][..n - 1];
      WithKeyOfPrefix(s[1..], n - 1, key, k);
    }
  }

  /** The first `n` elements of `s`, or all of them when there are fewer (`slice(0, n)`). */
  function Take<T>(s: seq<T>, n: nat): (r: seq<T>)
    ensures |r| <= n && |r| <= |s|
    ensures |r| == if |s| <= n then |s| else n
    ensures r == s[..|r|]
  {
    if |s| <= n then s else s[..n]
  }
}

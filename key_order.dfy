/**
 * The order of a JavaScript object's string keys: a key takes its place
 * the first time it is assigned and keeps it when it is assigned again.
 */
module KeyOrder {
  import opened StableSort

  /** The index of the first occurrence of `x` in `s`, or `|s|` when there is none. */
  function FirstIndex(s: seq<string>, x: string): (k: nat)
    ensures k <= |s|
    ensures k < |s| <==> x in s
    ensures k < |s| ==> s[k] == x
    ensures forall j :: 0 <= j < k ==> s[j] != x
    decreases |s|
  {
    if s == [] then 0
    else
      var n := |s| - 1;
      var k := FirstIndex(s[..n], x);
      assert forall j :: 0 <= j < n ==> s[..n][j] == s[j];
      if k < n then k
      else if s[n] == x then n
      else |s|
  }

  /** A first occurrence inside a prefix is the first occurrence in the whole sequence. */
  lemma FirstIndexPrefix(s: seq<string>, m: nat, x: string)
    requires m <= |s| && x in s[..m]
    ensures FirstIndex(s, x) == FirstIndex(s[..m], x)
  {
    assert forall j :: 0 <= j < m ==> s[..m][j] == s[j];
  }

  /**
   * `order` with each element of `s` appended the first time it is seen:
   * the key order of an object whose keys `order` are followed by the
   * assignments `s`, in turn.
   */
  function AppendNew(order: seq<string>, s: seq<string>): (r: seq<string>)
    ensures Distinct(order) ==> Distinct(r)
    ensures forall x :: x in r <==> x in order || x in s
    ensures |order| <= |r| && r[..|order|] == order
    decreases |s|
  {
    if s == [] then order
    else
      var n := |s| - 1;
      var prev := AppendNew(order, s[..n]);
      assert s == s[..n] + [s[n]];
      if s[n] in prev then prev else prev + [s[n]]
  }

  /** Assigning one more key appends it when it is new and changes nothing otherwise. */
  lemma AppendNewSnoc(order: seq<string>, s: seq<string>, x: string)
    ensures AppendNew(order, s + [x]) ==
      var prev := AppendNew(order, s); if x in prev then prev else prev + [x]
  {
    assert (s + [x])[..|s|] == s;
  }

  /** Assigning the keys `a` and then the keys `b` orders them as assigning `a + b`. */
  lemma {:induction false} AppendNewConcat(order: seq<string>, a: seq<string>, b: seq<string>)
    ensures AppendNew(order, a + b) == AppendNew(AppendNew(order, a), b)
    decreases |b|
  {
    if b == [] {
      assert a + b == a;
    } else {
      var n := |b| - 1;
      assert b == b[..n] + [b[n]];
      assert a + b == (a + b[..n]) + [b[n]];
      AppendNewConcat(order, a, b[..n]);
      AppendNewSnoc(order, a + b[..n], b[n]);
      AppendNewSnoc(AppendNew(order, a), b[..n], b[n]);
    }
  }

  /** Starting from no keys, the keys are listed in the order of their first assignment. */
  lemma {:induction false} AppendNewFirstSeen(s: seq<string>)
    ensures forall i, j :: 0 <= i < j < |AppendNew([], s)| ==>
      FirstIndex(s, AppendNew([], s)[i]) < FirstIndex(s, AppendNew([], s)[j])
    decreases |s|
  {
    if s != [] {
      var n := |s| - 1;
      var prev := AppendNew([], s[..n]);
      AppendNewFirstSeen(s[..n]);
      forall x | x in prev ensures FirstIndex(s, x) == FirstIndex(s[..n], x) < n {
        FirstIndexPrefix(s, n, x);
      }
      var r := AppendNew([], s);
      assert r == if s[n] in prev then prev else prev + [s[n]];
      forall i, j | 0 <= i < j < |r| ensures FirstIndex(s, r[i]) < FirstIndex(s, r[j]) {
        assert r[i] == prev[i] && prev[i] in prev;
        assert FirstIndex(s, r[i]) == FirstIndex(s[..n], prev[i]) < n;
        if j < |prev| {
          assert r[j] == prev[j] && prev[j] in prev;
          assert FirstIndex(s, r[j]) == FirstIndex(s[..n], prev[j]);
          assert FirstIndex(s[..n], prev[i]) < FirstIndex(s[..n], prev[j]);
        } else {
          assert s[n] !in prev && r[j] == s[n];
          assert s[n] !in s[..n];
          assert FirstIndex(s, s[n]) == n by {
            assert forall k :: 0 <= k < n ==> s[..n][k] == s[k];
          }
        }
      }
    }
  }
}

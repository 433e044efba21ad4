/** Result types shared by every module, and the greatest element of a finite set of numbers. */
module Wrappers {

  datatype Option<+T> = None | Some(value: T)

  datatype Result<+T, +E> = Ok(value: T) | Err(error: E)

  ghost function AnyOf<T>(s: set<T>): (x: T)
    requires s != {}
    ensures x in s
  {
    var x: T :| x in s;
    x
  }

  predicate IsMax(s: set<int>, m: int) {
    m in s && forall x :: x in s ==> x <= m
  }

  ghost function Greatest(s: set<int>): (m: int)
    requires s != {}
    ensures IsMax(s, m)
  {
    var x := AnyOf(s);
    if s == {x} then x
    else
      var m := Greatest(s - {x});
      assert forall y :: y in s ==> y == x || y in s - {x};
      if x > m then x else m
  }

  /** Python's `max(...)` of a non-empty collection. */
  function Max(s: set<int>): (m: int)
    requires s != {}
    ensures IsMax(s, m)
  {
    assert IsMax(s, Greatest(s));
    var m: int :| m in s && IsMax(s, m);
    m
  }

  ghost predicate Ascending<T(!new)>(s: seq<T>, before: (T, T) -> bool) {
    forall i, j :: 0 <= i < j < |s| ==> before(s[i], s[j])
  }

  /** Under an order no two elements of which come before each other, a set has one sorted listing. */
  lemma {:induction false} SortedListingIsUnique<T(!new)>(s: seq<T>, t: seq<T>, before: (T, T) -> bool)
    requires Ascending(s, before) && Ascending(t, before)
    requires forall x :: x in s <==> x in t
    requires forall x, y :: x in s && y in s ==> !(before(x, y) && before(y, x))
    ensures s == t
  {
    assert |s| > 0 ==> s[0] in s;
    assert |t| > 0 ==> t[0] in t;
    if s != [] {
      var i :| 0 <= i < |s| && s[i] == t[0];
      var j :| 0 <= j < |t| && t[j] == s[0];
      assert i == 0 && j == 0;
      forall x ensures x in s[1..] <==> x in t[1..] {
        assert x in s[1..] ==> x in s && before(s[0], x);
        assert x in t[1..] ==> x in t && before(t[0], x);
        assert x in s && x != s[0] ==> x in s[1..];
        assert x in t && x != t[0] ==> x in t[1..];
      }
      SortedListingIsUnique(s[1..], t[1..], before);
    }
  }

  ghost predicate StrictlyIncreasing(s: seq<int>) {
    forall i, j :: 0 <= i < j < |s| ==> s[i] < s[j]
  }

  /** The only strictly increasing list of exactly the numbers lo .. lo + n - 1. */
  lemma {:induction false} IncreasingFill(s: seq<int>, lo: int, n: nat)
    requires StrictlyIncreasing(s)
    requires forall i :: 0 <= i < |s| ==> lo <= s[i] < lo + n
    requires forall v :: lo <= v < lo + n ==> v in s
    ensures |s| == n
    ensures forall i :: 0 <= i < n ==> s[i] == lo + i
  {
    IncreasingPrefix(s, lo, n, |s|);
    assert |s| < n ==> lo + |s| in s;
    assert |s| > 0 ==> s[|s| - 1] == lo + |s| - 1;
  }

  lemma {:induction false} IncreasingPrefix(s: seq<int>, lo: int, n: nat, k: nat)
    requires StrictlyIncreasing(s)
    requires forall i :: 0 <= i < |s| ==> lo <= s[i] < lo + n
    requires forall v :: lo <= v < lo + n ==> v in s
    requires k <= |s|
    ensures forall i :: 0 <= i < k ==> s[i] == lo + i
  {
    if k > 0 {
      IncreasingPrefix(s, lo, n, k - 1);
      assert s[k - 1] >= lo + k - 1 by {
        if k > 1 { assert s[k - 2] < s[k - 1]; }
      }
      assert lo + k - 1 in s;
      var j :| 0 <= j < |s| && s[j] == lo + k - 1;
      assert j == k - 1;
    }
  }
}

/**
 * Python's `list.sort(key=..., reverse=...)`: a stable sort by a key. With
 * `reverse=True` the order is descending and elements with equal keys keep
 * their original order. Modelled as insertion sort: `SortBy` is the
 * specification, `StableSort` the loop that computes it.
 */
module Sorting {

  /** `a` must come strictly before `b` in the requested direction. */
  predicate Precedes<T>(a: T, b: T, key: T -> real, descending: bool) {
    if descending then key(a) > key(b) else key(a) < key(b)
  }

  /** No element comes strictly before one that precedes it in the sequence. */
  ghost predicate Ordered<T>(s: seq<T>, key: T -> real, descending: bool) {
    forall i, j :: 0 <= i < j < |s| ==> !Precedes(s[j], s[i], key, descending)
  }

  /** Insert `x` before the first element it strictly precedes: after every element of equal key. */
  function InsertBy<T>(s: seq<T>, x: T, key: T -> real, descending: bool): seq<T> {
    if s == [] then [x]
    else if Precedes(x, s[0], key, descending) then [x] + s
    else [s[0]] + InsertBy(s[1..], x, key, descending)
  }

  /** The result of sorting `s`: each element in turn inserted into the sorted prefix. */
  function SortBy<T>(s: seq<T>, key: T -> real, descending: bool): seq<T> {
    if s == [] then []
    else InsertBy(SortBy(s[..|s| - 1], key, descending), s[|s| - 1], key, descending)
  }

  /** The elements of `s` whose key is `c`, in their order in `s`. */
  function WithKey<T>(s: seq<T>, key: T -> real, c: real): seq<T> {
    if s == [] then []
    else (if key(s[0]) == c then [s[0]] else []) + WithKey(s[1..], key, c)
  }

  lemma {:induction false} InsertByPermutes<T>(s: seq<T>, x: T, key: T -> real, descending: bool)
    ensures multiset(InsertBy(s, x, key, descending)) == multiset(s) + multiset{x}
    ensures |InsertBy(s, x, key, descending)| == |s| + 1
  {
    if s != [] && !Precedes(x, s[0], key, descending) {
      InsertByPermutes(s[1..], x, key, descending);
      assert s == [s[0]] + s[1..];
    }
  }

  lemma {:induction false} InsertByOrdered<T>(s: seq<T>, x: T, key: T -> real, descending: bool)
    requires Ordered(s, key, descending)
    ensures Ordered(InsertBy(s, x, key, descending), key, descending)
  {
    var r := InsertBy(s, x, key, descending);
    if s == [] {
    } else if Precedes(x, s[0], key, descending) {
      forall i, j | 0 <= i < j < |r| ensures !Precedes(r[j], r[i], key, descending) {
        if i > 0 {
          assert r[i] == s[i - 1] && r[j] == s[j - 1];
        } else {
          assert r[j] == s[j - 1];
          assert !Precedes(s[j - 1], s[0], key, descending) || j - 1 == 0;
        }
      }
    } else {
      var rest := InsertBy(s[1..], x, key, descending);
      InsertByOrdered(s[1..], x, key, descending);
      InsertByPermutes(s[1..], x, key, descending);
      assert r == [s[0]] + rest;
      forall j | 0 <= j < |rest| ensures !Precedes(rest[j], s[0], key, descending) {
        assert rest[j] in multiset(rest);
        assert rest[j] in multiset(s[1..]) || rest[j] == x;
        if rest[j] != x {
          var k :| 0 <= k < |s[1..]| && s[1..][k] == rest[j];
          assert s[k + 1] == rest[j];
        }
      }
      forall i, j | 0 <= i < j < |r| ensures !Precedes(r[j], r[i], key, descending) {
        if i > 0 {
          assert r[i] == rest[i - 1] && r[j] == rest[j - 1];
        } else {
          assert r[j] == rest[j - 1];
        }
      }
    }
  }

  /** Sorting yields an ordered permutation of its input. */
  lemma {:induction false} SortByOrderedPermutation<T>(s: seq<T>, key: T -> real, descending: bool)
    ensures Ordered(SortBy(s, key, descending), key, descending)
    ensures multiset(SortBy(s, key, descending)) == multiset(s)
    ensures |SortBy(s, key, descending)| == |s|
  {
    if s != [] {
      var init := s[..|s| - 1];
      SortByOrderedPermutation(init, key, descending);
      InsertByOrdered(SortBy(init, key, descending), s[|s| - 1], key, descending);
      InsertByPermutes(SortBy(init, key, descending), s[|s| - 1], key, descending);
      assert s == init + [s[|s| - 1]];
    }
  }

  lemma {:induction false} WithKeyAppend<T>(s: seq<T>, x: T, key: T -> real, c: real)
    ensures WithKey(s + [x], key, c) == WithKey(s, key, c) + (if key(x) == c then [x] else [])
  {
    if s != [] {
      WithKeyAppend(s[1..], x, key, c);
      assert (s + [x])[1..] == s[1..] + [x];
    }
  }

  /** In an ordered sequence headed by an element that `x` strictly precedes, no element shares `x`'s key. */
  lemma {:induction false} NoneWithKeyAfter<T>(s: seq<T>, x: T, key: T -> real, descending: bool)
    requires Ordered(s, key, descending) && s != [] && Precedes(x, s[0], key, descending)
    ensures WithKey(s, key, key(x)) == []
  {
    if |s| > 1 {
      assert !Precedes(s[1], s[0], key, descending);
      assert Precedes(x, s[1], key, descending);
      assert Ordered(s[1..], key, descending) by {
        forall i, j | 0 <= i < j < |s[1..]| ensures !Precedes(s[1..][j], s[1..][i], key, descending) {
          assert s[1..][j] == s[j + 1] && s[1..][i] == s[i + 1];
        }
      }
      NoneWithKeyAfter(s[1..], x, key, descending);
    }
  }

  lemma {:induction false} InsertByStable<T>(s: seq<T>, x: T, key: T -> real, descending: bool, c: real)
    requires Ordered(s, key, descending)
    ensures WithKey(InsertBy(s, x, key, descending), key, c) == WithKey(s, key, c) + (if key(x) == c then [x] else [])
  {
    if s == [] {
    } else if Precedes(x, s[0], key, descending) {
      var r := [x] + s;
      assert r[1..] == s;
      if key(x) == c {
        NoneWithKeyAfter(s, x, key, descending);
      }
    } else {
      assert Ordered(s[1..], key, descending) by {
        forall i, j | 0 <= i < j < |s[1..]| ensures !Precedes(s[1..][j], s[1..][i], key, descending) {
          assert s[1..][j] == s[j + 1] && s[1..][i] == s[i + 1];
        }
      }
      InsertByStable(s[1..], x, key, descending, c);
      var r := [s[0]] + InsertBy(s[1..], x, key, descending);
      assert r[1..] == InsertBy(s[1..], x, key, descending);
    }
  }

  /** Sorting loses no element. */
  lemma SortByKeepsMembers<T>(s: seq<T>, key: T -> real, descending: bool, x: T)
    requires x in s
    ensures x in SortBy(s, key, descending)
  {
    SortByOrderedPermutation(s, key, descending);
    assert x in multiset(SortBy(s, key, descending));
  }

  /** Stability: for every key, the elements with that key appear in the same order before and after. */
  lemma {:induction false} SortByStable<T>(s: seq<T>, key: T -> real, descending: bool, c: real)
    ensures WithKey(SortBy(s, key, descending), key, c) == WithKey(s, key, c)
  {
    if s != [] {
      var init, last := s[..|s| - 1], s[|s| - 1];
      SortByStable(init, key, descending, c);
      SortByOrderedPermutation(init, key, descending);
      InsertByStable(SortBy(init, key, descending), last, key, descending, c);
      WithKeyAppend(init, last, key, c);
      assert s == init + [last];
    }
  }

  /** Inserting `x` places it just before the first element it strictly precedes. */
  lemma {:induction false} InsertByAt<T>(s: seq<T>, x: T, key: T -> real, descending: bool, k: nat)
    requires k <= |s|
    requires forall j :: 0 <= j < k ==> !Precedes(x, s[j], key, descending)
    requires k < |s| ==> Precedes(x, s[k], key, descending)
    ensures InsertBy(s, x, key, descending) == s[..k] + [x] + s[k..]
  {
    if k > 0 {
      InsertByAt(s[1..], x, key, descending, k - 1);
      assert s[1..][..k - 1] == s[1..k];
      assert s[1..][k - 1..] == s[k..];
      assert s[..k] == [s[0]] + s[1..k];
    }
  }

  /**
   * The sort itself: each element is inserted into the sorted prefix after
   * every element it does not strictly precede.
   */
  method StableSort<T>(s: seq<T>, key: T -> real, descending: bool) returns (r: seq<T>)
    ensures r == SortBy(s, key, descending)
  {
    r := [];
    var i := 0;
    while i < |s|
      invariant 0 <= i <= |s|
      invariant r == SortBy(s[..i], key, descending)
    {
      var x := s[i];
      var k := 0;
      while k < |r| && !Precedes(x, r[k], key, descending)
        invariant 0 <= k <= |r|
        invariant forall j :: 0 <= j < k ==> !Precedes(x, r[j], key, descending)
      {
        k := k + 1;
      }
      InsertByAt(r, x, key, descending, k);
      assert s[..i + 1][..i] == s[..i];
      r := r[..k] + [x] + r[k..];
      i := i + 1;
    }
    assert s[..i] == s;
  }
}

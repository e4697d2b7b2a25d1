/** Python's `sorted(xs, key=...)` on an integer key: a stable insertion sort,
    with the facts the model needs about it (ordered, a permutation, and for
    plain integers determined by the multiset of its input). */
module Sorting {

  predicate SortedBy<T>(s: seq<T>, key: T -> int) {
    forall i, j :: 0 <= i < j < |s| ==> key(s[i]) <= key(s[j])
  }

  /** An element no larger than any element of a sorted sequence can go
      in front of it. */
  lemma ConsSorted<T>(y: T, s: seq<T>, key: T -> int)
    requires SortedBy(s, key)
    requires forall k :: 0 <= k < |s| ==> key(y) <= key(s[k])
    ensures SortedBy([y] + s, key)
  {
    forall i, j | 0 <= i < j < |s| + 1 ensures key(([y] + s)[i]) <= key(([y] + s)[j]) {
      if i > 0 {
        assert key(s[i - 1]) <= key(s[j - 1]);
      } else {
        assert key(y) <= key(s[j - 1]);
      }
    }
  }

  /** The elements of a rearrangement of `t` plus `x` all have keys at
      least `lo` when those of `t` and `x` do. */
  lemma KeysBelow<T>(lo: int, x: T, t: seq<T>, r: seq<T>, key: T -> int)
    requires lo <= key(x) && forall k :: 0 <= k < |t| ==> lo <= key(t[k])
    requires multiset(r) == multiset(t) + multiset{x}
    ensures forall j :: 0 <= j < |r| ==> lo <= key(r[j])
  {
    forall j | 0 <= j < |r| ensures lo <= key(r[j]) {
      assert r[j] in multiset(r);
      if r[j] != x {
        assert r[j] in multiset(t);
        var m :| 0 <= m < |t| && t[m] == r[j];
      }
    }
  }

  /** Inserts `x` before the first element whose key is not smaller. */
  function Insert<T>(x: T, s: seq<T>, key: T -> int): (r: seq<T>)
    requires SortedBy(s, key)
    ensures SortedBy(r, key)
    ensures multiset(r) == multiset(s) + multiset{x}
    ensures |r| == |s| + 1
  {
    if |s| == 0 then [x]
    else if key(x) <= key(s[0]) then
      ConsSorted(x, s, key);
      [x] + s
    else
      var rest := Insert(x, s[1..], key);
      assert s == [s[0]] + s[1..];
      KeysBelow(key(s[0]), x, s[1..], rest, key);
      ConsSorted(s[0], rest, key);
      [s[0]] + rest
  }

  /** `sorted(s, key=key)`. */
  function SortBy<T>(s: seq<T>, key: T -> int): (r: seq<T>)
    ensures SortedBy(r, key)
    ensures multiset(r) == multiset(s)
    ensures |r| == |s|
  {
    if |s| == 0 then []
    else
      assert s == [s[0]] + s[1..];
      Insert(s[0], SortBy(s[1..], key), key)
  }

  function Identity(x: int): int { x }

  predicate Ascending(s: seq<int>) {
    forall i, j :: 0 <= i < j < |s| ==> s[i] <= s[j]
  }

  /** Two ascending integer sequences with the same elements are equal. */
  lemma {:induction false} AscendingUnique(x: seq<int>, y: seq<int>)
    requires Ascending(x) && Ascending(y)
    requires multiset(x) == multiset(y)
    ensures x == y
  {
    assert |x| == |multiset(x)| == |multiset(y)| == |y|;
    if |x| > 0 {
      AscendingHeadsAgree(x, y);
      assert x == [x[0]] + x[1..];
      assert y == [y[0]] + y[1..];
      assert multiset(x[1..]) == multiset(y[1..]) by {
        calc {
          multiset(x[1..]);
          multiset(x) - multiset{x[0]};
          multiset(y) - multiset{y[0]};
          multiset(y[1..]);
        }
      }
      AscendingUnique(x[1..], y[1..]);
    }
  }

  /** Two non-empty ascending sequences with the same elements start with
      the same, smallest, element. */
  lemma AscendingHeadsAgree(x: seq<int>, y: seq<int>)
    requires Ascending(x) && Ascending(y) && |x| > 0 && |y| > 0
    requires multiset(x) == multiset(y)
    ensures x[0] == y[0]
  {
    assert x[0] in multiset(y);
    var k :| 0 <= k < |y| && y[k] == x[0];
    assert y[0] in multiset(x);
    var m :| 0 <= m < |x| && x[m] == y[0];
    assert x[0] <= x[m];
    assert y[0] <= y[k];
  }

  /** Sorting integers gives a result that depends only on which values the
      input holds, not on their order. */
  lemma SortIgnoresOrder(a: seq<int>, b: seq<int>)
    requires multiset(a) == multiset(b)
    ensures SortBy(a, Identity) == SortBy(b, Identity)
  {
    var sa, sb := SortBy(a, Identity), SortBy(b, Identity);
    assert Ascending(sa) by {
      forall i, j | 0 <= i < j < |sa| ensures sa[i] <= sa[j] {
        assert Identity(sa[i]) <= Identity(sa[j]);
      }
    }
    assert Ascending(sb) by {
      forall i, j | 0 <= i < j < |sb| ensures sb[i] <= sb[j] {
        assert Identity(sb[i]) <= Identity(sb[j]);
      }
    }
    AscendingUnique(sa, sb);
  }
}

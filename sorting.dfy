/** Python's `list.sort(key=..., reverse=True)`: a stable sort on a key,
    largest key first, where elements with equal keys keep the order they
    had before the sort. */
module Sorting {

  predicate SortedDesc<T>(s: seq<T>, key: T -> int) {
    forall i, j :: 0 <= i < j < |s| ==> key(s[i]) >= key(s[j])
  }

  /** The elements of `s` whose key is `v`, in their order in `s`. */
  function WithKey<T>(s: seq<T>, key: T -> int, v: int): seq<T>
    decreases |s|
  {
    if s == [] then []
    else WithKey(s[..|s| - 1], key, v) + (if key(s[|s| - 1]) == v then [s[|s| - 1]] else [])
  }

  lemma WithKeySnoc<T>(s: seq<T>, y: T, key: T -> int, v: int)
    ensures WithKey(s + [y], key, v) == WithKey(s, key, v) + (if key(y) == v then [y] else [])
  {
    assert (s + [y])[..|s|] == s;
  }

  /** Appending an element no larger than everything before it keeps the
      order. */
  lemma SnocSorted<T>(s: seq<T>, z: T, key: T -> int)
    requires SortedDesc(s, key) && forall e :: e in s ==> key(e) >= key(z)
    ensures SortedDesc(s + [z], key)
  {
    forall i, j | 0 <= i < j < |s| + 1 ensures key((s + [z])[i]) >= key((s + [z])[j]) {
      if j == |s| {
        assert (s + [z])[i] == s[i] && s[i] in s;
      }
    }
  }

  /** `r` with `x` placed after every element whose key is at least
      `key(x)`. */
  function InsertDesc<T>(x: T, r: seq<T>, key: T -> int): (res: seq<T>)
    requires SortedDesc(r, key)
    ensures SortedDesc(res, key)
    ensures |res| == |r| + 1
    ensures multiset(res) == multiset(r) + multiset{x}
    decreases |r|
  {
    if r == [] then [x]
    else
      var y := r[|r| - 1];
      var init := r[..|r| - 1];
      assert r == init + [y];
      SortedInit(r, key);
      if key(y) >= key(x) then
        SnocSorted(r, x, key);
        r + [x]
      else
        var front := InsertDesc(x, init, key);
        BoundAfterInsert(x, init, front, key(y), key);
        SnocSorted(front, y, key);
        front + [y]
  }

  /** A sorted list without its last element is sorted and every element
      of it has a key at least that of the last. */
  lemma SortedInit<T>(r: seq<T>, key: T -> int)
    requires SortedDesc(r, key) && r != []
    ensures SortedDesc(r[..|r| - 1], key)
    ensures forall e :: e in r[..|r| - 1] ==> key(e) >= key(r[|r| - 1])
  {
    var init := r[..|r| - 1];
    forall e | e in init ensures key(e) >= key(r[|r| - 1]) {
      var i :| 0 <= i < |init| && init[i] == e;
      assert r[i] == e;
    }
  }

  /** A lower bound on the keys of a list and of `x` bounds the keys of
      any permutation of the list with `x` added. */
  lemma BoundAfterInsert<T>(x: T, init: seq<T>, front: seq<T>, b: int, key: T -> int)
    requires multiset(front) == multiset(init) + multiset{x}
    requires forall e :: e in init ==> key(e) >= b
    requires key(x) >= b
    ensures forall e :: e in front ==> key(e) >= b
  {
    forall e | e in front ensures key(e) >= b {
      assert e in multiset(front);
    }
  }

  /** Inserting `x` appends it to the elements with its key and leaves the
      others' order alone. */
  lemma {:induction false} InsertWithKey<T>(x: T, r: seq<T>, key: T -> int, v: int)
    requires SortedDesc(r, key)
    ensures WithKey(InsertDesc(x, r, key), key, v) == WithKey(r, key, v) + (if key(x) == v then [x] else [])
    decreases |r|
  {
    if r == [] {
      WithKeySnoc([], x, key, v);
    } else if key(r[|r| - 1]) >= key(x) {
      WithKeySnoc(r, x, key, v);
    } else {
      var y := r[|r| - 1];
      var init := r[..|r| - 1];
      assert r == init + [y];
      InsertWithKey(x, init, key, v);
      SwapLast(x, init, y, key, v);
    }
  }

  /** Inserting below a last element that ranks lower puts it in front of
      that element. */
  lemma InsertBeforeLast<T>(x: T, init: seq<T>, y: T, key: T -> int)
    requires SortedDesc(init, key) && SortedDesc(init + [y], key) && key(y) < key(x)
    ensures InsertDesc(x, init + [y], key) == InsertDesc(x, init, key) + [y]
  {
    var r := init + [y];
    assert r[..|r| - 1] == init && r[|r| - 1] == y;
  }

  lemma SwapLast<T>(x: T, init: seq<T>, y: T, key: T -> int, v: int)
    requires SortedDesc(init, key) && SortedDesc(init + [y], key) && key(y) < key(x)
    requires WithKey(InsertDesc(x, init, key), key, v) == WithKey(init, key, v) + (if key(x) == v then [x] else [])
    ensures WithKey(InsertDesc(x, init + [y], key), key, v) == WithKey(init + [y], key, v) + (if key(x) == v then [x] else [])
  {
    var front := InsertDesc(x, init, key);
    InsertBeforeLast(x, init, y, key);
    WithKeySnoc(front, y, key, v);
    WithKeySnoc(init, y, key, v);
    var w := WithKey(init, key, v);
    if key(x) == v {
      assert WithKey(init + [y], key, v) == w;
      assert WithKey(front + [y], key, v) == w + [x];
    } else {
      assert WithKey(front, key, v) == w;
    }
  }

  /** The stable descending sort of `s`. */
  function SortDesc<T>(s: seq<T>, key: T -> int): (r: seq<T>)
    ensures SortedDesc(r, key)
    ensures |r| == |s|
    ensures multiset(r) == multiset(s)
    decreases |s|
  {
    if s == [] then []
    else
      assert s == s[..|s| - 1] + [s[|s| - 1]];
      InsertDesc(s[|s| - 1], SortDesc(s[..|s| - 1], key), key)
  }

  /** Stability: for every key, the elements carrying it appear in the
      sorted list in the order they had in `s`. */
  lemma {:induction false} SortStable<T>(s: seq<T>, key: T -> int, v: int)
    ensures WithKey(SortDesc(s, key), key, v) == WithKey(s, key, v)
    decreases |s|
  {
    if s != [] {
      SortStable(s[..|s| - 1], key, v);
      InsertWithKey(s[|s| - 1], SortDesc(s[..|s| - 1], key), key, v);
    }
  }
}

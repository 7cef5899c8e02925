/**
 * `Array.prototype.sort` with a numeric comparator built from a sort key:
 * `(a, b) => desc ? key(b) - key(a) : key(a) - key(b)`. The sort is stable,
 * as ECMAScript requires since its 2019 edition: records with equal keys keep
 * their input order.
 */
module Sorting {

  /** The comparator: positive when `a` must come after `b`. */
  function Compare<T>(a: T, b: T, key: T -> int, desc: bool): int {
    if desc then key(b) - key(a) else key(a) - key(b)
  }

  /** Non-increasing keys when `desc`, non-decreasing otherwise. */
  ghost predicate InOrder<T>(s: seq<T>, key: T -> int, desc: bool) {
    forall i, j :: 0 <= i < j < |s| ==> Compare(s[i], s[j], key, desc) <= 0
  }

  /** The elements of `s` whose key is `k`, in order. */
  function WithKey<T>(s: seq<T>, key: T -> int, k: int): seq<T> {
    if s == [] then []
    else WithKey(s[..|s| - 1], key, k) + (if key(s[|s| - 1]) == k then [s[|s| - 1]] else [])
  }

  /** Inserts `x` into `s` after every element the comparator does not put after it. */
  function Insert<T>(x: T, s: seq<T>, key: T -> int, desc: bool): seq<T> {
    if s == [] || Compare(s[|s| - 1], x, key, desc) <= 0 then s + [x]
    else Insert(x, s[..|s| - 1], key, desc) + [s[|s| - 1]]
  }

  /** Inserting adds exactly `x` to the elements. */
  lemma {:induction false} InsertPermutes<T>(x: T, s: seq<T>, key: T -> int, desc: bool)
    ensures multiset(Insert(x, s, key, desc)) == multiset(s) + multiset{x}
  {
    if s != [] && Compare(s[|s| - 1], x, key, desc) > 0 {
      InsertPermutes(x, s[..|s| - 1], key, desc);
      assert s == s[..|s| - 1] + [s[|s| - 1]];
    }
  }

  /** The sorted order: insertion sort, taking the elements from the front. */
  function StableSort<T>(s: seq<T>, key: T -> int, desc: bool): seq<T> {
    if s == [] then [] else Insert(s[|s| - 1], StableSort(s[..|s| - 1], key, desc), key, desc)
  }

  /** Every element of `s` that the comparator does not put after `y` ... stays before it. */
  lemma {:induction false} InsertBelow<T>(x: T, s: seq<T>, key: T -> int, desc: bool, y: T)
    requires forall e :: e in s ==> Compare(e, y, key, desc) <= 0
    requires Compare(x, y, key, desc) <= 0
    ensures forall e :: e in Insert(x, s, key, desc) ==> Compare(e, y, key, desc) <= 0
  {
    InsertPermutes(x, s, key, desc);
    forall e | e in Insert(x, s, key, desc) ensures Compare(e, y, key, desc) <= 0 {
      assert e in multiset(Insert(x, s, key, desc));
    }
  }

  lemma {:induction false} InsertInOrder<T>(x: T, s: seq<T>, key: T -> int, desc: bool)
    requires InOrder(s, key, desc)
    ensures InOrder(Insert(x, s, key, desc), key, desc)
    decreases |s|
  {
    if s == [] || Compare(s[|s| - 1], x, key, desc) <= 0 {
      var t := s + [x];
      forall i, j | 0 <= i < j < |t| ensures Compare(t[i], t[j], key, desc) <= 0 {
        if j == |t| - 1 && i < |s| - 1 {
          assert Compare(s[i], s[|s| - 1], key, desc) <= 0;
        }
      }
    } else {
      var init, last := s[..|s| - 1], s[|s| - 1];
      InsertInOrder(x, init, key, desc);
      forall e | e in init ensures Compare(e, last, key, desc) <= 0 {
        var i :| 0 <= i < |init| && init[i] == e;
        assert s[i] == e;
      }
      InsertBelow(x, init, key, desc, last);
      var r := Insert(x, init, key, desc);
      var t := r + [last];
      forall i, j | 0 <= i < j < |t| ensures Compare(t[i], t[j], key, desc) <= 0 {
        if j == |t| - 1 {
          assert t[i] in r;
        } else {
          assert t[i] == r[i] && t[j] == r[j];
        }
      }
    }
  }

  /** Appending one element extends the equal-key slice by it when its key matches. */
  lemma WithKeySnoc<T>(s: seq<T>, y: T, key: T -> int, k: int)
    ensures WithKey(s + [y], key, k) == WithKey(s, key, k) + (if key(y) == k then [y] else [])
  {
    assert (s + [y])[..|s|] == s;
  }

  lemma {:induction false} InsertWithKey<T>(x: T, s: seq<T>, key: T -> int, desc: bool, k: int)
    ensures WithKey(Insert(x, s, key, desc), key, k) == WithKey(s, key, k) + (if key(x) == k then [x] else [])
    decreases |s|
  {
    var tail := if key(x) == k then [x] else [];
    if s == [] || Compare(s[|s| - 1], x, key, desc) <= 0 {
      WithKeySnoc(s, x, key, k);
    } else {
      var init, last := s[..|s| - 1], s[|s| - 1];
      var r' := Insert(x, init, key, desc);
      var lastPart := if key(last) == k then [last] else [];
      assert s == init + [last];
      assert Insert(x, s, key, desc) == r' + [last];
      assert tail + lastPart == lastPart + tail by {
        assert key(x) != key(last);
      }
      calc {
        WithKey(Insert(x, s, key, desc), key, k);
        { WithKeySnoc(r', last, key, k); }
        WithKey(r', key, k) + lastPart;
        { InsertWithKey(x, init, key, desc, k); }
        WithKey(init, key, k) + tail + lastPart;
        WithKey(init, key, k) + lastPart + tail;
        { WithKeySnoc(init, last, key, k); }
        WithKey(s, key, k) + tail;
      }
    }
  }

  /** The sort is a permutation, puts the elements in order, and keeps the
      input order among elements with equal keys (it is stable). */
  lemma {:induction false} StableSortCorrect<T>(s: seq<T>, key: T -> int, desc: bool)
    ensures multiset(StableSort(s, key, desc)) == multiset(s)
    ensures InOrder(StableSort(s, key, desc), key, desc)
    ensures forall k :: WithKey(StableSort(s, key, desc), key, k) == WithKey(s, key, k)
  {
    if s != [] {
      var init, last := s[..|s| - 1], s[|s| - 1];
      StableSortCorrect(init, key, desc);
      InsertPermutes(last, StableSort(init, key, desc), key, desc);
      assert s == init + [last];
      InsertInOrder(last, StableSort(init, key, desc), key, desc);
      forall k ensures WithKey(StableSort(s, key, desc), key, k) == WithKey(s, key, k) {
        InsertWithKey(last, StableSort(init, key, desc), key, desc, k);
      }
    }
  }

  /** `s.map(g)`. */
  function Map<T>(s: seq<T>, g: T -> T): (r: seq<T>)
    ensures |r| == |s|
    ensures forall i :: 0 <= i < |s| ==> r[i] == g(s[i])
  {
    seq(|s|, i requires 0 <= i < |s| => g(s[i]))
  }

  /** Inserting commutes with a map that keeps every key. */
  lemma {:induction false} InsertMap<T>(x: T, s: seq<T>, key: T -> int, desc: bool, g: T -> T)
    requires forall y :: key(g(y)) == key(y)
    ensures Insert(g(x), Map(s, g), key, desc) == Map(Insert(x, s, key, desc), g)
    decreases |s|
  {
    if s != [] {
      var init := s[..|s| - 1];
      assert Map(s, g)[..|s| - 1] == Map(init, g);
      assert Compare(g(s[|s| - 1]), g(x), key, desc) == Compare(s[|s| - 1], x, key, desc);
      if Compare(s[|s| - 1], x, key, desc) > 0 {
        InsertMap(x, init, key, desc, g);
        assert Map(Insert(x, s, key, desc), g) == Map(Insert(x, init, key, desc), g) + [g(s[|s| - 1])];
      } else {
        assert Map(s + [x], g) == Map(s, g) + [g(x)];
      }
    } else {
      assert Map([x], g) == [g(x)];
    }
  }

  /** Sorting commutes with a map that keeps every key: the mapped records
      end up in the same places. */
  lemma {:induction false} StableSortMap<T>(s: seq<T>, key: T -> int, desc: bool, g: T -> T)
    requires forall y :: key(g(y)) == key(y)
    ensures StableSort(Map(s, g), key, desc) == Map(StableSort(s, key, desc), g)
  {
    if s != [] {
      var init := s[..|s| - 1];
      assert Map(s, g)[..|s| - 1] == Map(init, g);
      StableSortMap(init, key, desc, g);
      InsertMap(s[|s| - 1], StableSort(init, key, desc), key, desc, g);
    }
  }

  /** Insert places `x` after the longest prefix that ends with an element the
      comparator does not put after `x`, and before the suffix it does. */
  lemma {:induction false} InsertSplit<T>(x: T, s: seq<T>, j: nat, key: T -> int, desc: bool)
    requires j <= |s|
    requires forall k :: j <= k < |s| ==> Compare(s[k], x, key, desc) > 0
    requires j == 0 || Compare(s[j - 1], x, key, desc) <= 0
    ensures Insert(x, s, key, desc) == s[..j] + [x] + s[j..]
    decreases |s|
  {
    if j < |s| {
      var init := s[..|s| - 1];
      assert init[..j] == s[..j];
      InsertSplit(x, init, j, key, desc);
      assert s[j..] == init[j..] + [s[|s| - 1]];
    }
  }

  /** One step of the insertion sort: moves `a[i]` left past every element of
      the prefix `a[..i]` that the comparator puts after it. */
  method InsertInPlace<T>(a: array<T>, i: nat, key: T -> int, desc: bool)
    requires i < a.Length
    modifies a
    ensures a[..i + 1] == Insert(old(a[i]), old(a[..i]), key, desc)
    ensures a[i + 1..] == old(a[i + 1..])
  {
    ghost var sorted := a[..i];
    var x := a[i];
    var j := i;
    while j > 0 && Compare(a[j - 1], x, key, desc) > 0
      invariant 0 <= j <= i
      invariant forall k :: 0 <= k < j ==> a[k] == sorted[k]
      invariant forall k :: j < k <= i ==> a[k] == sorted[k - 1]
      invariant forall k :: j <= k < i ==> Compare(sorted[k], x, key, desc) > 0
      invariant a[i + 1..] == old(a[i + 1..])
    {
      a[j] := a[j - 1];
      j := j - 1;
    }
    a[j] := x;
    InsertSplit(x, sorted, j, key, desc);
    assert a[..i + 1] == sorted[..j] + [x] + sorted[j..];
  }

  /** `a.sort(comparator)` in place, as an insertion sort. */
  method SortInPlace<T>(a: array<T>, key: T -> int, desc: bool)
    modifies a
    ensures a[..] == StableSort(old(a[..]), key, desc)
  {
    ghost var input := a[..];
    var i := 0;
    while i < a.Length
      invariant 0 <= i <= a.Length
      invariant a[..i] == StableSort(input[..i], key, desc)
      invariant a[i..] == input[i..]
    {
      assert a[i] == input[i];
      InsertInPlace(a, i, key, desc);
      assert input[..i + 1][..i] == input[..i];
      i := i + 1;
    }
    assert input[..a.Length] == input;
  }
}

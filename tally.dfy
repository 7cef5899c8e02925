/**
 * A `Record<string, number>` of counters, as the platform counts are built
 * and read: an object whose entries keep the order in which their keys were
 * first added, each key at most once.
 */
module Tally {
  import opened AdModel

  datatype Entry = Entry(key: string, count: int)

  type Counts = seq<Entry>

  /** The keys, in insertion order (`Object.keys`). */
  function Keys(c: Counts): seq<string> {
    if c == [] then [] else [c[0].key] + Keys(c[1..])
  }

  /** No key occurs twice, as in a JavaScript object. */
  predicate DistinctKeys(c: Counts) {
    c == [] || (c[0].key !in Keys(c[1..]) && DistinctKeys(c[1..]))
  }

  /** `c[k]`: the count stored under `k`, if any. */
  function Lookup(c: Counts, k: string): Option<int> {
    if c == [] then None
    else if c[0].key == k then Some(c[0].count)
    else Lookup(c[1..], k)
  }

  /** A key has a count exactly when it is one of the keys, and the count is
      that of its entry. */
  lemma {:induction false} LookupSpec(c: Counts, k: string)
    ensures Lookup(c, k).None? <==> k !in Keys(c)
    ensures Lookup(c, k).Some? ==> Entry(k, Lookup(c, k).value) in c
  {
    if c != [] && c[0].key != k {
      LookupSpec(c[1..], k);
    }
  }

  /** `c[k] || 0`: the stored count, or 0 when `k` has none. */
  function CountOr0(c: Counts, k: string): int {
    match Lookup(c, k)
    case Some(n) => n
    case None => 0
  }

  /** `Object.values(c).reduce((sum, count) => sum + count, 0)`. */
  function Total(c: Counts): int {
    if c == [] then 0 else c[0].count + Total(c[1..])
  }

  /** `c[k] = (c[k] || 0) + 1`: the count under `k` gains one and every other
      key keeps its count. */
  function Bump(c: Counts, k: string): (r: Counts)
    ensures Lookup(r, k) == Some(CountOr0(c, k) + 1)
    ensures forall k' :: k' != k ==> Lookup(r, k') == Lookup(c, k')
  {
    if c == [] then [Entry(k, 1)]
    else if c[0].key == k then [Entry(k, c[0].count + 1)] + c[1..]
    else [c[0]] + Bump(c[1..], k)
  }

  /** Bumping `a` adds one to the count under `a` and leaves every other
      key's count alone. */
  lemma LookupBump(c: Counts, a: string, b: string, n: int)
    requires Lookup(c, b) == Some(n)
    ensures Lookup(Bump(c, a), b) == Some(if a == b then n + 1 else n)
  {
  }

  /** An existing key keeps its place, a new key is added last. */
  lemma {:induction false} BumpKeys(c: Counts, k: string)
    ensures Keys(Bump(c, k)) == if k in Keys(c) then Keys(c) else Keys(c) + [k]
  {
    if c != [] && c[0].key != k {
      BumpKeys(c[1..], k);
      assert Keys(c) == [c[0].key] + Keys(c[1..]);
      assert Keys(Bump(c, k)) == [c[0].key] + Keys(Bump(c[1..], k));
    } else if c != [] {
      assert Keys(Bump(c, k)) == [k] + Keys(c[1..]);
      assert Keys(c) == [k] + Keys(c[1..]);
    }
  }

  /** The total grows by exactly one. */
  lemma {:induction false} BumpTotal(c: Counts, k: string)
    ensures Total(Bump(c, k)) == Total(c) + 1
  {
    if c != [] && c[0].key != k {
      BumpTotal(c[1..], k);
      assert Bump(c, k)[1..] == Bump(c[1..], k);
    } else if c != [] {
      assert Bump(c, k)[1..] == c[1..];
    }
  }

  /** Keys stay distinct. */
  lemma {:induction false} BumpDistinct(c: Counts, k: string)
    requires DistinctKeys(c)
    ensures DistinctKeys(Bump(c, k))
  {
    if c != [] && c[0].key != k {
      BumpDistinct(c[1..], k);
      BumpKeys(c[1..], k);
    }
  }
}

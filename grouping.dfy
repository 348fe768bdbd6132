/**
 * `GroupBy(key)` followed by per-group aggregates (`Count`, `Sum`, `Max`), and the
 * fact that the groups partition the input, so per-group sums add up to the total.
 */
module Grouping {

  /** The distinct keys of `s`, in order of first occurrence: one per group of `GroupBy(key)`. */
  function Keys<T(!new), K(==)>(s: seq<T>, key: T -> K): (r: seq<K>)
    decreases |s|
    ensures forall i, j :: 0 <= i < j < |r| ==> r[i] != r[j]
    ensures forall x :: x in s ==> key(x) in r
    ensures forall k :: k in r ==> exists x :: x in s && key(x) == k
  {
    if s == [] then []
    else
      var init := Keys(s[..|s| - 1], key);
      var last := key(s[|s| - 1]);
      assert s == s[..|s| - 1] + [s[|s| - 1]];
      if last in init then init else init + [last]
  }

  /** `Sum(w)` over the whole sequence. */
  function Total<T>(s: seq<T>, w: T -> int): int
    decreases |s|
  {
    if s == [] then 0 else Total(s[..|s| - 1], w) + w(s[|s| - 1])
  }

  /** The weight of `Count()`: every element counts once. */
  function One<T>(x: T): int { 1 }

  /** `Count()` over the whole sequence is its length. */
  lemma {:induction false} CountIsLength<T>(s: seq<T>)
    decreases |s|
    ensures Total(s, One) == |s|
  {
    if s != [] {
      CountIsLength(s[..|s| - 1]);
    }
  }

  /** `Sum(w)` over the group of key `k`. */
  function SumWhere<T, K(==)>(s: seq<T>, key: T -> K, k: K, w: T -> int): int
    decreases |s|
  {
    if s == [] then 0
    else SumWhere(s[..|s| - 1], key, k, w) + (if key(s[|s| - 1]) == k then w(s[|s| - 1]) else 0)
  }

  /** The per-group sums of the groups `ks`, added up. */
  function SumOverKeys<T, K(==)>(s: seq<T>, key: T -> K, ks: seq<K>, w: T -> int): int
    decreases |ks|
  {
    if ks == [] then 0 else SumOverKeys(s, key, ks[..|ks| - 1], w) + SumWhere(s, key, ks[|ks| - 1], w)
  }

  /** `Max(f)` over the group of key `k`, which must not be empty. */
  function MaxWhere<T(==, !new), K(==)>(s: seq<T>, key: T -> K, k: K, f: T -> int): (m: int)
    requires exists x :: x in s && key(x) == k
    decreases |s|
    ensures exists x :: x in s && key(x) == k && f(x) == m
    ensures forall x :: x in s && key(x) == k ==> f(x) <= m
  {
    var init, last := s[..|s| - 1], s[|s| - 1];
    assert s == init + [last];
    if exists x :: x in init && key(x) == k then
      var m := MaxWhere(init, key, k, f);
      if key(last) == k && f(last) > m then f(last) else m
    else
      f(last)
  }

  predicate Distinct<K(==)>(ks: seq<K>) {
    forall i, j :: 0 <= i < j < |ks| ==> ks[i] != ks[j]
  }

  lemma {:induction false} SumOverKeysOfEmpty<T, K>(key: T -> K, ks: seq<K>, w: T -> int)
    decreases |ks|
    ensures SumOverKeys([], key, ks, w) == 0
  {
    if ks != [] {
      SumOverKeysOfEmpty(key, ks[..|ks| - 1], w);
    }
  }

  /** One more element adds its weight to exactly one of the distinct groups `ks`, if any. */
  lemma {:induction false} SumOverKeysAppend<T, K>(s: seq<T>, x: T, key: T -> K, ks: seq<K>, w: T -> int)
    requires Distinct(ks)
    decreases |ks|
    ensures SumOverKeys(s + [x], key, ks, w)
         == SumOverKeys(s, key, ks, w) + (if key(x) in ks then w(x) else 0)
  {
    assert (s + [x])[..|s|] == s;
    if ks != [] {
      var init := ks[..|ks| - 1];
      SumOverKeysAppend(s, x, key, init, w);
      assert ks == init + [ks[|ks| - 1]];
    }
  }

  /** Distinct groups that cover every element partition the sequence: their sums add up to the total. */
  lemma {:induction false} GroupSumsAddUp<T, K>(s: seq<T>, key: T -> K, ks: seq<K>, w: T -> int)
    requires Distinct(ks)
    requires forall i :: 0 <= i < |s| ==> key(s[i]) in ks
    decreases |s|
    ensures SumOverKeys(s, key, ks, w) == Total(s, w)
  {
    if s == [] {
      SumOverKeysOfEmpty(key, ks, w);
    } else {
      var init, last := s[..|s| - 1], s[|s| - 1];
      GroupSumsAddUp(init, key, ks, w);
      SumOverKeysAppend(init, last, key, ks, w);
      assert s == init + [last];
    }
  }

  /** The groups of `GroupBy(key)` partition the sequence. */
  lemma GroupsPartition<T(!new), K>(s: seq<T>, key: T -> K, w: T -> int)
    ensures SumOverKeys(s, key, Keys(s, key), w) == Total(s, w)
  {
    GroupSumsAddUp(s, key, Keys(s, key), w);
  }
}

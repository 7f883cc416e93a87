/**
 * Python's `list.sort(key=..., reverse=True)`: a stable sort that puts
 * larger keys first and keeps the original order among equal keys.
 */
module Sorting {
  import opened Strings

  /** `less` is a strict total order on keys. */
  ghost predicate StrictTotal<K(!new)>(less: (K, K) -> bool) {
    && (forall a :: !less(a, a))
    && (forall a, b, c :: less(a, b) && less(b, c) ==> less(a, c))
    && (forall a, b :: a == b || less(a, b) || less(b, a))
  }

  /** Larger keys first: no element is followed by one with a larger key. */
  ghost predicate SortedDesc<T, K>(r: seq<T>, key: T -> K, less: (K, K) -> bool) {
    forall i, j :: 0 <= i < j < |r| ==> !less(key(r[i]), key(r[j]))
  }

  /** The elements whose key is `k`, in order. */
  function WithKey<T, K(==)>(r: seq<T>, key: T -> K, k: K): (s: seq<T>)
    ensures |s| <= |r|
    decreases |r|
  {
    if r == [] then []
    else WithKey(r[..|r| - 1], key, k) + (if key(r[|r| - 1]) == k then [r[|r| - 1]] else [])
  }

  /** Put `x` after every element whose key is at least its own. */
  function Insert<T, K>(x: T, ys: seq<T>, key: T -> K, less: (K, K) -> bool): (r: seq<T>)
    ensures |r| == |ys| + 1
  {
    if ys == [] then [x]
    else if less(key(ys[0]), key(x)) then [x] + ys
    else [ys[0]] + Insert(x, ys[1..], key, less)
  }

  /** The sort, inserting the elements left to right. */
  function SortDesc<T, K>(xs: seq<T>, key: T -> K, less: (K, K) -> bool): (r: seq<T>)
    ensures |r| == |xs|
    decreases |xs|
  {
    if xs == [] then [] else Insert(xs[|xs| - 1], SortDesc(xs[..|xs| - 1], key, less), key, less)
  }

  lemma {:induction false} InsertPerm<T, K>(x: T, ys: seq<T>, key: T -> K, less: (K, K) -> bool)
    ensures multiset(Insert(x, ys, key, less)) == multiset(ys) + multiset{x}
  {
    if ys != [] && !less(key(ys[0]), key(x)) {
      InsertPerm(x, ys[1..], key, less);
      assert ys == [ys[0]] + ys[1..];
    }
  }

  /** The sort returns the same elements. */
  lemma {:induction false} SortDescPerm<T, K>(xs: seq<T>, key: T -> K, less: (K, K) -> bool)
    ensures multiset(SortDesc(xs, key, less)) == multiset(xs)
    decreases |xs|
  {
    if xs != [] {
      var init := xs[..|xs| - 1];
      SortDescPerm(init, key, less);
      InsertPerm(xs[|xs| - 1], SortDesc(init, key, less), key, less);
      assert xs == init + [xs[|xs| - 1]];
    }
  }

  lemma {:induction false} InsertSorted<T, K(!new)>(x: T, ys: seq<T>, key: T -> K, less: (K, K) -> bool)
    requires StrictTotal(less) && SortedDesc(ys, key, less)
    ensures SortedDesc(Insert(x, ys, key, less), key, less)
  {
    var r := Insert(x, ys, key, less);
    if ys == [] {
    } else if less(key(ys[0]), key(x)) {
      forall i, j | 0 <= i < j < |r| ensures !less(key(r[i]), key(r[j])) {
        if i == 0 {
          assert r[j] == ys[j - 1];
          if j > 1 {
            assert !less(key(ys[0]), key(ys[j - 1]));
          }
        } else {
          assert r[i] == ys[i - 1] && r[j] == ys[j - 1];
        }
      }
    } else {
      var rest := Insert(x, ys[1..], key, less);
      InsertSorted(x, ys[1..], key, less);
      InsertPerm(x, ys[1..], key, less);
      assert r == [ys[0]] + rest;
      forall i, j | 0 <= i < j < |r| ensures !less(key(r[i]), key(r[j])) {
        if i == 0 {
          var y := r[j];
          assert y == rest[j - 1];
          assert y in multiset(rest);
          assert y == x || y in multiset(ys[1..]);
          if y != x {
            var m :| 0 <= m < |ys[1..]| && ys[1..][m] == y;
            assert ys[m + 1] == y;
          }
        } else {
          assert r[i] == rest[i - 1] && r[j] == rest[j - 1];
        }
      }
    }
  }

  /** The sort puts larger keys first. */
  lemma {:induction false} SortDescSorted<T, K(!new)>(xs: seq<T>, key: T -> K, less: (K, K) -> bool)
    requires StrictTotal(less)
    ensures SortedDesc(SortDesc(xs, key, less), key, less)
    decreases |xs|
  {
    if xs != [] {
      SortDescSorted(xs[..|xs| - 1], key, less);
      InsertSorted(xs[|xs| - 1], SortDesc(xs[..|xs| - 1], key, less), key, less);
    }
  }

  /**
   * A prefix of a descending list holds its best elements: anything left
   * out has a key no larger than the key of anything kept.
   */
  lemma SortedPrefixTop<T, K>(s: seq<T>, n: nat, key: T -> K, less: (K, K) -> bool)
    requires SortedDesc(s, key, less) && n <= |s|
    ensures forall t, u :: t in s && t !in s[..n] && u in s[..n] ==> !less(key(u), key(t))
  {
    forall t, u | t in s && t !in s[..n] && u in s[..n] ensures !less(key(u), key(t)) {
      var j :| 0 <= j < |s| && s[j] == t;
      var i :| 0 <= i < n && s[..n][i] == u;
      assert forall k :: 0 <= k < n ==> s[..n][k] == s[k];
      assert i < j;
    }
  }

  lemma WithKeyCons<T, K>(y: T, ys: seq<T>, key: T -> K, k: K)
    ensures WithKey([y] + ys, key, k) == (if key(y) == k then [y] else []) + WithKey(ys, key, k)
    decreases |ys|
  {
    if ys != [] {
      var n := |ys| - 1;
      assert ([y] + ys)[..n + 1] == [y] + ys[..n];
      WithKeyCons(y, ys[..n], key, k);
    } else {
      assert ([y] + ys)[..0] == [];
    }
  }

  lemma {:induction false} WithKeyNone<T, K>(ys: seq<T>, key: T -> K, k: K)
    requires forall i :: 0 <= i < |ys| ==> key(ys[i]) != k
    ensures WithKey(ys, key, k) == []
    decreases |ys|
  {
    if ys != [] {
      WithKeyNone(ys[..|ys| - 1], key, k);
    }
  }

  lemma {:induction false} InsertWithKey<T, K(!new)>(x: T, ys: seq<T>, key: T -> K, less: (K, K) -> bool, k: K)
    requires StrictTotal(less) && SortedDesc(ys, key, less)
    ensures WithKey(Insert(x, ys, key, less), key, k)
         == WithKey(ys, key, k) + (if key(x) == k then [x] else [])
  {
    if ys == [] {
      assert [x][..0] == [];
    } else if less(key(ys[0]), key(x)) {
      InsertFrontWithKey(x, ys, key, less, k);
    } else {
      SortedTail(ys, key, less);
      InsertWithKey(x, ys[1..], key, less, k);
      InsertLaterWithKey(x, ys, key, less, k);
    }
  }

  /** `x` goes after the head: the head's share of key `k` comes first, then the rest as before. */
  lemma InsertLaterWithKey<T, K>(x: T, ys: seq<T>, key: T -> K, less: (K, K) -> bool, k: K)
    requires ys != [] && !less(key(ys[0]), key(x))
    requires WithKey(Insert(x, ys[1..], key, less), key, k)
          == WithKey(ys[1..], key, k) + (if key(x) == k then [x] else [])
    ensures WithKey(Insert(x, ys, key, less), key, k)
         == WithKey(ys, key, k) + (if key(x) == k then [x] else [])
  {
    var head := if key(ys[0]) == k then [ys[0]] else [];
    var tail := if key(x) == k then [x] else [];
    assert Insert(x, ys, key, less) == [ys[0]] + Insert(x, ys[1..], key, less);
    WithKeyCons(ys[0], Insert(x, ys[1..], key, less), key, k);
    WithKeyCons(ys[0], ys[1..], key, k);
    HeadTail(ys);
    Associative(head, WithKey(ys[1..], key, k), tail);
  }

  /** `x` goes in front: every later element has a smaller key, so none shares its key. */
  lemma InsertFrontWithKey<T, K(!new)>(x: T, ys: seq<T>, key: T -> K, less: (K, K) -> bool, k: K)
    requires StrictTotal(less) && SortedDesc(ys, key, less)
    requires ys != [] && less(key(ys[0]), key(x))
    ensures WithKey([x] + ys, key, k) == WithKey(ys, key, k) + (if key(x) == k then [x] else [])
  {
    WithKeyCons(x, ys, key, k);
    if key(x) == k {
      forall i | 0 <= i < |ys| ensures key(ys[i]) != k {
        if i > 0 {
          assert !less(key(ys[0]), key(ys[i]));
        }
      }
      WithKeyNone(ys, key, k);
    }
  }

  lemma SortedTail<T, K>(ys: seq<T>, key: T -> K, less: (K, K) -> bool)
    requires ys != [] && SortedDesc(ys, key, less)
    ensures SortedDesc(ys[1..], key, less)
  {
    forall i, j | 0 <= i < j < |ys[1..]| ensures !less(key(ys[1..][i]), key(ys[1..][j])) {
      assert ys[1..][i] == ys[i + 1] && ys[1..][j] == ys[j + 1];
    }
  }

  /** Stability: among elements with the same key, the sort keeps their order. */
  lemma {:induction false} SortDescStable<T, K(!new)>(xs: seq<T>, key: T -> K, less: (K, K) -> bool, k: K)
    requires StrictTotal(less)
    ensures WithKey(SortDesc(xs, key, less), key, k) == WithKey(xs, key, k)
    decreases |xs|
  {
    if xs != [] {
      var init := xs[..|xs| - 1];
      SortDescStable(init, key, less, k);
      SortDescSorted(init, key, less);
      InsertWithKey(xs[|xs| - 1], SortDesc(init, key, less), key, less, k);
    }
  }

  // Key orders

  function IntLess(a: int, b: int): bool {
    a < b
  }

  lemma IntLessTotal()
    ensures StrictTotal(IntLess)
  {
  }

  /** Python's string `<`: lexicographic by code point. */
  predicate StrLess(a: string, b: string)
    decreases |a|
  {
    if a == [] then b != []
    else if b == [] then false
    else if a[0] != b[0] then a[0] < b[0]
    else StrLess(a[1..], b[1..])
  }

  lemma {:induction false} StrLessIrreflexive(a: string)
    ensures !StrLess(a, a)
    decreases |a|
  {
    if a != [] {
      StrLessIrreflexive(a[1..]);
    }
  }

  lemma {:induction false} StrLessTransitive(a: string, b: string, c: string)
    requires StrLess(a, b) && StrLess(b, c)
    ensures StrLess(a, c)
    decreases |a|
  {
    if a != [] && b != [] && c != [] && a[0] == b[0] && b[0] == c[0] {
      StrLessTransitive(a[1..], b[1..], c[1..]);
    }
  }

  lemma {:induction false} StrLessTotal(a: string, b: string)
    ensures a == b || StrLess(a, b) || StrLess(b, a)
    decreases |a|
  {
    if a != [] && b != [] && a[0] == b[0] {
      StrLessTotal(a[1..], b[1..]);
      if a[1..] == b[1..] {
        assert a == [a[0]] + a[1..] && b == [b[0]] + b[1..];
      }
    }
  }

  lemma StrLessStrictTotal()
    ensures StrictTotal((a: string, b: string) => StrLess(a, b))
  {
    var less := (a: string, b: string) => StrLess(a, b);
    forall a: string ensures !less(a, a) {
      StrLessIrreflexive(a);
    }
    forall a: string, b: string, c: string | less(a, b) && less(b, c) ensures less(a, c) {
      StrLessTransitive(a, b, c);
    }
    forall a: string, b: string ensures a == b || less(a, b) || less(b, a) {
      StrLessTotal(a, b);
    }
  }
}

/**
 * Orders used to sort and deduplicate the uninstall plan: the lexicographic order
 * that Rust derives for strings (by character) and for paths (by component), and
 * sorting with deduplication by a key.
 */
module Ordering {

  /** `less` is irreflexive, transitive and total on distinct values. */
  ghost predicate StrictTotalOrder<T(!new)>(less: (T, T) -> bool)
  {
    && (forall a :: !less(a, a))
    && (forall a, b, c :: less(a, b) && less(b, c) ==> less(a, c))
    && (forall a, b :: a != b ==> less(a, b) || less(b, a))
  }

  /**
   * The lexicographic extension of `less`: the first differing position decides, and
   * a proper prefix comes first.
   */
  predicate LexLess<T(==)>(less: (T, T) -> bool, a: seq<T>, b: seq<T>)
    decreases |a|
  {
    if a == [] then b != []
    else if b == [] then false
    else if a[0] == b[0] then LexLess(less, a[1..], b[1..])
    else less(a[0], b[0])
  }

  lemma {:induction false} LexIrreflexive<T(!new)>(less: (T, T) -> bool, a: seq<T>)
    requires StrictTotalOrder(less)
    ensures !LexLess(less, a, a)
    decreases |a|
  {
    if a != [] {
      LexIrreflexive(less, a[1..]);
    }
  }

  lemma {:induction false} LexTransitive<T(!new)>(less: (T, T) -> bool, a: seq<T>, b: seq<T>, c: seq<T>)
    requires StrictTotalOrder(less)
    requires LexLess(less, a, b) && LexLess(less, b, c)
    ensures LexLess(less, a, c)
    decreases |a|
  {
    if a != [] && a[0] == b[0] && b[0] == c[0] {
      LexTransitive(less, a[1..], b[1..], c[1..]);
    }
  }

  lemma {:induction false} LexTotal<T(!new)>(less: (T, T) -> bool, a: seq<T>, b: seq<T>)
    requires StrictTotalOrder(less)
    requires a != b
    ensures LexLess(less, a, b) || LexLess(less, b, a)
    decreases |a|
  {
    if a != [] && b != [] && a[0] == b[0] {
      assert a == [a[0]] + a[1..] && b == [b[0]] + b[1..];
      LexTotal(less, a[1..], b[1..]);
    }
  }

  /** The lexicographic extension of a strict total order is one. */
  lemma LexStrictTotalOrder<T(!new)>(less: (T, T) -> bool, lexLess: (seq<T>, seq<T>) -> bool)
    requires StrictTotalOrder(less)
    requires forall a, b :: lexLess(a, b) == LexLess(less, a, b)
    ensures StrictTotalOrder(lexLess)
  {
    forall a: seq<T> {
      LexIrreflexive(less, a);
    }
    forall a: seq<T>, b: seq<T>, c: seq<T> | LexLess(less, a, b) && LexLess(less, b, c) {
      LexTransitive(less, a, b, c);
    }
    forall a: seq<T>, b: seq<T> | a != b {
      LexTotal(less, a, b);
    }
  }

  /** Characters compare by code point, as Rust compares the bytes of a `str`. */
  function CharLess(a: char, b: char): (r: bool)
    ensures r <==> (a as int) < (b as int)
  {
    a < b
  }

  /** Rust's `Ord` for strings. */
  predicate StrLess(a: string, b: string)
  {
    LexLess(CharLess, a, b)
  }

  /** A path as the sequence of its components. */
  type Path = seq<string>

  /** Rust's `Ord` for paths: component by component. */
  predicate PathLess(a: Path, b: Path)
  {
    LexLess(StrLess, a, b)
  }

  lemma CharLessIsStrictTotalOrder()
    ensures StrictTotalOrder(CharLess)
  {
  }

  /** String order and path order are strict total orders. */
  lemma StrAndPathOrders()
    ensures StrictTotalOrder(StrLess)
    ensures StrictTotalOrder(PathLess)
  {
    CharLessIsStrictTotalOrder();
    LexStrictTotalOrder(CharLess, StrLess);
    LexStrictTotalOrder(StrLess, PathLess);
  }

  /** Every key of `s` is strictly smaller than every later one: sorted, no two keys equal. */
  ghost predicate StrictlySortedBy<T, K>(s: seq<T>, key: T -> K, less: (K, K) -> bool)
  {
    forall i, k :: 0 <= i < k < |s| ==> less(key(s[i]), key(s[k]))
  }

  /** The keys that occur in `s`. */
  ghost function KeySet<T, K>(s: seq<T>, key: T -> K): set<K>
  {
    set x | x in s :: key(x)
  }

  /**
   * Two strictly sorted sequences with the same elements are equal: sorting and
   * deduplicating a collection has exactly one possible result.
   */
  lemma {:induction false} StrictlySortedUnique<T(!new), K(!new)>(a: seq<T>, b: seq<T>, key: T -> K, less: (K, K) -> bool)
    requires StrictTotalOrder(less)
    requires StrictlySortedBy(a, key, less) && StrictlySortedBy(b, key, less)
    requires forall x :: x in a <==> x in b
    ensures a == b
    decreases |a|
  {
    if a != [] {
      assert a[0] in b;
      assert b != [];
      assert b[0] in a;
      var j :| 0 <= j < |b| && b[j] == a[0];
      var i :| 0 <= i < |a| && a[i] == b[0];
      assert a[0] == b[0];
      forall x ensures x in a[1..] <==> x in b[1..] {
        if x in a[1..] {
          var p :| 1 <= p < |a| && a[p] == x;
          assert x != a[0] by { assert less(key(a[0]), key(a[p])); }
          assert x in b;
        }
        if x in b[1..] {
          var q :| 1 <= q < |b| && b[q] == x;
          assert x != b[0] by { assert less(key(b[0]), key(b[q])); }
          assert x in a;
        }
      }
      StrictlySortedUnique(a[1..], b[1..], key, less);
      assert a == [a[0]] + a[1..] && b == [b[0]] + b[1..];
    } else {
      HeadIsMember(b);
    }
  }

  /** The first element of a non-empty sequence is one of its elements. */
  lemma HeadIsMember<T>(s: seq<T>)
    ensures |s| > 0 ==> s[0] in s
  {
  }

  /** Adding one element to a sequence adds its key to the key set. */
  lemma KeySetAdd<T, K>(longer: seq<T>, s: seq<T>, y: T, key: T -> K)
    requires forall x :: x in longer <==> x in s || x == y
    ensures KeySet(longer, key) == KeySet(s, key) + {key(y)}
  {
    assert y in longer;
    forall k | k in KeySet(longer, key) ensures k in KeySet(s, key) + {key(y)} {
      var x :| x in longer && key(x) == k;
    }
    forall k | k in KeySet(s, key) ensures k in KeySet(longer, key) {
      var x :| x in s && key(x) == k;
      assert x in longer;
    }
  }

  /** Placing `y` between the entries with smaller keys and those with larger ones keeps the order. */
  lemma InsertKeepsSorted<T, K(!new)>(s: seq<T>, key: T -> K, less: (K, K) -> bool, j: nat, y: T)
    requires StrictTotalOrder(less)
    requires StrictlySortedBy(s, key, less)
    requires j <= |s|
    requires forall i :: 0 <= i < j ==> less(key(s[i]), key(y))
    requires j < |s| ==> less(key(y), key(s[j]))
    ensures StrictlySortedBy(s[..j] + [y] + s[j..], key, less)
    ensures forall x :: x in s[..j] + [y] + s[j..] <==> x in s || x == y
  {
    var t := s[..j] + [y] + s[j..];
    forall i, k | 0 <= i < k < |t| ensures less(key(t[i]), key(t[k])) {
      InsertPairOrdered(s, key, less, j, y, i, k);
    }
    assert s == s[..j] + s[j..];
  }

  /** One pair of positions of the sequence `InsertKeepsSorted` builds is in order. */
  lemma InsertPairOrdered<T, K(!new)>(s: seq<T>, key: T -> K, less: (K, K) -> bool, j: nat, y: T, i: nat, k: nat)
    requires StrictTotalOrder(less)
    requires StrictlySortedBy(s, key, less)
    requires j <= |s|
    requires forall i :: 0 <= i < j ==> less(key(s[i]), key(y))
    requires j < |s| ==> less(key(y), key(s[j]))
    requires i < k < |s| + 1
    ensures less(key((s[..j] + [y] + s[j..])[i]), key((s[..j] + [y] + s[j..])[k]))
  {
    var t := s[..j] + [y] + s[j..];
    if k < j {
      assert t[i] == s[i] && t[k] == s[k];
    } else if k == j {
      assert t[i] == s[i] && t[k] == y;
    } else {
      assert t[k] == s[k - 1];
      // Everything at or before position j sorts at most as high as y, and y before s[j].
      var below := if i < j then s[i] else if i == j then y else s[i - 1];
      assert t[i] == below;
      if i > j {
        assert less(key(s[i - 1]), key(s[k - 1]));
      } else {
        assert less(key(y), key(s[j]));
        assert k - 1 == j || less(key(s[j]), key(s[k - 1]));
        assert less(key(y), key(s[k - 1]));
      }
    }
  }

  /**
   * The position at which an item with key `k` belongs in `sorted`: the first entry
   * whose key is not smaller than `k`.
   */
  method FindSlot<T, K>(sorted: seq<T>, key: T -> K, less: (K, K) -> bool, k: K) returns (j: nat)
    ensures j <= |sorted|
    ensures forall i :: 0 <= i < j ==> less(key(sorted[i]), k)
    ensures j < |sorted| ==> !less(key(sorted[j]), k)
  {
    j := 0;
    while j < |sorted| && less(key(sorted[j]), k)
      invariant j <= |sorted|
      invariant forall i :: 0 <= i < j ==> less(key(sorted[i]), k)
    {
      j := j + 1;
    }
  }

  /**
   * Sorts `items` by key and keeps one item per key (`sort_unstable_by_key` followed
   * by `dedup_by_key`). Of items sharing a key the first one met is kept.
   */
  method SortDedupBy<T(!new), K(==,!new)>(items: seq<T>, key: T -> K, less: (K, K) -> bool) returns (r: seq<T>)
    requires StrictTotalOrder(less)
    ensures StrictlySortedBy(r, key, less)
    ensures forall x :: x in r ==> x in items
    ensures KeySet(r, key) == KeySet(items, key)
    ensures |r| <= |items|
  {
    r := [];
    var n := 0;
    while n < |items|
      invariant n <= |items|
      invariant StrictlySortedBy(r, key, less)
      invariant forall x :: x in r ==> x in items[..n]
      invariant KeySet(r, key) == KeySet(items[..n], key)
      invariant |r| <= n
    {
      var item := items[n];
      assert items[..n + 1] == items[..n] + [item];
      KeySetAdd(items[..n + 1], items[..n], item, key);
      var j := FindSlot(r, key, less, key(item));
      if j < |r| && key(r[j]) == key(item) {
        assert r[j] in r;
      } else {
        InsertKeepsSorted(r, key, less, j, item);
        KeySetAdd(r[..j] + [item] + r[j..], r, item, key);
        r := r[..j] + [item] + r[j..];
      }
      n := n + 1;
    }
    assert items[..n] == items;
  }
}

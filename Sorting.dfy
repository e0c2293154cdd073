/**
 * `[...items].sort((a, b) => key(b) - key(a))` on a copy: JavaScript's
 * `Array.prototype.sort` is stable, so with this comparator it orders by
 * `key` descending and keeps the input order among items of equal key.
 * The model is an insertion sort on sequences; the lemmas say the result
 * is ordered, is a permutation of the input, is stable, and is the only
 * sequence with those three properties.
 */
module Sorting {

  /** `key` never increases along `s`. */
  ghost predicate SortedDesc<T>(s: seq<T>, key: T -> int) {
    forall i, j :: 0 <= i < j < |s| ==> key(s[i]) >= key(s[j])
  }

  /** The items of `s` whose key is `k`, in their order in `s`. */
  function WithKey<T>(s: seq<T>, key: T -> int, k: int): seq<T> {
    if s == [] then []
    else (if key(s[0]) == k then [s[0]] else []) + WithKey(s[1..], key, k)
  }

  /** Put `x` after every item whose key is at least `key(x)`. */
  function Insert<T>(s: seq<T>, x: T, key: T -> int): seq<T> {
    if s == [] then [x]
    else if key(s[0]) < key(x) then [x] + s
    else [s[0]] + Insert(s[1..], x, key)
  }

  /** The stable sort by `key`, largest first. */
  function SortDesc<T>(s: seq<T>, key: T -> int): seq<T> {
    if s == [] then []
    else Insert(SortDesc(s[..|s| - 1], key), s[|s| - 1], key)
  }

  // ---------------------------------------------------------------------
  // WithKey

  lemma {:induction false} WithKeyAppend<T>(a: seq<T>, b: seq<T>, key: T -> int, k: int)
    ensures WithKey(a + b, key, k) == WithKey(a, key, k) + WithKey(b, key, k)
  {
    if a == [] {
      assert a + b == b;
    } else {
      var c := a + b;
      var head := if key(a[0]) == k then [a[0]] else [];
      assert c != [] && c[0] == a[0];
      assert c[1..] == a[1..] + b;
      assert WithKey(c, key, k) == head + WithKey(c[1..], key, k);
      WithKeyAppend(a[1..], b, key, k);
      assert WithKey(a, key, k) == head + WithKey(a[1..], key, k);
    }
  }

  /** No item of `s` has a key as large as `k`, so none has key `k`. */
  lemma {:induction false} WithKeyNone<T>(s: seq<T>, key: T -> int, k: int)
    requires forall i :: 0 <= i < |s| ==> key(s[i]) < k
    ensures WithKey(s, key, k) == []
  {
    if s != [] {
      WithKeyNone(s[1..], key, k);
    }
  }

  // ---------------------------------------------------------------------
  // Insert

  lemma {:induction false} InsertMultiset<T>(s: seq<T>, x: T, key: T -> int)
    ensures multiset(Insert(s, x, key)) == multiset(s) + multiset{x}
  {
    if s != [] && key(s[0]) >= key(x) {
      InsertMultiset(s[1..], x, key);
      assert s == [s[0]] + s[1..];
    }
  }

  /** Every item of `Insert(s, x)` is `x` or an item of `s`, and it is one longer. */
  lemma InsertItems<T>(s: seq<T>, x: T, key: T -> int)
    ensures |Insert(s, x, key)| == |s| + 1
    ensures forall y :: y in Insert(s, x, key) ==> y == x || y in s
  {
    InsertMultiset(s, x, key);
    assert |multiset(Insert(s, x, key))| == |multiset(s)| + 1;
    forall y | y in Insert(s, x, key) ensures y == x || y in s {
      assert y in multiset(Insert(s, x, key));
    }
  }

  lemma {:induction false} InsertSorted<T>(s: seq<T>, x: T, key: T -> int)
    requires SortedDesc(s, key)
    ensures SortedDesc(Insert(s, x, key), key)
  {
    if s != [] && key(s[0]) >= key(x) {
      var rest := s[1..];
      InsertSorted(rest, x, key);
      var t := Insert(rest, x, key);
      InsertItems(rest, x, key);
      forall j | 0 <= j < |t| ensures key(s[0]) >= key(t[j]) {
        assert t[j] in t;
        if t[j] != x {
          var m :| 0 <= m < |rest| && rest[m] == t[j];
          assert s[m + 1] == t[j];
        }
      }
    }
  }

  /** Inserting into a sorted sequence adds `x` after the items of equal key. */
  lemma {:induction false} InsertWithKey<T>(s: seq<T>, x: T, key: T -> int, k: int)
    requires SortedDesc(s, key)
    ensures WithKey(Insert(s, x, key), key, k) == WithKey(s, key, k) + (if key(x) == k then [x] else [])
  {
    if s == [] {
    } else if key(s[0]) < key(x) {
      InsertWithKeyFront(s, x, key, k);
    } else {
      SortedRest(s, key);
      InsertWithKey(s[1..], x, key, k);
      var t := Insert(s[1..], x, key);
      assert Insert(s, x, key) == [s[0]] + t;
      assert ([s[0]] + t)[0] == s[0] && ([s[0]] + t)[1..] == t;
      assert WithKey([s[0]] + t, key, k) == (if key(s[0]) == k then [s[0]] else []) + WithKey(t, key, k);
    }
  }

  /** `x` goes in front of a sorted sequence whose keys are all smaller. */
  lemma InsertWithKeyFront<T>(s: seq<T>, x: T, key: T -> int, k: int)
    requires SortedDesc(s, key) && s != [] && key(s[0]) < key(x)
    ensures WithKey(Insert(s, x, key), key, k) == WithKey(s, key, k) + (if key(x) == k then [x] else [])
  {
    assert Insert(s, x, key) == [x] + s;
    assert ([x] + s)[0] == x && ([x] + s)[1..] == s;
    assert WithKey([x] + s, key, k) == (if key(x) == k then [x] else []) + WithKey(s, key, k);
    if key(x) == k {
      forall i | 0 <= i < |s| ensures key(s[i]) < key(x) {
        if i > 0 {
          assert key(s[0]) >= key(s[i]);
        }
      }
      WithKeyNone(s, key, k);
    }
  }

  // ---------------------------------------------------------------------
  // SortDesc

  /** The largest key comes first, and so on down. */
  lemma {:induction false} SortDescSorted<T>(s: seq<T>, key: T -> int)
    ensures SortedDesc(SortDesc(s, key), key)
  {
    if s != [] {
      SortDescSorted(s[..|s| - 1], key);
      InsertSorted(SortDesc(s[..|s| - 1], key), s[|s| - 1], key);
    }
  }

  /** The result is a permutation of the input. */
  lemma {:induction false} SortDescPermutes<T>(s: seq<T>, key: T -> int)
    ensures multiset(SortDesc(s, key)) == multiset(s)
  {
    if s != [] {
      var init := s[..|s| - 1];
      SortDescPermutes(init, key);
      InsertMultiset(SortDesc(init, key), s[|s| - 1], key);
      assert s == init + [s[|s| - 1]];
    }
  }

  /** Stability: the items of each key keep their input order. */
  lemma {:induction false} SortDescStable<T>(s: seq<T>, key: T -> int, k: int)
    ensures WithKey(SortDesc(s, key), key, k) == WithKey(s, key, k)
  {
    if s != [] {
      var init := s[..|s| - 1];
      var last := s[|s| - 1];
      var sorted := SortDesc(init, key);
      var tail := if key(last) == k then [last] else [];
      assert SortDesc(s, key) == Insert(sorted, last, key);
      SortDescStable(init, key, k);
      SortDescSorted(init, key);
      InsertWithKey(sorted, last, key, k);
      assert WithKey(SortDesc(s, key), key, k) == WithKey(init, key, k) + tail;
      assert s == init + [last];
      WithKeyAppend(init, [last], key, k);
      assert WithKey([last], key, k) == tail;
    }
  }

  // ---------------------------------------------------------------------
  // uniqueness: every stable sort gives the same sequence

  /** `WithKey` picks items of `s` with key `k` only. */
  lemma {:induction false} WithKeyItems<T>(s: seq<T>, key: T -> int, k: int)
    ensures forall y :: y in WithKey(s, key, k) ==> y in s && key(y) == k
  {
    if s != [] {
      WithKeyItems(s[1..], key, k);
    }
  }

  /** The first item of a sorted sequence carries the largest key. */
  lemma FirstKeyIsLargest<T>(s: seq<T>, key: T -> int, y: T)
    requires SortedDesc(s, key) && y in s
    ensures key(s[0]) >= key(y)
  {
    var i :| 0 <= i < |s| && s[i] == y;
    if i > 0 {
      assert key(s[0]) >= key(s[i]);
    }
  }

  /** Two sorted sequences with the same items per key start with the same item. */
  lemma SameHead<T>(a: seq<T>, b: seq<T>, key: T -> int)
    requires a != [] && b != [] && SortedDesc(a, key) && SortedDesc(b, key)
    requires forall k :: WithKey(a, key, k) == WithKey(b, key, k)
    ensures a[0] == b[0]
  {
    var ka, kb := key(a[0]), key(b[0]);
    assert a[0] in WithKey(a, key, ka);
    assert b[0] in WithKey(b, key, kb);
    WithKeyItems(a, key, kb);
    WithKeyItems(b, key, ka);
    assert WithKey(a, key, kb) == WithKey(b, key, kb);
    assert WithKey(a, key, ka) == WithKey(b, key, ka);
    FirstKeyIsLargest(a, key, b[0]);
    FirstKeyIsLargest(b, key, a[0]);
    assert ka == kb;
    assert WithKey(a, key, ka)[0] == a[0];
    assert WithKey(b, key, ka)[0] == b[0];
  }

  /** A non-empty sequence has an item of its first item's key. */
  lemma HeadKeyPresent<T>(s: seq<T>, key: T -> int)
    requires s != []
    ensures WithKey(s, key, key(s[0])) != []
  {
  }

  /** Two sorted sequences with the same items per key are equal. */
  lemma {:induction false} SortedUnique<T>(a: seq<T>, b: seq<T>, key: T -> int)
    requires SortedDesc(a, key) && SortedDesc(b, key)
    requires forall k :: WithKey(a, key, k) == WithKey(b, key, k)
    ensures a == b
    decreases |a|
  {
    if a == [] && b != [] {
      HeadKeyPresent(b, key);
      assert false;
    } else if a != [] && b == [] {
      HeadKeyPresent(a, key);
      assert false;
    } else if a != [] {
      SameHead(a, b, key);
      SortedRest(a, key);
      SortedRest(b, key);
      var ka := key(a[0]);
      forall k ensures WithKey(a[1..], key, k) == WithKey(b[1..], key, k) {
        assert WithKey(a, key, k) == WithKey(b, key, k);
        assert WithKey(a, key, k) == (if ka == k then [a[0]] else []) + WithKey(a[1..], key, k);
        assert WithKey(b, key, k) == (if ka == k then [b[0]] else []) + WithKey(b[1..], key, k);
        var pre := if ka == k then [a[0]] else [];
        assert (pre + WithKey(a[1..], key, k))[|pre|..] == WithKey(a[1..], key, k);
        assert (pre + WithKey(b[1..], key, k))[|pre|..] == WithKey(b[1..], key, k);
      }
      SortedUnique(a[1..], b[1..], key);
      assert a == [a[0]] + a[1..] && b == [b[0]] + b[1..];
    }
  }

  lemma SortedRest<T>(s: seq<T>, key: T -> int)
    requires s != [] && SortedDesc(s, key)
    ensures SortedDesc(s[1..], key)
  {
    forall i, j | 0 <= i < j < |s| - 1 ensures key(s[1..][i]) >= key(s[1..][j]) {
      assert s[1..][i] == s[i + 1] && s[1..][j] == s[j + 1];
    }
  }

  /**
   * Any sequence that is sorted by `key` and keeps the input order within
   * each key is `SortDesc`: the stable sort's output is fully determined.
   */
  lemma StableSortIsUnique<T>(s: seq<T>, out: seq<T>, key: T -> int)
    requires SortedDesc(out, key)
    requires forall k :: WithKey(out, key, k) == WithKey(s, key, k)
    ensures out == SortDesc(s, key)
  {
    SortDescSorted(s, key);
    forall k ensures WithKey(out, key, k) == WithKey(SortDesc(s, key), key, k) {
      SortDescStable(s, key, k);
    }
    SortedUnique(out, SortDesc(s, key), key);
  }
}

/**
 * A model of Rust's `slice::sort_by_key`: a stable sort by an integer key.
 * Stability is stated per key: the records sharing a key keep their order.
 */
module StableSort {

  /** `s` is in ascending order of `key`. */
  ghost predicate SortedBy<T>(s: seq<T>, key: T -> int)
  {
    forall i, j :: 0 <= i < j < |s| ==> key(s[i]) <= key(s[j])
  }

  /** The elements of `s` whose key is `k`, in their order in `s`. */
  function WithKey<T>(s: seq<T>, key: T -> int, k: int): seq<T>
  {
    if s == [] then [] else (if key(s[0]) == k then [s[0]] else []) + WithKey(s[1..], key, k)
  }

  lemma {:induction false} WithKeyAppend<T>(a: seq<T>, b: seq<T>, key: T -> int, k: int)
    ensures WithKey(a + b, key, k) == WithKey(a, key, k) + WithKey(b, key, k)
  {
    if a == [] {
      assert a + b == b;
    } else {
      WithKeyAppend(a[1..], b, key, k);
      assert (a + b)[1..] == a[1..] + b;
    }
  }

  lemma {:induction false} WithKeyAbsent<T>(s: seq<T>, key: T -> int, k: int)
    requires forall i :: 0 <= i < |s| ==> key(s[i]) != k
    ensures WithKey(s, key, k) == []
  {
    if s != [] {
      WithKeyAbsent(s[1..], key, k);
    }
  }

  /** Places `x` after every element of `s`, up to the first whose key exceeds `key(x)`. */
  function Insert<T>(s: seq<T>, x: T, key: T -> int): seq<T>
  {
    if s == [] || key(x) < key(s[0]) then [x] + s else [s[0]] + Insert(s[1..], x, key)
  }

  lemma {:induction false} InsertBounds<T>(s: seq<T>, x: T, key: T -> int, lo: int)
    requires forall i :: 0 <= i < |s| ==> lo <= key(s[i])
    requires lo <= key(x)
    ensures |Insert(s, x, key)| == |s| + 1
    ensures forall i :: 0 <= i < |s| + 1 ==> lo <= key(Insert(s, x, key)[i])
  {
    if s != [] && key(s[0]) <= key(x) {
      InsertBounds(s[1..], x, key, lo);
    }
  }

  /** Inserting into a sorted sequence keeps it sorted. */
  lemma {:induction false} InsertSorted<T>(s: seq<T>, x: T, key: T -> int)
    requires SortedBy(s, key)
    ensures SortedBy(Insert(s, x, key), key)
  {
    if s != [] && key(s[0]) <= key(x) {
      var rest := Insert(s[1..], x, key);
      InsertSorted(s[1..], x, key);
      InsertBounds(s[1..], x, key, key(s[0]));
      var r := [s[0]] + rest;
      assert forall i :: 0 < i < |r| ==> r[i] == rest[i - 1];
    }
  }

  /** Inserting into a sorted sequence puts `x` last among the elements of its key. */
  lemma {:induction false} InsertWithKey<T>(s: seq<T>, x: T, key: T -> int, k: int)
    requires SortedBy(s, key)
    ensures WithKey(Insert(s, x, key), key, k) == WithKey(s, key, k) + (if key(x) == k then [x] else [])
  {
    var r := Insert(s, x, key);
    if s == [] || key(x) < key(s[0]) {
      assert r[0] == x && r[1..] == s;
      if key(x) == k {
        WithKeyAbsent(s, key, k);
      }
    } else {
      InsertWithKey(s[1..], x, key, k);
      assert r[0] == s[0] && r[1..] == Insert(s[1..], x, key);
    }
  }

  lemma {:induction false} InsertMultiset<T>(s: seq<T>, x: T, key: T -> int)
    ensures multiset(Insert(s, x, key)) == multiset(s) + multiset{x}
  {
    if s != [] && key(s[0]) <= key(x) {
      InsertMultiset(s[1..], x, key);
      assert s == [s[0]] + s[1..];
    }
  }

  /**
   * The stable sort: each element in turn is inserted after the elements
   * already placed whose key is not larger. The result is sorted, is a
   * permutation of `s`, and lists the elements of each key in their order in `s`.
   */
  function SortByKey<T>(s: seq<T>, key: T -> int): (r: seq<T>)
    ensures SortedBy(r, key)
    ensures |r| == |s|
    ensures multiset(r) == multiset(s)
    ensures forall k :: WithKey(r, key, k) == WithKey(s, key, k)
  {
    if s == [] then []
    else
      var n := |s| - 1;
      var sorted := SortByKey(s[..n], key);
      var r := Insert(sorted, s[n], key);
      InsertSorted(sorted, s[n], key);
      InsertMultiset(sorted, s[n], key);
      assert s == s[..n] + [s[n]];
      InsertLastWithKey(s, sorted, key);
      assert |r| == |multiset(r)| == |multiset(s)| == |s|;
      r
  }

  lemma InsertLastWithKey<T>(s: seq<T>, sorted: seq<T>, key: T -> int)
    requires s != [] && SortedBy(sorted, key)
    requires forall k :: WithKey(sorted, key, k) == WithKey(s[..|s| - 1], key, k)
    ensures forall k :: WithKey(Insert(sorted, s[|s| - 1], key), key, k) == WithKey(s, key, k)
  {
    forall k ensures WithKey(Insert(sorted, s[|s| - 1], key), key, k) == WithKey(s, key, k) {
      InsertWithKey(sorted, s[|s| - 1], key, k);
      LastWithKey(s, key, k);
    }
  }

  lemma LastWithKey<T>(s: seq<T>, key: T -> int, k: int)
    requires s != []
    ensures WithKey(s, key, k) == WithKey(s[..|s| - 1], key, k) + (if key(s[|s| - 1]) == k then [s[|s| - 1]] else [])
  {
    var n := |s| - 1;
    assert s == s[..n] + [s[n]];
    WithKeyAppend(s[..n], [s[n]], key, k);
    assert [s[n]][1..] == [];
  }

  /**
   * Sortedness and per-key order determine the result: any two sequences that
   * are sorted and agree on the order of every key's elements are equal.
   */
  lemma {:induction false} StableSortIsUnique<T>(a: seq<T>, b: seq<T>, key: T -> int)
    requires SortedBy(a, key) && SortedBy(b, key)
    requires forall k :: WithKey(a, key, k) == WithKey(b, key, k)
    ensures a == b
  {
    FirstKeyPresent(a, key);
    FirstKeyPresent(b, key);
    if a != [] && b != [] {
      HeadsAgree(a, b, key);
      TailsAgree(a, b, key);
      assert SortedBy(a[1..], key) && SortedBy(b[1..], key);
      StableSortIsUnique(a[1..], b[1..], key);
      assert a == [a[0]] + a[1..] && b == [b[0]] + b[1..];
    }
  }

  /** Two such sequences start with the same element: the first of the smallest key. */
  lemma HeadsAgree<T>(a: seq<T>, b: seq<T>, key: T -> int)
    requires SortedBy(a, key) && SortedBy(b, key) && a != [] && b != []
    requires forall k :: WithKey(a, key, k) == WithKey(b, key, k)
    ensures key(a[0]) == key(b[0]) && a[0] == b[0]
  {
    var ka, kb := key(a[0]), key(b[0]);
    // the smallest key of each sequence also occurs in the other
    assert ka == kb by {
      HasKeyIsIn(a, key, ka);
      HasKeyIsIn(b, key, kb);
      WithKeyElements(b, key, ka);
      WithKeyElements(a, key, kb);
    }
    assert WithKey(a, key, ka)[0] == a[0];
    assert WithKey(b, key, kb)[0] == b[0];
  }

  /** Removing the common head leaves sequences that still agree key by key. */
  lemma TailsAgree<T>(a: seq<T>, b: seq<T>, key: T -> int)
    requires a != [] && b != [] && a[0] == b[0]
    requires forall k :: WithKey(a, key, k) == WithKey(b, key, k)
    ensures forall k :: WithKey(a[1..], key, k) == WithKey(b[1..], key, k)
  {
    forall k ensures WithKey(a[1..], key, k) == WithKey(b[1..], key, k) {
      if k == key(a[0]) {
        var wa, wb := WithKey(a[1..], key, k), WithKey(b[1..], key, k);
        assert WithKey(a, key, k) == [a[0]] + wa;
        assert WithKey(b, key, k) == [b[0]] + wb;
        assert ([a[0]] + wa)[1..] == wa && ([b[0]] + wb)[1..] == wb;
      } else {
        assert WithKey(a, key, k) == WithKey(a[1..], key, k);
        assert WithKey(b, key, k) == WithKey(b[1..], key, k);
      }
    }
  }

  lemma FirstKeyPresent<T>(s: seq<T>, key: T -> int)
    ensures s != [] ==> WithKey(s, key, key(s[0])) != []
  {
  }

  lemma {:induction false} HasKeyIsIn<T>(s: seq<T>, key: T -> int, k: int)
    requires exists i :: 0 <= i < |s| && key(s[i]) == k
    ensures WithKey(s, key, k) != []
  {
    if key(s[0]) != k {
      var i :| 0 <= i < |s| && key(s[i]) == k;
      assert s[1..][i - 1] == s[i];
      HasKeyIsIn(s[1..], key, k);
    }
  }

  lemma {:induction false} WithKeyElements<T>(s: seq<T>, key: T -> int, k: int)
    requires SortedBy(s, key) && s != []
    requires WithKey(s, key, k) != []
    ensures key(s[0]) <= k
  {
    if key(s[0]) != k {
      assert WithKey(s, key, k) == WithKey(s[1..], key, k);
      assert |s| > 1;
      assert SortedBy(s[1..], key);
      WithKeyElements(s[1..], key, k);
      assert key(s[0]) <= key(s[1]);
    }
  }
}

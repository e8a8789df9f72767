/**
 * The list operations behind `list_tasks`: keeping the items that pass a
 * test, and Python's stable `sort(key=..., reverse=True)` on string keys,
 * with the properties that make it that sort: the result is ordered, is a
 * permutation, and keeps items with equal keys in their original order.
 */
module Listing {
  import opened Strings

  /** The items that pass `keep`, in order (a list comprehension with a condition). */
  function Keep<T>(xs: seq<T>, keep: T -> bool): (r: seq<T>)
    ensures multiset(r) <= multiset(xs) && |r| <= |xs|
    ensures forall x :: x in r ==> keep(x)
  {
    if xs == [] then []
    else
      assert xs == [xs[0]] + xs[1..];
      (if keep(xs[0]) then [xs[0]] else []) + Keep(xs[1..], keep)
  }

  /** Every item that passes the test is kept. */
  lemma {:induction false} KeepComplete<T>(xs: seq<T>, keep: T -> bool, x: T)
    requires x in xs && keep(x)
    ensures x in Keep(xs, keep)
  {
    if xs[0] != x {
      KeepComplete(xs[1..], keep, x);
    }
  }

  /** One item is kept exactly when it passes. */
  lemma KeepOne<T>(x: T, keep: T -> bool)
    ensures Keep([x], keep) == if keep(x) then [x] else []
  {
    assert [x][1..] == [];
  }

  /** Filtering a concatenation filters each part, in order: with `KeepOne` this fixes the result item by item. */
  lemma {:induction false} KeepAppend<T>(xs: seq<T>, ys: seq<T>, keep: T -> bool)
    ensures Keep(xs + ys, keep) == Keep(xs, keep) + Keep(ys, keep)
  {
    if xs == [] {
      assert xs + ys == ys;
    } else {
      var h := if keep(xs[0]) then [xs[0]] else [];
      assert (xs + ys)[0] == xs[0];
      assert (xs + ys)[1..] == xs[1..] + ys;
      KeepAppend(xs[1..], ys, keep);
      Associative(h, Keep(xs[1..], keep), Keep(ys, keep));
    }
  }

  /** Later items never have a greater key: the order of a descending sort. */
  predicate SortedDesc<T>(xs: seq<T>, key: T -> string)
  {
    forall i, j :: 0 <= i < j < |xs| ==> LexLeq(key(xs[j]), key(xs[i]))
  }

  /** `x` placed after every leading item whose key is at least its own. */
  function Insert<T>(x: T, xs: seq<T>, key: T -> string): (r: seq<T>)
    ensures multiset(r) == multiset(xs) + multiset{x}
    ensures |r| == |xs| + 1
  {
    if xs == [] then [x]
    else if LexLeq(key(x), key(xs[0])) then
      assert xs == [xs[0]] + xs[1..];
      [xs[0]] + Insert(x, xs[1..], key)
    else
      assert xs == [xs[0]] + xs[1..];
      [x] + xs
  }

  /** Sorting by descending key, inserting the items in list order. */
  function SortDesc<T>(xs: seq<T>, key: T -> string): (r: seq<T>)
    ensures multiset(r) == multiset(xs)
    ensures |r| == |xs|
  {
    if xs == [] then []
    else
      assert xs == xs[..|xs| - 1] + [xs[|xs| - 1]];
      Insert(xs[|xs| - 1], SortDesc(xs[..|xs| - 1], key), key)
  }

  /** The tail of a sorted list is sorted. */
  lemma SortedTail<T>(xs: seq<T>, key: T -> string)
    requires SortedDesc(xs, key) && xs != []
    ensures SortedDesc(xs[1..], key)
  {
    forall i, j | 0 <= i < j < |xs[1..]| ensures LexLeq(key(xs[1..][j]), key(xs[1..][i])) {
      assert xs[1..][i] == xs[i + 1] && xs[1..][j] == xs[j + 1];
    }
  }

  /** A prefix of a sorted list is sorted. */
  lemma PrefixSorted<T>(xs: seq<T>, key: T -> string, n: nat)
    requires SortedDesc(xs, key) && n <= |xs|
    ensures SortedDesc(xs[..n], key)
  {
    forall i, j | 0 <= i < j < n ensures LexLeq(key(xs[..n][j]), key(xs[..n][i])) {
      assert xs[..n][i] == xs[i] && xs[..n][j] == xs[j];
    }
  }

  /** When `x` and every item of `xs` have keys at most `bound`, so does every item of the insertion. */
  lemma InsertBounded<T>(x: T, xs: seq<T>, key: T -> string, bound: string)
    requires LexLeq(key(x), bound)
    requires forall i :: 0 <= i < |xs| ==> LexLeq(key(xs[i]), bound)
    ensures forall i :: 0 <= i < |Insert(x, xs, key)| ==> LexLeq(key(Insert(x, xs, key)[i]), bound)
  {
    var r := Insert(x, xs, key);
    forall i | 0 <= i < |r| ensures LexLeq(key(r[i]), bound) {
      assert r[i] in multiset(xs) + multiset{x};
      if r[i] != x {
        assert r[i] in xs;
        var k :| 0 <= k < |xs| && xs[k] == r[i];
      }
    }
  }

  /** Inserting into a sorted list keeps it sorted. */
  lemma {:induction false} InsertSorted<T>(x: T, xs: seq<T>, key: T -> string)
    requires SortedDesc(xs, key)
    ensures SortedDesc(Insert(x, xs, key), key)
  {
    if xs != [] {
      var head := key(xs[0]);
      if LexLeq(key(x), head) {
        SortedTail(xs, key);
        InsertSorted(x, xs[1..], key);
        var rest := Insert(x, xs[1..], key);
        assert forall i :: 0 <= i < |xs[1..]| ==> LexLeq(key(xs[1..][i]), head) by {
          forall i | 0 <= i < |xs[1..]| ensures LexLeq(key(xs[1..][i]), head) {
            assert xs[1..][i] == xs[i + 1];
          }
        }
        InsertBounded(x, xs[1..], key, head);
        var r := [xs[0]] + rest;
        forall i, j | 0 <= i < j < |r| ensures LexLeq(key(r[j]), key(r[i])) {
          assert r[j] == rest[j - 1];
          if i > 0 {
            assert r[i] == rest[i - 1];
          }
        }
      } else {
        LexLeqTotal(key(x), head);
        var r := [x] + xs;
        forall i, j | 0 <= i < j < |r| ensures LexLeq(key(r[j]), key(r[i])) {
          assert r[j] == xs[j - 1];
          if i == 0 {
            if j > 1 {
              LexLeqTransitive(key(xs[j - 1]), head, key(x));
            }
          } else {
            assert r[i] == xs[i - 1];
          }
        }
      }
    }
  }

  /** The sort orders its result by descending key. */
  lemma {:induction false} SortDescSorted<T>(xs: seq<T>, key: T -> string)
    ensures SortedDesc(SortDesc(xs, key), key)
  {
    if xs != [] {
      SortDescSorted(xs[..|xs| - 1], key);
      InsertSorted(xs[|xs| - 1], SortDesc(xs[..|xs| - 1], key), key);
    }
  }

  /** The items of `xs` whose key is `k`, in order. */
  function WithKey<T>(xs: seq<T>, key: T -> string, k: string): (r: seq<T>)
    ensures forall x :: x in r ==> key(x) == k
  {
    if xs == [] then []
    else (if key(xs[0]) == k then [xs[0]] else []) + WithKey(xs[1..], key, k)
  }

  lemma {:induction false} WithKeyAppend<T>(xs: seq<T>, ys: seq<T>, key: T -> string, k: string)
    ensures WithKey(xs + ys, key, k) == WithKey(xs, key, k) + WithKey(ys, key, k)
  {
    if xs == [] {
      assert xs + ys == ys;
    } else {
      var h := if key(xs[0]) == k then [xs[0]] else [];
      assert (xs + ys)[0] == xs[0];
      assert (xs + ys)[1..] == xs[1..] + ys;
      assert WithKey(xs + ys, key, k) == h + WithKey(xs[1..] + ys, key, k);
      WithKeyAppend(xs[1..], ys, key, k);
      assert h + (WithKey(xs[1..], key, k) + WithKey(ys, key, k)) == (h + WithKey(xs[1..], key, k)) + WithKey(ys, key, k);
    }
  }

  /** The items with key `k` of a prefix are a prefix of the items with key `k`. */
  lemma WithKeyPrefix<T>(xs: seq<T>, key: T -> string, k: string, n: nat)
    requires n <= |xs|
    ensures WithKey(xs[..n], key, k) <= WithKey(xs, key, k)
  {
    assert xs[..n] + xs[n..] == xs;
    WithKeyAppend(xs[..n], xs[n..], key, k);
  }

  /** Filtering by a test and picking one key commute: both keep the order of `xs`. */
  lemma {:induction false} WithKeyOfKeep<T>(xs: seq<T>, keep: T -> bool, key: T -> string, k: string)
    ensures WithKey(Keep(xs, keep), key, k) == Keep(WithKey(xs, key, k), keep)
  {
    if xs != [] {
      var x := xs[0];
      var kept := if keep(x) then [x] else [];
      var keyed := if key(x) == k then [x] else [];
      WithKeyAppend(kept, Keep(xs[1..], keep), key, k);
      KeepAppend(keyed, WithKey(xs[1..], key, k), keep);
      WithKeyOfKeep(xs[1..], keep, key, k);
      assert WithKey(kept, key, k) == Keep(keyed, keep) by {
        if keep(x) { WithKeyCons(x, [], key, k); }
        if key(x) == k { KeepOne(x, keep); }
      }
    }
  }

  /** A key above the head of a sorted list belongs to none of its items. */
  lemma {:induction false} WithKeyAboveHead<T>(xs: seq<T>, key: T -> string, k: string)
    requires SortedDesc(xs, key) && xs != []
    requires LexLeq(key(xs[0]), k) && key(xs[0]) != k
    ensures WithKey(xs, key, k) == []
  {
    if |xs| > 1 {
      SortedTail(xs, key);
      assert xs[1..][0] == xs[1];
      LexLeqTransitive(key(xs[1]), key(xs[0]), k);
      if key(xs[1]) == k {
        LexLeqAntisymmetric(key(xs[0]), k);
      }
      WithKeyAboveHead(xs[1..], key, k);
    }
  }

  /** Inserting `x` into a sorted list puts it after every item with its key. */
  lemma {:induction false} InsertStable<T>(x: T, xs: seq<T>, key: T -> string, k: string)
    requires SortedDesc(xs, key)
    ensures WithKey(Insert(x, xs, key), key, k) == WithKey(xs, key, k) + (if key(x) == k then [x] else [])
    decreases |xs|
  {
    var last := if key(x) == k then [x] else [];
    if xs == [] {
      assert WithKey([x], key, k) == last + WithKey([x][1..], key, k);
      assert last + [] == last;
    } else if LexLeq(key(x), key(xs[0])) {
      SortedTail(xs, key);
      InsertStable(x, xs[1..], key, k);
      InsertAfterHead(x, xs, key, k);
    } else {
      InsertBeforeHead(x, xs, key, k);
    }
  }

  /** The step of `InsertStable` where `x` goes past the head. */
  lemma InsertAfterHead<T>(x: T, xs: seq<T>, key: T -> string, k: string)
    requires xs != [] && LexLeq(key(x), key(xs[0]))
    requires WithKey(Insert(x, xs[1..], key), key, k) == WithKey(xs[1..], key, k) + (if key(x) == k then [x] else [])
    ensures WithKey(Insert(x, xs, key), key, k) == WithKey(xs, key, k) + (if key(x) == k then [x] else [])
  {
    var last := if key(x) == k then [x] else [];
    var h := if key(xs[0]) == k then [xs[0]] else [];
    var rest := Insert(x, xs[1..], key);
    var a := WithKey(xs[1..], key, k);
    assert Insert(x, xs, key) == [xs[0]] + rest;
    assert WithKey([xs[0]] + rest, key, k) == h + (a + last) by {
      WithKeyCons(xs[0], rest, key, k);
    }
    assert WithKey(xs, key, k) == h + a by {
      WithKeyCons(xs[0], xs[1..], key, k);
      HeadTail(xs);
    }
    Associative(h, a, last);
  }

  /** A non-empty list is its head followed by its tail. */
  lemma HeadTail<T>(xs: seq<T>)
    requires xs != []
    ensures [xs[0]] + xs[1..] == xs
  {
  }

  /** Concatenation is associative. */
  lemma Associative<T>(a: seq<T>, b: seq<T>, c: seq<T>)
    ensures a + (b + c) == (a + b) + c
  {
  }

  /** The items with key `k` of a list with a given head. */
  lemma WithKeyCons<T>(y: T, ys: seq<T>, key: T -> string, k: string)
    ensures WithKey([y] + ys, key, k) == (if key(y) == k then [y] else []) + WithKey(ys, key, k)
  {
    assert ([y] + ys)[0] == y && ([y] + ys)[1..] == ys;
  }

  /** The step of `InsertStable` where `x` goes first: no item of `xs` has its key. */
  lemma InsertBeforeHead<T>(x: T, xs: seq<T>, key: T -> string, k: string)
    requires SortedDesc(xs, key) && xs != [] && !LexLeq(key(x), key(xs[0]))
    ensures WithKey(Insert(x, xs, key), key, k) == WithKey(xs, key, k) + (if key(x) == k then [x] else [])
  {
    var r := [x] + xs;
    assert r[0] == x && r[1..] == xs;
    if key(x) == k {
      LexLeqTotal(k, key(xs[0]));
      WithKeyAboveHead(xs, key, k);
      assert WithKey(r, key, k) == [x] + [];
    } else {
      assert WithKey(r, key, k) == [] + WithKey(xs, key, k);
      assert WithKey(xs, key, k) + [] == WithKey(xs, key, k);
    }
  }

  /** The sort is stable: the items sharing any one key keep their relative order. */
  lemma {:induction false} SortDescStable<T>(xs: seq<T>, key: T -> string, k: string)
    ensures WithKey(SortDesc(xs, key), key, k) == WithKey(xs, key, k)
  {
    if xs != [] {
      var init := xs[..|xs| - 1];
      var last := xs[|xs| - 1];
      assert init + [last] == xs;
      var tail := if key(last) == k then [last] else [];
      assert SortDesc(xs, key) == Insert(last, SortDesc(init, key), key);
      SortDescSorted(init, key);
      InsertStable(last, SortDesc(init, key), key, k);
      SortDescStable(init, key, k);
      assert WithKey(SortDesc(xs, key), key, k) == WithKey(init, key, k) + tail;
      assert WithKey([last], key, k) == tail by {
        assert [last][1..] == [];
        assert tail + [] == tail;
      }
      WithKeyAppend(init, [last], key, k);
    }
  }
}

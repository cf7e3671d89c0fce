/** Stable sorting by a numeric key, largest first, as JavaScript's (stable)
    `Array.prototype.sort` does with a comparator `(a, b) => key(b) - key(a)`,
    and the "first n" projection taken with `.slice(0, n)`. */
module Ranking {
  import opened Collections

  /** Keys never increase from left to right. */
  ghost predicate NonIncreasing<T>(s: seq<T>, key: T -> int) {
    forall i, j :: 0 <= i < j < |s| ==> key(s[i]) >= key(s[j])
  }

  /** The elements of `s` whose key is `v`, in order. */
  function WithKey<T>(s: seq<T>, key: T -> int, v: int): seq<T> {
    if |s| == 0 then [] else (if key(s[0]) == v then [s[0]] else []) + WithKey(s[1..], key, v)
  }

  /** Insert `x` in front of the first element whose key is not larger than its own. */
  function Insert<T>(x: T, s: seq<T>, key: T -> int): (r: seq<T>)
    ensures |r| == |s| + 1
    ensures r[0] == x || (|s| > 0 && r[0] == s[0])
  {
    if |s| == 0 || key(x) >= key(s[0]) then [x] + s else [s[0]] + Insert(x, s[1..], key)
  }

  /** Insertion sort, largest key first; elements with equal keys keep their input order. */
  function SortDesc<T>(s: seq<T>, key: T -> int): (r: seq<T>)
    ensures |r| == |s|
  {
    if |s| == 0 then [] else Insert(s[0], SortDesc(s[1..], key), key)
  }

  /** The first `n` elements of the sorted sequence. */
  function Top<T>(s: seq<T>, key: T -> int, n: nat): (r: seq<T>)
    ensures |r| == if |s| < n then |s| else n
  {
    var sorted := SortDesc(s, key);
    if |sorted| <= n then sorted else sorted[..n]
  }

  lemma {:induction false} InsertMultiset<T>(x: T, s: seq<T>, key: T -> int)
    ensures multiset(Insert(x, s, key)) == multiset(s) + multiset{x}
  {
    if |s| > 0 && key(x) < key(s[0]) {
      InsertMultiset(x, s[1..], key);
      assert s == [s[0]] + s[1..];
    }
  }

  lemma {:induction false} InsertNonIncreasing<T>(x: T, s: seq<T>, key: T -> int)
    requires NonIncreasing(s, key)
    ensures NonIncreasing(Insert(x, s, key), key)
  {
    if |s| > 0 && key(x) < key(s[0]) {
      assert NonIncreasing(s[1..], key);
      InsertNonIncreasing(x, s[1..], key);
      var t := Insert(x, s[1..], key);
      assert forall k :: 0 <= k < |t| ==> t[k] in multiset(t) by {
        forall k | 0 <= k < |t| ensures t[k] in multiset(t) { }
      }
      assert forall k :: 0 <= k < |t| ==> key(t[k]) <= key(t[0]);
      assert key(t[0]) <= key(s[0]);
    }
  }

  /** Insertion keeps the equal-key order: `x` goes in front of the elements
      that share its key. */
  lemma {:induction false} InsertWithKey<T>(x: T, s: seq<T>, key: T -> int, v: int)
    requires NonIncreasing(s, key)
    ensures WithKey(Insert(x, s, key), key, v) == (if key(x) == v then [x] else []) + WithKey(s, key, v)
  {
    if |s| == 0 || key(x) >= key(s[0]) {
      assert ([x] + s)[1..] == s;
    } else {
      var t := Insert(x, s[1..], key);
      assert NonIncreasing(s[1..], key);
      InsertWithKey(x, s[1..], key, v);
      assert ([s[0]] + t)[1..] == t;
      assert WithKey(s, key, v) == (if key(s[0]) == v then [s[0]] else []) + WithKey(s[1..], key, v);
      assert WithKey([s[0]] + t, key, v) == (if key(s[0]) == v then [s[0]] else []) + WithKey(t, key, v);
      assert key(x) == v ==> key(s[0]) != v;
    }
  }

  /** The sorted sequence is a permutation of the input, ordered by key, largest first. */
  lemma {:induction false} SortDescSortsAndPermutes<T>(s: seq<T>, key: T -> int)
    ensures multiset(SortDesc(s, key)) == multiset(s)
    ensures NonIncreasing(SortDesc(s, key), key)
  {
    if |s| > 0 {
      SortDescSortsAndPermutes(s[1..], key);
      InsertMultiset(s[0], SortDesc(s[1..], key), key);
      InsertNonIncreasing(s[0], SortDesc(s[1..], key), key);
      assert s == [s[0]] + s[1..];
    }
  }

  /** Stability: for every key value, the elements carrying it appear in the
      sorted sequence exactly in their input order. */
  lemma {:induction false} SortDescStable<T>(s: seq<T>, key: T -> int, v: int)
    ensures WithKey(SortDesc(s, key), key, v) == WithKey(s, key, v)
  {
    if |s| > 0 {
      SortDescStable(s[1..], key, v);
      SortDescNonIncreasing(s[1..], key);
      InsertWithKey(s[0], SortDesc(s[1..], key), key, v);
    }
  }

  lemma {:induction false} SortDescNonIncreasing<T>(s: seq<T>, key: T -> int)
    ensures NonIncreasing(SortDesc(s, key), key)
  {
    if |s| > 0 {
      SortDescNonIncreasing(s[1..], key);
      InsertNonIncreasing(s[0], SortDesc(s[1..], key), key);
    }
  }

  lemma {:induction false} WithKeyPrefix<T>(s: seq<T>, n: nat, key: T -> int, v: int)
    requires n <= |s|
    ensures WithKey(s, key, v) == WithKey(s[..n], key, v) + WithKey(s[n..], key, v)
  {
    if n > 0 {
      WithKeyPrefix(s[1..], n - 1, key, v);
      assert s[1..][..n - 1] == s[..n][1..];
      assert s[1..][n - 1..] == s[n..];
    } else {
      assert s[..0] == [];
      assert s[0..] == s;
    }
  }

  /** The top-`n` projection is a prefix of the sorted sequence. */
  lemma TopIsPrefix<T>(s: seq<T>, key: T -> int, n: nat)
    ensures SortDesc(s, key) == Top(s, key, n) + SortDesc(s, key)[|Top(s, key, n)|..]
  {
  }

  /** The top-`n` projection takes at most `n` elements, all drawn from the
      input, and lists them largest key first. */
  lemma TopDrawnFromInput<T>(s: seq<T>, key: T -> int, n: nat)
    ensures multiset(Top(s, key, n)) <= multiset(s)
    ensures NonIncreasing(Top(s, key, n), key)
  {
    SortDescSortsAndPermutes(s, key);
    TopIsPrefix(s, key, n);
    var sorted, r := SortDesc(s, key), Top(s, key, n);
    assert multiset(sorted) == multiset(r) + multiset(sorted[|r|..]);
  }

  /** No element left out of the top-`n` projection has a larger key than an element taken. */
  lemma TopTakesLargest<T>(s: seq<T>, key: T -> int, n: nat, x: T, y: T)
    requires x in multiset(s) - multiset(Top(s, key, n))
    requires y in Top(s, key, n)
    ensures key(x) <= key(y)
  {
    SortDescSortsAndPermutes(s, key);
    TopIsPrefix(s, key, n);
    var sorted, r := SortDesc(s, key), Top(s, key, n);
    var rest := sorted[|r|..];
    assert multiset(sorted) == multiset(r) + multiset(rest);
    assert x in multiset(rest);
    var i :| 0 <= i < |rest| && rest[i] == x;
    var j :| 0 <= j < |r| && r[j] == y;
    assert sorted[|r| + i] == x && sorted[j] == y;
  }

  /** Elements of the top-`n` projection that share a key come in input order:
      they are the first ones of the input with that key. */
  lemma TopStable<T>(s: seq<T>, key: T -> int, n: nat, v: int)
    ensures WithKey(Top(s, key, n), key, v) <= WithKey(s, key, v)
  {
    SortDescStable(s, key, v);
    TopIsPrefix(s, key, n);
    var sorted, r := SortDesc(s, key), Top(s, key, n);
    WithKeyPrefix(sorted, |r|, key, v);
    assert sorted[..|r|] == r;
  }
}

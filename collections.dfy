/** Sequence, map and string helpers shared by every component of the budget engine. */
module Collections {

  datatype Option<T> = None | Some(value: T)

  /** No element occurs twice. */
  predicate Distinct<T(==)>(s: seq<T>) {
    forall i, j :: 0 <= i < j < |s| ==> s[i] != s[j]
  }

  /** Position of the first occurrence of `x` in `s`. */
  function IndexOf<T(==)>(s: seq<T>, x: T): (i: nat)
    requires x in s
    ensures i < |s| && s[i] == x && x !in s[..i]
  {
    if s[0] == x then 0 else 1 + IndexOf(s[1..], x)
  }

  lemma {:induction false} IndexOfInPrefix<T>(p: seq<T>, t: seq<T>, x: T)
    requires x in p
    ensures IndexOf(p + t, x) == IndexOf(p, x)
  {
    if p[0] != x {
      assert (p + t)[1..] == p[1..] + t;
      IndexOfInPrefix(p[1..], t, x);
    }
  }

  /** In a sequence without repeats every value occurs at most once. */
  lemma {:induction false} DistinctCount<T>(s: seq<T>, x: T)
    requires Distinct(s)
    ensures multiset(s)[x] <= 1
  {
    if |s| > 0 {
      var p := s[..|s| - 1];
      assert s == p + [s[|s| - 1]];
      assert Distinct(p);
      DistinctCount(p, x);
      assert s[|s| - 1] == x ==> x !in p;
    }
  }

  /** A permutation of a sequence without repeats has no repeats. */
  lemma DistinctPermutation<T>(s: seq<T>, r: seq<T>)
    requires Distinct(s) && multiset(r) == multiset(s)
    ensures Distinct(r)
  {
    forall i, j | 0 <= i < j < |r|
      ensures r[i] != r[j]
    {
      var x := r[i];
      DistinctCount(s, x);
      assert r == r[..j] + r[j..];
      assert r[..j][i] == x;
      assert multiset(r)[x] == multiset(r[..j])[x] + multiset(r[j..])[x];
      assert r[j..][0] == r[j];
    }
  }

  /** Order-preserving de-duplication by first occurrence: the value of
      `list(dict.fromkeys(xs))` in Python and `Array.from(new Set(xs))` in
      JavaScript, and of a loop that appends each element not yet seen. */
  function Dedup<T(==,!new)>(s: seq<T>): (r: seq<T>)
    ensures forall x :: x in r <==> x in s
    ensures Distinct(r)
    ensures |r| <= |s|
  {
    if |s| == 0 then []
    else
      var d := Dedup(s[..|s| - 1]);
      assert s == s[..|s| - 1] + [s[|s| - 1]];
      if s[|s| - 1] in d then d else d + [s[|s| - 1]]
  }

  /** The elements of `Dedup(s)` are listed in the order of their first occurrence in `s`. */
  lemma {:induction false} DedupFirstOccurrenceOrder<T(!new)>(s: seq<T>, i: nat, j: nat)
    requires i < j < |Dedup(s)|
    ensures IndexOf(s, Dedup(s)[i]) < IndexOf(s, Dedup(s)[j])
  {
    var p, x := s[..|s| - 1], s[|s| - 1];
    assert s == p + [x];
    var d := Dedup(p);
    if x in d {
      IndexOfInPrefix(p, [x], d[i]);
      IndexOfInPrefix(p, [x], d[j]);
      DedupFirstOccurrenceOrder(p, i, j);
    } else if j < |d| {
      IndexOfInPrefix(p, [x], d[i]);
      IndexOfInPrefix(p, [x], d[j]);
      DedupFirstOccurrenceOrder(p, i, j);
    } else {
      IndexOfInPrefix(p, [x], d[i]);
      assert forall k :: 0 <= k < |p| ==> s[k] == p[k] && p[k] != x;
    }
  }

  /** De-duplicating a sequence that already has no repeats changes nothing. */
  lemma {:induction false} DedupOfDistinct<T(!new)>(s: seq<T>)
    requires Distinct(s)
    ensures Dedup(s) == s
  {
    if |s| > 0 {
      var p := s[..|s| - 1];
      assert Distinct(p);
      DedupOfDistinct(p);
      assert s[|s| - 1] !in p;
      assert s == p + [s[|s| - 1]];
    }
  }

  /** Appending an element that is already present does not change the de-duplication. */
  lemma DedupAppendPresent<T(!new)>(s: seq<T>, x: T)
    requires x in s
    ensures Dedup(s + [x]) == Dedup(s)
  {
    assert (s + [x])[..|s + [x]| - 1] == s;
  }

  /** Appending a new element puts it last. */
  lemma DedupAppendAbsent<T(!new)>(s: seq<T>, x: T)
    requires x !in s
    ensures Dedup(s + [x]) == Dedup(s) + [x]
  {
    assert (s + [x])[..|s + [x]| - 1] == s;
  }

  /** The elements of `s` that satisfy `p`, in order. */
  function Filter<T>(s: seq<T>, p: T -> bool): (r: seq<T>)
    ensures |r| <= |s|
    ensures forall i :: 0 <= i < |r| ==> p(r[i])
  {
    if |s| == 0 then [] else (if p(s[0]) then [s[0]] else []) + Filter(s[1..], p)
  }

  lemma {:induction false} FilterMembership<T>(s: seq<T>, p: T -> bool, x: T)
    ensures x in Filter(s, p) <==> x in s && p(x)
  {
    if |s| > 0 {
      FilterMembership(s[1..], p, x);
      assert x in s <==> x == s[0] || x in s[1..];
    }
  }

  /** Filtering a sequence whose every element passes changes nothing. */
  lemma {:induction false} FilterKeepsAll<T>(s: seq<T>, p: T -> bool)
    requires forall i :: 0 <= i < |s| ==> p(s[i])
    ensures Filter(s, p) == s
  {
    if |s| > 0 {
      FilterKeepsAll(s[1..], p);
      assert s == [s[0]] + s[1..];
    }
  }

  lemma {:induction false} FilterAppend<T>(a: seq<T>, b: seq<T>, p: T -> bool)
    ensures Filter(a + b, p) == Filter(a, p) + Filter(b, p)
  {
    if |a| > 0 {
      assert (a + b)[1..] == a[1..] + b;
      FilterAppend(a[1..], b, p);
    } else {
      assert a + b == b;
    }
  }

  /** `s` without any occurrence of `x` (Python `[c for c in s if c != x]`). */
  function RemoveAll<T(==,!new)>(s: seq<T>, x: T): (r: seq<T>)
    ensures forall y :: y in r <==> y in s && y != x
    ensures |r| <= |s|
  {
    if |s| == 0 then []
    else
      assert s == [s[0]] + s[1..];
      (if s[0] == x then [] else [s[0]]) + RemoveAll(s[1..], x)
  }

  lemma {:induction false} RemoveAllAbsent<T(!new)>(s: seq<T>, x: T)
    requires x !in s
    ensures RemoveAll(s, x) == s
  {
    if |s| > 0 {
      assert x !in s[1..];
      RemoveAllAbsent(s[1..], x);
    }
  }

  lemma {:induction false} RemoveAllKeepsDistinct<T(!new)>(s: seq<T>, x: T)
    requires Distinct(s)
    ensures Distinct(RemoveAll(s, x))
  {
    if |s| > 0 {
      assert Distinct(s[1..]);
      RemoveAllKeepsDistinct(s[1..], x);
      assert s[0] !in s[1..];
    }
  }

  lemma {:induction false} RemoveAllAppend<T(!new)>(a: seq<T>, b: seq<T>, x: T)
    ensures RemoveAll(a + b, x) == RemoveAll(a, x) + RemoveAll(b, x)
  {
    if |a| > 0 {
      assert (a + b)[1..] == a[1..] + b;
      RemoveAllAppend(a[1..], b, x);
    } else {
      assert a + b == b;
    }
  }

  /** The value stored under `k`, or 0 when `k` is absent: JavaScript's `m[k] || 0`
      for integer amounts and Python's `m.get(k, 0)`. */
  function Lookup<K>(m: map<K, int>, k: K): int {
    if k in m then m[k] else 0
  }

  /** Sum of the values under `keys`, in that order, a missing key counting 0. */
  function SumOver<K>(keys: seq<K>, m: map<K, int>): int {
    if |keys| == 0 then 0 else SumOver(keys[..|keys| - 1], m) + Lookup(m, keys[|keys| - 1])
  }

  lemma {:induction false} SumOverAppend<K>(a: seq<K>, b: seq<K>, m: map<K, int>)
    ensures SumOver(a + b, m) == SumOver(a, m) + SumOver(b, m)
  {
    if |b| == 0 {
      assert a + b == a;
    } else {
      assert (a + b)[..|a + b| - 1] == a + b[..|b| - 1];
      SumOverAppend(a, b[..|b| - 1], m);
    }
  }

  /** Two maps that agree on `keys` give the same sum over `keys`. */
  lemma {:induction false} SumOverAgree<K>(keys: seq<K>, m: map<K, int>, m': map<K, int>)
    requires forall k :: k in keys ==> Lookup(m, k) == Lookup(m', k)
    ensures SumOver(keys, m) == SumOver(keys, m')
  {
    if |keys| > 0 {
      SumOverAgree(keys[..|keys| - 1], m, m');
    }
  }

  /** Adding `a` to the value of one key that occurs once in `keys` adds `a` to the sum. */
  lemma {:induction false} SumOverUpdate<K>(keys: seq<K>, m: map<K, int>, k: K, a: int)
    requires Distinct(keys) && k in keys && k in m
    ensures SumOver(keys, m[k := m[k] + a]) == SumOver(keys, m) + a
  {
    var p, last := keys[..|keys| - 1], keys[|keys| - 1];
    assert keys == p + [last];
    if last == k {
      assert k !in p;
      SumOverAgree(p, m, m[k := m[k] + a]);
    } else {
      SumOverUpdate(p, m, k, a);
    }
  }

  /** Summing only zeros gives zero. */
  lemma {:induction false} SumOverZero<K>(keys: seq<K>, m: map<K, int>)
    requires forall k :: k in m ==> m[k] == 0
    ensures SumOver(keys, m) == 0
  {
    if |keys| > 0 {
      SumOverZero(keys[..|keys| - 1], m);
    }
  }

  /** Every value summed is non-negative, so is the sum. */
  lemma {:induction false} SumOverNonNegative<K>(keys: seq<K>, m: map<K, int>)
    requires forall k :: k in m ==> m[k] >= 0
    ensures SumOver(keys, m) >= 0
  {
    if |keys| > 0 {
      SumOverNonNegative(keys[..|keys| - 1], m);
    }
  }

  /** The sum of a sequence of integers. */
  function Sum(s: seq<int>): int {
    if |s| == 0 then 0 else Sum(s[..|s| - 1]) + s[|s| - 1]
  }

  lemma {:induction false} SumAppend(a: seq<int>, b: seq<int>)
    ensures Sum(a + b) == Sum(a) + Sum(b)
  {
    if |b| == 0 {
      assert a + b == a;
    } else {
      assert (a + b)[..|a + b| - 1] == a + b[..|b| - 1];
      SumAppend(a, b[..|b| - 1]);
    }
  }

  function Max(a: int, b: int): int {
    if a >= b then a else b
  }

  /** The white-space characters removed by Python's `str.strip` and JavaScript's
      `String.prototype.trim` (the ASCII ones). */
  predicate IsSpace(c: char) {
    c == ' ' || c == '\t' || c == '\n' || c == '\r' || c == '\U{B}' || c == '\U{C}'
  }

  /** Neither end of `s` is white space. */
  predicate IsTrimmed(s: string) {
    |s| == 0 || (!IsSpace(s[0]) && !IsSpace(s[|s| - 1]))
  }

  /** The number of white-space characters `s` starts with. */
  function LeadingSpace(s: string): (n: nat)
    ensures n <= |s|
    ensures forall k :: 0 <= k < n ==> IsSpace(s[k])
    ensures n < |s| ==> !IsSpace(s[n])
  {
    if |s| > 0 && IsSpace(s[0]) then 1 + LeadingSpace(s[1..]) else 0
  }

  /** The length of `s` without the white space it ends with. */
  function TrailingSpaceStart(s: string): (n: nat)
    ensures n <= |s|
    ensures forall k :: n <= k < |s| ==> IsSpace(s[k])
    ensures n > 0 ==> !IsSpace(s[n - 1])
  {
    if |s| > 0 && IsSpace(s[|s| - 1]) then TrailingSpaceStart(s[..|s| - 1]) else |s|
  }

  /** `s` without leading or trailing white space: a piece of `s` with only
      white space before and after it, and white space at neither of its ends. */
  function Trim(s: string): (r: string)
    ensures IsTrimmed(r)
    ensures |r| <= |s|
    ensures CutAt(s, r, LeadingSpace(s))
  {
    var i := LeadingSpace(s);
    var j := TrailingSpaceStart(s);
    if i < j then
      assert CutAt(s, s[i..j], i);
      s[i..j]
    else
      assert CutAt(s, [], i);
      []
  }

  /** `r` is the piece of `s` starting at `i`, and only white space precedes
      and follows it. */
  predicate CutAt(s: string, r: string, i: int) {
    0 <= i <= |s| - |r| && (forall j :: 0 <= j < |r| ==> r[j] == s[i + j])
    && (forall k :: 0 <= k < i ==> IsSpace(s[k]))
    && (forall k :: i + |r| <= k < |s| ==> IsSpace(s[k]))
  }

  /** Every string trimmed, in order (JavaScript's `list.map(v => v.trim())`). */
  function TrimAll(values: seq<string>): (r: seq<string>)
    ensures |r| == |values|
    ensures forall i :: 0 <= i < |values| ==> r[i] == Trim(values[i])
  {
    if |values| == 0 then [] else TrimAll(values[..|values| - 1]) + [Trim(values[|values| - 1])]
  }

  lemma {:induction false} TrimAllAppend(a: seq<string>, b: seq<string>)
    ensures TrimAll(a + b) == TrimAll(a) + TrimAll(b)
  {
    if |b| == 0 {
      assert a + b == a;
    } else {
      assert (a + b)[..|a + b| - 1] == a + b[..|b| - 1];
      TrimAllAppend(a, b[..|b| - 1]);
    }
  }

  predicate NonEmpty(s: string) {
    s != []
  }

  /** The trimmed cut of a string is unique, so `Trim` is the only function
      meeting its contract. */
  lemma TrimmedCutIsTrim(s: string, r: string, i: int)
    requires IsTrimmed(r) && CutAt(s, r, i)
    ensures r == Trim(s)
  {
    var t := Trim(s);
    var j := LeadingSpace(s);
    if |r| > 0 && |t| > 0 {
      assert s[i] == r[0] && s[j] == t[0];
      assert i == j;
      assert s[i + |r| - 1] == r[|r| - 1] && s[j + |t| - 1] == t[|t| - 1];
      assert |r| == |t|;
    }
  }

  /** Trimming a string that is already trimmed changes nothing; in particular
      trimming is idempotent. */
  lemma TrimOfTrimmed(s: string)
    requires IsTrimmed(s)
    ensures Trim(s) == s
  {
  }

  lemma TrimIdempotent(s: string)
    ensures Trim(Trim(s)) == Trim(s)
  {
    TrimOfTrimmed(Trim(s));
  }
}

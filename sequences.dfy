// List operations the services perform on Python lists: filtering with a
// comprehension, `list.sort(key=..., reverse=True)` and slicing `[:n]`.
module Sequences {
  /** Non-increasing order of the keys. */
  predicate SortedDesc<T>(s: seq<T>, key: T -> real) {
    forall i, j :: 0 <= i < j < |s| ==> key(s[i]) >= key(s[j])
  }

  /** `[x for x in s if keep(x)]`. */
  function Filter<T>(s: seq<T>, keep: T -> bool): (r: seq<T>)
    ensures |r| <= |s|
    ensures forall i :: 0 <= i < |r| ==> keep(r[i])
    ensures forall x :: x in s && keep(x) ==> x in r
    ensures forall x :: x in r ==> x in s
  {
    if |s| == 0 then []
    else if keep(s[0]) then [s[0]] + Filter(s[1..], keep)
    else Filter(s[1..], keep)
  }

  /**
   * Inserts `x` in front of the first element whose key is not larger, so that
   * an element inserted earlier stays ahead of later elements with the same key.
   */
  function InsertDesc<T>(x: T, s: seq<T>, key: T -> real): (r: seq<T>)
    ensures |r| == |s| + 1
    ensures multiset(r) == multiset(s) + multiset{x}
  {
    if |s| == 0 || key(x) >= key(s[0]) then [x] + s
    else
      assert s == [s[0]] + s[1..];
      [s[0]] + InsertDesc(x, s[1..], key)
  }

  /** Inserting into a list in non-increasing order keeps it in that order. */
  lemma {:induction false} InsertDescSorted<T>(x: T, s: seq<T>, key: T -> real)
    requires SortedDesc(s, key)
    ensures SortedDesc(InsertDesc(x, s, key), key)
    decreases |s|
  {
    if |s| == 0 || key(x) >= key(s[0]) {
      ConsSorted(x, s, key);
    } else {
      var t := InsertDesc(x, s[1..], key);
      InsertDescSorted(x, s[1..], key);
      InsertedBelow(x, s, key);
      ConsSorted(s[0], t, key);
    }
  }

  /** A list in order stays in order behind an element whose key is at least all of its keys. */
  lemma ConsSorted<T>(y: T, t: seq<T>, key: T -> real)
    requires SortedDesc(t, key)
    requires t == [] || key(y) >= key(t[0])
    ensures SortedDesc([y] + t, key)
  {
    var r := [y] + t;
    forall i, j | 0 <= i < j < |r|
      ensures key(r[i]) >= key(r[j])
    {
      if i == 0 {
        assert r[j] == t[j - 1];
        assert key(t[0]) >= key(t[j - 1]);
      } else {
        assert r[i] == t[i - 1] && r[j] == t[j - 1];
      }
    }
  }

  /** When `x` goes after the head, the head's key is at least that of the rest once `x` is in it. */
  lemma InsertedBelow<T>(x: T, s: seq<T>, key: T -> real)
    requires SortedDesc(s, key) && |s| > 0 && key(x) < key(s[0])
    ensures var t := InsertDesc(x, s[1..], key); t == [] || key(s[0]) >= key(t[0])
  {
    var t := InsertDesc(x, s[1..], key);
    assert t[0] in multiset(t);
    assert t[0] == x || t[0] in multiset(s[1..]);
    if t[0] != x {
      var k :| 0 <= k < |s[1..]| && s[1..][k] == t[0];
      assert s[k + 1] == t[0];
    }
  }

  /** `sorted(s, key=key, reverse=True)`: a stable sort into non-increasing key order. */
  function SortDesc<T>(s: seq<T>, key: T -> real): (r: seq<T>)
    ensures |r| == |s|
    ensures multiset(r) == multiset(s)
    ensures SortedDesc(r, key)
  {
    if |s| == 0 then []
    else
      assert s == [s[0]] + s[1..];
      InsertDescSorted(s[0], SortDesc(s[1..], key), key);
      InsertDesc(s[0], SortDesc(s[1..], key), key)
  }

  /** The entries of `s` whose key is `k`, in their order in `s`. */
  function Ties<T>(s: seq<T>, key: T -> real, k: real): (r: seq<T>)
    ensures |r| <= |s|
    ensures forall i :: 0 <= i < |r| ==> key(r[i]) == k
    decreases |s|
  {
    if |s| == 0 then [] else (if key(s[0]) == k then [s[0]] else []) + Ties(s[1..], key, k)
  }

  /** Inserting `x` puts it ahead of every entry with its key, and keeps their order. */
  lemma {:induction false} InsertDescTies<T>(x: T, s: seq<T>, key: T -> real, k: real)
    ensures Ties(InsertDesc(x, s, key), key, k) == (if key(x) == k then [x] else []) + Ties(s, key, k)
    decreases |s|
  {
    if |s| == 0 || key(x) >= key(s[0]) {
      assert ([x] + s)[1..] == s;
    } else {
      var t := InsertDesc(x, s[1..], key);
      assert ([s[0]] + t)[1..] == t;
      InsertDescTies(x, s[1..], key, k);
    }
  }

  /** The sort is stable: the entries sharing a key keep their order in `s`. */
  lemma {:induction false} SortDescStable<T>(s: seq<T>, key: T -> real, k: real)
    ensures Ties(SortDesc(s, key), key, k) == Ties(s, key, k)
    decreases |s|
  {
    if |s| > 0 {
      InsertDescTies(s[0], SortDesc(s[1..], key), key, k);
      SortDescStable(s[1..], key, k);
    }
  }

  /** Python's slice `s[:n]`, including the negative-`n` case that drops from the end. */
  function Take<T>(s: seq<T>, n: int): (r: seq<T>)
    ensures |r| <= |s| && r == s[..|r|]
    ensures n >= 0 ==> |r| == if n <= |s| then n else |s|
    ensures n < 0 ==> |r| == if |s| + n >= 0 then |s| + n else 0
  {
    if n >= 0 then (if n <= |s| then s[..n] else s)
    else if |s| + n >= 0 then s[..|s| + n]
    else []
  }

  /** A prefix of a sorted list is sorted. */
  lemma SortedPrefix<T>(s: seq<T>, n: nat, key: T -> real)
    requires SortedDesc(s, key) && n <= |s|
    ensures SortedDesc(s[..n], key)
  {
  }

  /** No entry after a prefix of a sorted list has a larger key than an entry in it. */
  lemma PrefixHoldsLargest<T>(t: seq<T>, key: T -> real, m: nat)
    requires SortedDesc(t, key) && m <= |t|
    ensures forall x, y :: x in multiset(t) - multiset(t[..m]) && y in t[..m] ==> key(y) >= key(x)
  {
    assert t == t[..m] + t[m..];
    assert multiset(t) == multiset(t[..m]) + multiset(t[m..]);
    forall x, y | x in multiset(t) - multiset(t[..m]) && y in t[..m]
      ensures key(y) >= key(x)
    {
      assert x in multiset(t[m..]);
      var k :| 0 <= k < |t[m..]| && t[m..][k] == x;
      var i :| 0 <= i < m && t[..m][i] == y;
      assert t[i] == y && t[m + k] == x;
    }
  }

  /**
   * `sorted(s, key, reverse=True)[:n]` keeps the best entries: the result is
   * sorted, is drawn from `s`, is all of `s` when `n` reaches its length, and
   * no entry left out has a larger key than an entry kept.
   */
  lemma TopEntries<T>(s: seq<T>, key: T -> real, n: int)
    ensures SortedDesc(Take(SortDesc(s, key), n), key)
    ensures multiset(Take(SortDesc(s, key), n)) <= multiset(s)
    ensures n >= |s| ==> multiset(Take(SortDesc(s, key), n)) == multiset(s)
    ensures forall x, y :: x in multiset(s) - multiset(Take(SortDesc(s, key), n)) && y in Take(SortDesc(s, key), n)
              ==> key(y) >= key(x)
  {
    TopSorted(s, key, n);
    TopKept(s, key, n);
    TopLargest(s, key, n);
  }

  /** The kept entries are in non-increasing order of key. */
  lemma TopSorted<T>(s: seq<T>, key: T -> real, n: int)
    ensures SortedDesc(Take(SortDesc(s, key), n), key)
  {
    var t := SortDesc(s, key);
    SortedPrefix(t, |Take(t, n)|, key);
  }

  /** The kept entries are entries of `s`, all of them when `n` reaches its length. */
  lemma TopKept<T>(s: seq<T>, key: T -> real, n: int)
    ensures multiset(Take(SortDesc(s, key), n)) <= multiset(s)
    ensures n >= |s| ==> multiset(Take(SortDesc(s, key), n)) == multiset(s)
  {
    var t := SortDesc(s, key);
    var r := Take(t, n);
    PrefixMultiset(t, |r|);
    assert multiset(r) <= multiset(t) == multiset(s);
    if n >= |s| {
      assert r == t;
    }
  }

  /** A prefix holds no more of any entry than the whole sequence. */
  lemma PrefixMultiset<T>(t: seq<T>, m: nat)
    requires m <= |t|
    ensures multiset(t[..m]) <= multiset(t)
  {
    assert t == t[..m] + t[m..];
  }

  /** No entry left out has a larger key than an entry kept. */
  lemma TopLargest<T>(s: seq<T>, key: T -> real, n: int)
    ensures forall x, y :: x in multiset(s) - multiset(Take(SortDesc(s, key), n)) && y in Take(SortDesc(s, key), n)
              ==> key(y) >= key(x)
  {
    var t := SortDesc(s, key);
    var r := Take(t, n);
    assert r == t[..|r|];
    PrefixHoldsLargest(t, key, |r|);
  }
}

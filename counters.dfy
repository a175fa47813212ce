// Counting by key, as Python code does with `d[k] = d.get(k, 0) + 1` in a
// loop or with `collections.Counter`: the dictionary after a sequence of
// increments, the order its keys were first inserted in, and the facts that
// tie the counters to the items counted.
module Counters {
  /** `d.get(key, 0)`. */
  function Get<K>(m: map<K, nat>, key: K): nat { if key in m then m[key] else 0 }

  /** How many items of `s` have the key. */
  function Occurrences<T, K(==)>(s: seq<T>, f: T -> K, key: K): nat
    decreases |s|
  {
    if |s| == 0 then 0
    else Occurrences(s[..|s| - 1], f, key) + (if f(s[|s| - 1]) == key then 1 else 0)
  }

  /** The dictionary after counting each item of `s`, in order, under its key. */
  function Tally<T, K>(s: seq<T>, f: T -> K): map<K, nat>
    decreases |s|
  {
    if |s| == 0 then map[]
    else
      var m := Tally(s[..|s| - 1], f);
      var key := f(s[|s| - 1]);
      m[key := Get(m, key) + 1]
  }

  /** The dictionary's keys in insertion order: first occurrence first. */
  function KeyOrder<T, K(==)>(s: seq<T>, f: T -> K): seq<K>
    decreases |s|
  {
    if |s| == 0 then []
    else
      var o := KeyOrder(s[..|s| - 1], f);
      var key := f(s[|s| - 1]);
      if key in o then o else o + [key]
  }

  /** The loop `d[key] = d.get(key, 0) + 1` over the items, in order. */
  method CountBy<T, K>(s: seq<T>, f: T -> K) returns (m: map<K, nat>)
    ensures m == Tally(s, f)
  {
    m := map[];
    for i := 0 to |s|
      invariant m == Tally(s[..i], f)
    {
      assert s[..i + 1][..i] == s[..i];
      var key := f(s[i]);
      m := m[key := Get(m, key) + 1];
    }
    assert s[..|s|] == s;
  }

  /** Counting one more item: its key's counter goes up by one, and a new key joins the order at the end. */
  lemma TallySnoc<T, K>(s: seq<T>, f: T -> K, x: T)
    ensures Tally(s + [x], f) == Tally(s, f)[f(x) := Get(Tally(s, f), f(x)) + 1]
    ensures KeyOrder(s + [x], f) == if f(x) in KeyOrder(s, f) then KeyOrder(s, f) else KeyOrder(s, f) + [f(x)]
  {
    assert (s + [x])[..|s|] == s;
  }

  /** Reading a key's counter only when the key was grouped gives its number of occurrences all the same. */
  lemma GroupedCount<T, K>(s: seq<T>, f: T -> K, key: K)
    ensures (if key in KeyOrder(s, f) then Get(Tally(s, f), key) else 0) == Occurrences(s, f, key)
  {
    TallyCounts(s, f);
  }

  predicate Distinct<K(==)>(o: seq<K>) { forall i, j :: 0 <= i < j < |o| ==> o[i] != o[j] }

  /**
   * The counters are the occurrence counts: a key has a counter exactly when
   * some item has it, the counter is its number of occurrences, and the keys
   * are listed once each.
   */
  lemma TallyCounts<T, K>(s: seq<T>, f: T -> K)
    ensures forall key :: key in Tally(s, f) <==> key in KeyOrder(s, f)
    ensures forall key :: Get(Tally(s, f), key) == Occurrences(s, f, key)
    ensures forall key :: key in Tally(s, f) ==> Tally(s, f)[key] >= 1
    ensures Distinct(KeyOrder(s, f))
    ensures |Tally(s, f)| == |KeyOrder(s, f)|
  {
    TallyKeys(s, f);
    TallyGet(s, f);
    KeyOrderDistinct(s, f);
  }

  /** Each key's counter is its number of occurrences. */
  lemma {:induction false} TallyGet<T, K>(s: seq<T>, f: T -> K)
    ensures forall key :: Get(Tally(s, f), key) == Occurrences(s, f, key)
    decreases |s|
  {
    if |s| > 0 {
      var init := s[..|s| - 1];
      TallyGet(init, f);
      var m := Tally(init, f);
      var key := f(s[|s| - 1]);
      assert Tally(s, f) == m[key := Get(m, key) + 1];
    }
  }

  /** The counted keys are the listed keys, every counter positive. */
  lemma {:induction false} TallyKeys<T, K>(s: seq<T>, f: T -> K)
    ensures forall key :: key in Tally(s, f) <==> key in KeyOrder(s, f)
    ensures forall key :: key in Tally(s, f) ==> Tally(s, f)[key] >= 1
    ensures |Tally(s, f)| == |KeyOrder(s, f)|
    decreases |s|
  {
    if |s| > 0 {
      var init := s[..|s| - 1];
      TallyKeys(init, f);
      var m := Tally(init, f);
      var o := KeyOrder(init, f);
      var key := f(s[|s| - 1]);
      assert Tally(s, f) == m[key := Get(m, key) + 1];
      assert KeyOrder(s, f) == if key in o then o else o + [key];
      if key !in o {
        assert key !in m.Keys;
        assert Tally(s, f).Keys == m.Keys + {key};
      } else {
        assert Tally(s, f).Keys == m.Keys;
      }
    }
  }

  /** One key: it has a counter exactly when it is listed. */
  lemma TallyKey<T, K>(s: seq<T>, f: T -> K, key: K)
    ensures key in Tally(s, f) <==> key in KeyOrder(s, f)
  {
    TallyKeys(s, f);
  }

  /** A key joins the order only the first time it is seen, so no key is listed twice. */
  lemma {:induction false} KeyOrderDistinct<T, K>(s: seq<T>, f: T -> K)
    ensures Distinct(KeyOrder(s, f))
    decreases |s|
  {
    if |s| > 0 {
      KeyOrderDistinct(s[..|s| - 1], f);
    }
  }

  /** The sum of the counters listed in `o`. */
  function Total<K>(o: seq<K>, m: map<K, nat>): nat
    decreases |o|
  {
    if |o| == 0 then 0 else Total(o[..|o| - 1], m) + Get(m, o[|o| - 1])
  }

  lemma {:induction false} TotalOutside<K>(o: seq<K>, m: map<K, nat>, key: K, v: nat)
    requires key !in o
    ensures Total(o, m[key := v]) == Total(o, m)
    decreases |o|
  {
    if |o| > 0 {
      TotalOutside(o[..|o| - 1], m, key, v);
    }
  }

  lemma {:induction false} TotalBump<K>(o: seq<K>, m: map<K, nat>, key: K)
    requires Distinct(o) && key in o
    ensures Total(o, m[key := Get(m, key) + 1]) == Total(o, m) + 1
    decreases |o|
  {
    var init := o[..|o| - 1];
    if o[|o| - 1] == key {
      assert key !in init;
      TotalOutside(init, m, key, Get(m, key) + 1);
    } else {
      TotalBump(init, m, key);
    }
  }

  /** Each item increments exactly one counter: the counters add up to the number of items. */
  lemma {:induction false} TallyTotal<T, K>(s: seq<T>, f: T -> K)
    ensures Total(KeyOrder(s, f), Tally(s, f)) == |s|
    decreases |s|
  {
    if |s| > 0 {
      var init := s[..|s| - 1];
      TallyTotal(init, f);
      TallyKeys(init, f);
      KeyOrderDistinct(init, f);
      var m := Tally(init, f);
      var o := KeyOrder(init, f);
      var key := f(s[|s| - 1]);
      var m' := m[key := Get(m, key) + 1];
      assert Tally(s, f) == m';
      if key in o {
        assert KeyOrder(s, f) == o;
        TotalBump(o, m, key);
      } else {
        assert KeyOrder(s, f) == o + [key];
        assert key !in m;
        TotalOutside(o, m, key, 1);
        assert (o + [key])[..|o|] == o;
      }
    }
  }
}

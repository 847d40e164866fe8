/**
 Python's `sorted(xs, key=k, reverse=True)`: the elements of `xs` in order of
 non-increasing key, where elements with equal keys keep the order they had in
 `xs` (Python guarantees that `reverse=True` preserves stability). Modelled as
 an insertion sort that inserts each element in front of every element with a
 key that is not larger.
 */
module StableSort {

  /** Keys never increase from left to right. */
  predicate SortedDesc<T>(t: seq<T>, key: T -> real)
  {
    forall i, j :: 0 <= i < j < |t| ==> key(t[i]) >= key(t[j])
  }

  /** The elements of `s` whose key is `k`, in the order of `s`. */
  function WithKey<T>(s: seq<T>, key: T -> real, k: real): seq<T>
  {
    if s == [] then []
    else (if key(s[0]) == k then [s[0]] else []) + WithKey(s[1..], key, k)
  }

  /** `s[i]` has the largest key in `s`, and no earlier element shares it. */
  predicate IsEarliestMax<T>(s: seq<T>, key: T -> real, i: int)
  {
    && 0 <= i < |s|
    && (forall j :: 0 <= j < |s| ==> key(s[j]) <= key(s[i]))
    && (forall j :: 0 <= j < i ==> key(s[j]) < key(s[i]))
  }

  /** No two elements of `s` agree on `f`. */
  predicate DistinctBy<T>(s: seq<T>, f: T -> int)
  {
    forall i, j :: 0 <= i < j < |s| ==> f(s[i]) != f(s[j])
  }

  /** Puts `x` in front of the first element of `t` whose key is not larger. */
  function Insert<T>(x: T, t: seq<T>, key: T -> real): (r: seq<T>)
    ensures |r| == |t| + 1
    ensures multiset(r) == multiset(t) + multiset{x}
  {
    if t == [] || key(t[0]) <= key(x) then [x] + t
    else
      assert t == [t[0]] + t[1..];
      [t[0]] + Insert(x, t[1..], key)
  }

  lemma {:induction false} InsertSorted<T>(x: T, t: seq<T>, key: T -> real)
    requires SortedDesc(t, key)
    ensures SortedDesc(Insert(x, t, key), key)
  {
    if t == [] || key(t[0]) <= key(x) {
    } else {
      var r := Insert(x, t[1..], key);
      InsertSorted(x, t[1..], key);
      forall j | 0 <= j < |r| ensures key(r[j]) <= key(t[0]) {
        assert r[j] in multiset(r);
        if r[j] != x {
          assert r[j] in t[1..];
        }
      }
    }
  }

  /** `sorted(s, key=key, reverse=True)`: a permutation of `s` with keys in
      non-increasing order. */
  function SortDesc<T>(s: seq<T>, key: T -> real): (t: seq<T>)
    ensures multiset(t) == multiset(s)
    ensures SortedDesc(t, key)
  {
    if s == [] then []
    else
      var rest := SortDesc(s[1..], key);
      InsertSorted(s[0], rest, key);
      assert s == [s[0]] + s[1..];
      Insert(s[0], rest, key)
  }

  lemma WithKeyCons<T>(x: T, t: seq<T>, key: T -> real, k: real)
    ensures WithKey([x] + t, key, k) == (if key(x) == k then [x] else []) + WithKey(t, key, k)
  {
    assert ([x] + t)[0] == x;
    assert ([x] + t)[1..] == t;
  }

  lemma {:induction false} InsertStable<T>(x: T, t: seq<T>, key: T -> real, k: real)
    ensures WithKey(Insert(x, t, key), key, k) == WithKey([x] + t, key, k)
  {
    if t != [] && key(t[0]) > key(x) {
      var wx := if key(x) == k then [x] else [];
      var w0 := if key(t[0]) == k then [t[0]] else [];
      var rest := Insert(x, t[1..], key);
      var w := WithKey(t[1..], key, k);
      assert Insert(x, t, key) == [t[0]] + rest;
      InsertStable(x, t[1..], key, k);
      WithKeyCons(t[0], rest, key, k);
      WithKeyCons(x, t[1..], key, k);
      assert WithKey(t, key, k) == w0 + w;
      WithKeyCons(x, t, key, k);
      calc {
        WithKey(Insert(x, t, key), key, k);
        w0 + WithKey(rest, key, k);
        w0 + (wx + w);
        { if key(x) == k { assert w0 == []; } else { assert wx == []; } }
        wx + (w0 + w);
        WithKey([x] + t, key, k);
      }
    }
  }

  /** Stability: among the elements that share a key, the sorted sequence keeps
      exactly the order of the input. */
  lemma {:induction false} SortDescStable<T>(s: seq<T>, key: T -> real, k: real)
    ensures WithKey(SortDesc(s, key), key, k) == WithKey(s, key, k)
  {
    if s != [] {
      var rest := SortDesc(s[1..], key);
      InsertStable(s[0], rest, key, k);
      SortDescStable(s[1..], key, k);
      WithKeyCons(s[0], rest, key, k);
      WithKeyCons(s[0], s[1..], key, k);
      assert [s[0]] + s[1..] == s;
    }
  }

  /** The first element of the sorted sequence is the earliest element of the
      input with the largest key; this is what `sorted(...)[0]` selects. */
  lemma {:induction false} SortDescHead<T>(s: seq<T>, key: T -> real)
    requires s != []
    ensures exists i :: IsEarliestMax(s, key, i) && s[i] == SortDesc(s, key)[0]
  {
    if |s| == 1 {
      assert IsEarliestMax(s, key, 0);
    } else {
      var rest := SortDesc(s[1..], key);
      SortDescHead(s[1..], key);
      var i' :| IsEarliestMax(s[1..], key, i') && s[1..][i'] == rest[0];
      EarliestMaxCons(s, key, i');
      assert SortDesc(s, key) == Insert(s[0], rest, key);
      if key(rest[0]) <= key(s[0]) {
        assert SortDesc(s, key)[0] == s[0];
      } else {
        assert SortDesc(s, key)[0] == s[i' + 1];
      }
    }
  }

  /** The earliest maximum of `s` from that of `s[1..]`. */
  lemma EarliestMaxCons<T>(s: seq<T>, key: T -> real, i': int)
    requires |s| >= 2 && IsEarliestMax(s[1..], key, i')
    ensures key(s[i' + 1]) <= key(s[0]) ==> IsEarliestMax(s, key, 0)
    ensures key(s[i' + 1]) > key(s[0]) ==> IsEarliestMax(s, key, i' + 1)
  {
    assert forall j :: 1 <= j < |s| ==> s[j] == s[1..][j - 1];
  }

  lemma {:induction false} InsertDistinct<T>(x: T, t: seq<T>, key: T -> real, f: T -> int)
    requires DistinctBy(t, f)
    requires forall y :: y in t ==> f(y) != f(x)
    ensures DistinctBy(Insert(x, t, key), f)
  {
    if t == [] || key(t[0]) <= key(x) {
    } else {
      var r := Insert(x, t[1..], key);
      assert forall y :: y in t[1..] ==> y in t;
      InsertDistinct(x, t[1..], key, f);
      forall j | 0 <= j < |r| ensures f(r[j]) != f(t[0]) {
        assert r[j] in multiset(r);
        if r[j] != x {
          assert r[j] in t[1..];
        }
      }
    }
  }

  /** Sorting keeps elements that differ on `f` apart (used for lanes). */
  lemma {:induction false} SortDescDistinct<T>(s: seq<T>, key: T -> real, f: T -> int)
    requires DistinctBy(s, f)
    ensures DistinctBy(SortDesc(s, key), f)
  {
    if s != [] {
      var rest := SortDesc(s[1..], key);
      SortDescDistinct(s[1..], key, f);
      forall y | y in rest ensures f(y) != f(s[0]) {
        assert y in multiset(rest);
        assert y in s[1..];
      }
      InsertDistinct(s[0], rest, key, f);
    }
  }
}

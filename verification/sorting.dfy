/** Stable sorting by a real-valued key, largest first: Python's
    `sorted(..., key=k, reverse=True)` / `list.sort(key=k, reverse=True)`,
    which keep elements with equal keys in their original order. */
module Sorting {

  /** Keys never increase from left to right. */
  ghost predicate NonIncreasing<T>(s: seq<T>, key: T -> real)
  {
    forall i, j :: 0 <= i < j < |s| ==> key(s[i]) >= key(s[j])
  }

  /** The elements of `s` whose key is `v`, in order. */
  function WithKey<T>(s: seq<T>, key: T -> real, v: real): seq<T>
  {
    if |s| == 0 then []
    else (if key(s[0]) == v then [s[0]] else []) + WithKey(s[1..], key, v)
  }

  /** Places `x` after every element with a larger key and before the rest. */
  function InsertDesc<T>(x: T, s: seq<T>, key: T -> real): seq<T>
  {
    if |s| == 0 then [x]
    else if key(s[0]) <= key(x) then [x] + s
    else [s[0]] + InsertDesc(x, s[1..], key)
  }

  /** Insertion sort, largest key first, stable. */
  function SortDesc<T>(s: seq<T>, key: T -> real): seq<T>
  {
    if |s| == 0 then [] else InsertDesc(s[0], SortDesc(s[1..], key), key)
  }

  lemma {:induction false} InsertDescPerm<T>(x: T, s: seq<T>, key: T -> real)
    ensures multiset(InsertDesc(x, s, key)) == multiset(s) + multiset{x}
    decreases |s|
  {
    if |s| > 0 && key(s[0]) > key(x) {
      InsertDescPerm(x, s[1..], key);
      assert s == [s[0]] + s[1..];
    }
  }

  /** Inserting keeps every key under a bound that all elements respect. */
  lemma {:induction false} InsertDescBound<T>(x: T, s: seq<T>, key: T -> real, b: real)
    requires key(x) <= b
    requires forall j :: 0 <= j < |s| ==> key(s[j]) <= b
    ensures forall j :: 0 <= j < |InsertDesc(x, s, key)| ==> key(InsertDesc(x, s, key)[j]) <= b
    decreases |s|
  {
    if |s| > 0 && key(s[0]) > key(x) {
      InsertDescBound(x, s[1..], key, b);
    }
  }

  lemma {:induction false} InsertDescSorted<T>(x: T, s: seq<T>, key: T -> real)
    requires NonIncreasing(s, key)
    ensures NonIncreasing(InsertDesc(x, s, key), key)
    decreases |s|
  {
    if |s| > 0 && key(s[0]) > key(x) {
      var r := InsertDesc(x, s[1..], key);
      InsertDescSorted(x, s[1..], key);
      InsertDescBound(x, s[1..], key, key(s[0]));
      var t := [s[0]] + r;
      forall i, j | 0 <= i < j < |t|
        ensures key(t[i]) >= key(t[j])
      {
        assert t[j] == r[j - 1];
        if i > 0 {
          assert t[i] == r[i - 1];
        }
      }
    }
  }

  /** The sort yields a permutation of its input ... */
  lemma {:induction false} SortDescPerm<T>(s: seq<T>, key: T -> real)
    ensures multiset(SortDesc(s, key)) == multiset(s)
    decreases |s|
  {
    if |s| > 0 {
      SortDescPerm(s[1..], key);
      InsertDescPerm(s[0], SortDesc(s[1..], key), key);
      assert s == [s[0]] + s[1..];
    }
  }

  /** ... with non-increasing keys. */
  lemma {:induction false} SortDescSorted<T>(s: seq<T>, key: T -> real)
    ensures NonIncreasing(SortDesc(s, key), key)
    decreases |s|
  {
    if |s| > 0 {
      SortDescSorted(s[1..], key);
      InsertDescSorted(s[0], SortDesc(s[1..], key), key);
    }
  }

  /** Both, and hence the same length. */
  lemma SortDescProperties<T>(s: seq<T>, key: T -> real)
    ensures |SortDesc(s, key)| == |s|
    ensures multiset(SortDesc(s, key)) == multiset(s)
    ensures NonIncreasing(SortDesc(s, key), key)
  {
    SortDescPerm(s, key);
    SortDescSorted(s, key);
    assert |SortDesc(s, key)| == |multiset(SortDesc(s, key))|;
  }

  lemma {:induction false} InsertDescStable<T>(x: T, s: seq<T>, key: T -> real, v: real)
    ensures WithKey(InsertDesc(x, s, key), key, v)
         == (if key(x) == v then [x] else []) + WithKey(s, key, v)
    decreases |s|
  {
    if |s| > 0 {
      if key(s[0]) <= key(x) {
        assert ([x] + s)[1..] == s;
      } else {
        assert ([s[0]] + InsertDesc(x, s[1..], key))[1..] == InsertDesc(x, s[1..], key);
        InsertDescStable(x, s[1..], key, v);
      }
    }
  }

  /** Stability: for every key value, the elements carrying it keep their order. */
  lemma {:induction false} SortDescStable<T>(s: seq<T>, key: T -> real, v: real)
    ensures WithKey(SortDesc(s, key), key, v) == WithKey(s, key, v)
    decreases |s|
  {
    if |s| > 0 {
      SortDescStable(s[1..], key, v);
      InsertDescStable(s[0], SortDesc(s[1..], key), key, v);
    }
  }

  /** Position of the first element whose key is `v`; |s| if none. */
  function FirstWithKey<T>(s: seq<T>, key: T -> real, v: real): (i: nat)
    ensures i <= |s|
    ensures i < |s| ==> key(s[i]) == v
    ensures forall j :: 0 <= j < i ==> key(s[j]) != v
  {
    if |s| == 0 then 0
    else if key(s[0]) == v then 0
    else 1 + FirstWithKey(s[1..], key, v)
  }

  lemma {:induction false} WithKeyFirst<T>(s: seq<T>, key: T -> real, v: real)
    requires FirstWithKey(s, key, v) < |s|
    ensures |WithKey(s, key, v)| > 0
    ensures WithKey(s, key, v)[0] == s[FirstWithKey(s, key, v)]
    decreases |s|
  {
    var w := WithKey(s, key, v);
    if key(s[0]) == v {
      assert w == [s[0]] + WithKey(s[1..], key, v);
    } else {
      var i := FirstWithKey(s[1..], key, v);
      assert FirstWithKey(s, key, v) == i + 1;
      WithKeyFirst(s[1..], key, v);
      assert w == WithKey(s[1..], key, v);
      assert s[1..][i] == s[i + 1];
    }
  }

  /** The head of the sorted sequence is the first element with the largest
      key: what `sorted(..., reverse=True)[0]` picks. */
  lemma SortDescHead<T>(s: seq<T>, key: T -> real) returns (i: nat)
    requires |s| > 0
    ensures i < |s| && SortDesc(s, key)[0] == s[i]
    ensures forall j :: 0 <= j < |s| ==> key(s[j]) <= key(s[i])
    ensures forall j :: 0 <= j < i ==> key(s[j]) < key(s[i])
  {
    var sorted := SortDesc(s, key);
    SortDescProperties(s, key);
    var m := key(sorted[0]);
    assert sorted[0] in multiset(s);
    forall j | 0 <= j < |s| ensures key(s[j]) <= m {
      assert s[j] in multiset(sorted);
      var p :| 0 <= p < |sorted| && sorted[p] == s[j];
    }
    var i0 :| 0 <= i0 < |s| && s[i0] == sorted[0];
    i := FirstWithKey(s, key, m);
    WithKeyFirst(s, key, m);
    SortDescStable(s, key, m);
    assert WithKey(sorted, key, m)[0] == sorted[0];
  }
}

/** A stable sort by a real-valued key, largest key first: what
    `Array.prototype.sort` with the comparator `(a, b) => key(b) - key(a)`
    computes (the sort is stable since ES2019). */
module Sorting {
  import opened Util

  predicate NonIncreasing<T>(s: seq<T>, key: T -> real)
  {
    forall i, j :: 0 <= i < j < |s| ==> key(s[i]) >= key(s[j])
  }

  /** Inserts `x` before the first element whose key is not larger, so `x`
      stays ahead of the equal keys that come after it in the input. */
  function Insert<T>(x: T, s: seq<T>, key: T -> real): (r: seq<T>)
    ensures |r| == |s| + 1
    ensures multiset(r) == multiset(s) + multiset{x}
    ensures r[0] == x || (|s| > 0 && r[0] == s[0])
  {
    if |s| == 0 || key(s[0]) <= key(x) then [x] + s
    else
      assert s == [s[0]] + s[1..];
      [s[0]] + Insert(x, s[1..], key)
  }

  lemma {:induction false} InsertKeepsOrder<T>(x: T, s: seq<T>, key: T -> real)
    requires NonIncreasing(s, key)
    ensures NonIncreasing(Insert(x, s, key), key)
  {
    if |s| > 0 && key(s[0]) > key(x) {
      InsertKeepsOrder(x, s[1..], key);
      var rest := Insert(x, s[1..], key);
      assert key(s[0]) >= key(rest[0]);
    }
  }

  function SortByKeyDescending<T>(s: seq<T>, key: T -> real): (r: seq<T>)
    ensures |r| == |s|
    ensures multiset(r) == multiset(s)
  {
    if |s| == 0 then []
    else
      assert s == [s[0]] + s[1..];
      Insert(s[0], SortByKeyDescending(s[1..], key), key)
  }

  lemma {:induction false} SortIsOrdered<T>(s: seq<T>, key: T -> real)
    ensures NonIncreasing(SortByKeyDescending(s, key), key)
  {
    if |s| > 0 {
      SortIsOrdered(s[1..], key);
      InsertKeepsOrder(s[0], SortByKeyDescending(s[1..], key), key);
    }
  }

  function KeyIs<T>(key: T -> real, k: real): T -> bool
  {
    (x: T) => key(x) == k
  }

  lemma {:induction false} InsertIsStable<T(!new)>(x: T, s: seq<T>, key: T -> real, k: real)
    requires NonIncreasing(s, key)
    ensures Filter(Insert(x, s, key), KeyIs(key, k)) ==
      (if key(x) == k then [x] else []) + Filter(s, KeyIs(key, k))
  {
    if |s| > 0 && key(s[0]) > key(x) {
      InsertIsStable(x, s[1..], key, k);
    }
  }

  /** Stability: for every key, the elements with that key keep their input
      order. */
  lemma {:induction false} SortIsStable<T(!new)>(s: seq<T>, key: T -> real, k: real)
    ensures Filter(SortByKeyDescending(s, key), KeyIs(key, k)) == Filter(s, KeyIs(key, k))
  {
    if |s| > 0 {
      SortIsStable(s[1..], key, k);
      SortIsOrdered(s[1..], key);
      InsertIsStable(s[0], SortByKeyDescending(s[1..], key), key, k);
    }
  }

  /** The real numbers of `s` in ascending order (`sort((a, b) => a - b)`). */
  function SortAscending(s: seq<real>): (r: seq<real>)
    ensures |r| == |s|
    ensures multiset(r) == multiset(s)
  {
    SortByKeyDescending(s, (x: real) => -x)
  }

  lemma {:induction false} SortAscendingIsOrdered(s: seq<real>)
    ensures forall i, j :: 0 <= i < j < |s| ==> SortAscending(s)[i] <= SortAscending(s)[j]
  {
    SortIsOrdered(s, (x: real) => -x);
  }

  // ---------------------------------------------------------------------------
  // Order statistics

  function Below(v: real): real -> bool
  {
    (x: real) => x < v
  }

  function AtMost(v: real): real -> bool
  {
    (x: real) => x <= v
  }

  /** Counting does not depend on the order of the elements. */
  lemma {:induction false} CountPermutation<T>(a: seq<T>, b: seq<T>, p: T -> bool)
    requires multiset(a) == multiset(b)
    ensures Count(a, p) == Count(b, p)
    decreases |a|
  {
    if |a| == 0 {
      assert |b| == |multiset(b)| == 0;
    } else {
      var x := a[0];
      assert x in multiset(b);
      var j :| 0 <= j < |b| && b[j] == x;
      var rest := b[..j] + b[j + 1..];
      assert multiset(a[1..]) == multiset(a) - multiset{x} by {
        assert a == [x] + a[1..];
      }
      MultisetWithout(b, j);
      CountPermutation(a[1..], rest, p);
      CountWithout(b, j, p);
      CountWithout(a, 0, p);
    }
  }

  lemma MultisetWithout<T>(b: seq<T>, j: nat)
    requires j < |b|
    ensures multiset(b[..j] + b[j + 1..]) == multiset(b) - multiset{b[j]}
  {
    assert b == b[..j] + [b[j]] + b[j + 1..];
  }

  lemma {:induction false} CountWithout<T>(b: seq<T>, j: nat, p: T -> bool)
    requires j < |b|
    ensures Count(b, p) == (if p(b[j]) then 1 else 0) + Count(b[..j] + b[j + 1..], p)
  {
    if j == 0 {
      assert b[..0] + b[1..] == b[1..];
    } else {
      var tail := b[1..];
      CountWithout(tail, j - 1, p);
      var rest := tail[..j - 1] + tail[j..];
      assert b[..j] + b[j + 1..] == [b[0]] + rest;
      assert ([b[0]] + rest)[1..] == rest;
    }
  }

  predicate Ascending(t: seq<real>)
  {
    forall i, j :: 0 <= i < j < |t| ==> t[i] <= t[j]
  }

  lemma {:induction false} SortedCounts(t: seq<real>, k: nat)
    requires k < |t| && Ascending(t)
    ensures Count(t, Below(t[k])) <= k < Count(t, AtMost(t[k]))
  {
    var v := t[k];
    var pre, post := t[..k], t[k..];
    assert t == pre + post;
    CountAppend(pre, post, Below(v));
    assert forall i :: 0 <= i < |post| ==> !Below(v)(post[i]) by {
      forall i | 0 <= i < |post| ensures !Below(v)(post[i]) {
        assert post[i] == t[k + i];
      }
    }
    CountZero(post, Below(v));
    var upTo, after := t[..k + 1], t[k + 1..];
    assert t == upTo + after;
    CountAppend(upTo, after, AtMost(v));
    assert forall i :: 0 <= i < |upTo| ==> AtMost(v)(upTo[i]) by {
      forall i | 0 <= i < |upTo| ensures AtMost(v)(upTo[i]) {
        assert upTo[i] == t[i];
      }
    }
    CountAll(upTo, AtMost(v));
  }

  /** The element at position `k` of the ascending sort is the `k`-th order
      statistic: at most `k` elements are smaller and more than `k` are not
      larger. These two counts pin the value down. */
  lemma {:induction false} OrderStatistic(s: seq<real>, k: nat)
    requires k < |s|
    ensures Count(s, Below(SortAscending(s)[k])) <= k < Count(s, AtMost(SortAscending(s)[k]))
  {
    var t := SortAscending(s);
    SortAscendingIsOrdered(s);
    assert Ascending(t);
    SortedCounts(t, k);
    CountPermutation(s, t, Below(t[k]));
    CountPermutation(s, t, AtMost(t[k]));
  }

  /** The counts determine the value: two values that both meet them are equal. */
  lemma {:induction false} OrderStatisticUnique(s: seq<real>, k: nat, v: real, w: real)
    requires Count(s, Below(v)) <= k < Count(s, AtMost(v))
    requires Count(s, Below(w)) <= k < Count(s, AtMost(w))
    ensures v == w
  {
    if v < w {
      CountMonotone(s, AtMost(v), Below(w));
    } else if w < v {
      CountMonotone(s, AtMost(w), Below(v));
    }
  }

  lemma {:induction false} CountMonotone<T>(s: seq<T>, p: T -> bool, q: T -> bool)
    requires forall i :: 0 <= i < |s| && p(s[i]) ==> q(s[i])
    ensures Count(s, p) <= Count(s, q)
  {
    if |s| > 0 {
      CountMonotone(s[1..], p, q);
    }
  }
}

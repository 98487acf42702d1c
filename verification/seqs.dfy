/** Sums, filters and means over sequences: the list comprehensions and
    `sum(...)` / `len(...)` expressions the monitors aggregate with. */
module Seqs {

  /** `sum(f(x) for x in s)` over reals. */
  function SumBy<T>(s: seq<T>, f: T -> real): real
  {
    if |s| == 0 then 0.0 else f(s[0]) + SumBy(s[1..], f)
  }

  /** `sum(f(x) for x in s)` over integers. */
  function SumInt<T>(s: seq<T>, f: T -> int): int
  {
    if |s| == 0 then 0 else f(s[0]) + SumInt(s[1..], f)
  }

  /** `[x for x in s if p(x)]`. */
  function Filter<T>(s: seq<T>, p: T -> bool): (r: seq<T>)
    ensures |r| <= |s|
    ensures forall i :: 0 <= i < |r| ==> r[i] in s && p(r[i])
    ensures forall i :: 0 <= i < |s| && p(s[i]) ==> s[i] in r
  {
    if |s| == 0 then []
    else if p(s[0]) then [s[0]] + Filter(s[1..], p)
    else Filter(s[1..], p)
  }

  /** `sum(1 for x in s if p(x))`. */
  function Count<T>(s: seq<T>, p: T -> bool): nat
  {
    |Filter(s, p)|
  }

  /** Arithmetic mean, 0 for the empty sequence (the monitors' "no active
      cluster" convention). */
  function Mean<T>(s: seq<T>, f: T -> real): real
  {
    if |s| == 0 then 0.0 else SumBy(s, f) / (|s| as real)
  }

  function Max(a: real, b: real): real { if a >= b then a else b }
  function Min(a: real, b: real): real { if a <= b then a else b }

  /** Python's `max(lo, min(hi, x))`. */
  function Clamp(x: real, lo: real, hi: real): (r: real)
    requires lo <= hi
    ensures lo <= r <= hi
    ensures lo <= x <= hi ==> r == x
    ensures x < lo ==> r == lo
    ensures x > hi ==> r == hi
  {
    Max(lo, Min(hi, x))
  }

  lemma {:induction false} SumByAppend<T>(a: seq<T>, b: seq<T>, f: T -> real)
    ensures SumBy(a + b, f) == SumBy(a, f) + SumBy(b, f)
  {
    if |a| == 0 {
      assert a + b == b;
    } else {
      assert (a + b)[1..] == a[1..] + b;
      SumByAppend(a[1..], b, f);
    }
  }

  lemma {:induction false} SumIntAppend<T>(a: seq<T>, b: seq<T>, f: T -> int)
    ensures SumInt(a + b, f) == SumInt(a, f) + SumInt(b, f)
  {
    if |a| == 0 {
      assert a + b == b;
    } else {
      assert (a + b)[1..] == a[1..] + b;
      SumIntAppend(a[1..], b, f);
    }
  }

  /** Replacing one element changes the sum by the difference. */
  lemma {:induction false} SumIntUpdate<T>(s: seq<T>, i: nat, v: T, f: T -> int)
    requires i < |s|
    ensures SumInt(s[i := v], f) == SumInt(s, f) - f(s[i]) + f(v)
  {
    if i > 0 {
      assert s[i := v][1..] == s[1..][i - 1 := v];
      SumIntUpdate(s[1..], i - 1, v, f);
    }
  }

  /** A sum does not depend on the order of its terms. */
  lemma {:induction false} SumIntPermutation<T>(a: seq<T>, b: seq<T>, f: T -> int)
    requires multiset(a) == multiset(b)
    ensures SumInt(a, f) == SumInt(b, f)
    decreases |a|
  {
    if |a| == 0 {
      assert |multiset(b)| == 0;
    } else {
      var x := a[0];
      assert x in multiset(b);
      var i :| 0 <= i < |b| && b[i] == x;
      SumIntRemove(b, i, f);
      assert a == [x] + a[1..];
      assert multiset(a[1..]) == multiset(a) - multiset{x};
      SumIntPermutation(a[1..], b[..i] + b[i + 1..], f);
    }
  }

  /** Taking one term out of a sum. */
  lemma {:induction false} SumIntRemove<T>(b: seq<T>, i: nat, f: T -> int)
    requires i < |b|
    ensures SumInt(b, f) == f(b[i]) + SumInt(b[..i] + b[i + 1..], f)
    ensures multiset(b[..i] + b[i + 1..]) == multiset(b) - multiset{b[i]}
  {
    var x, pre, post := b[i], b[..i], b[i + 1..];
    var tail := [x] + post;
    assert b == pre + tail;
    assert tail[1..] == post;
    assert SumInt(b, f) == SumInt(pre, f) + f(x) + SumInt(post, f) by {
      SumIntAppend(pre, tail, f);
    }
    SumIntAppend(pre, post, f);
    assert multiset(b) == multiset(pre) + multiset{x} + multiset(post) by {
      assert multiset(tail) == multiset{x} + multiset(post);
    }
    assert multiset(pre + post) == multiset(pre) + multiset(post);
  }

  /** Every term in [lo, hi] puts the sum in [lo*n, hi*n]. */
  lemma {:induction false} SumByBounds<T>(s: seq<T>, f: T -> real, lo: real, hi: real)
    requires forall i :: 0 <= i < |s| ==> lo <= f(s[i]) <= hi
    ensures lo * (|s| as real) <= SumBy(s, f) <= hi * (|s| as real)
  {
    if |s| > 0 {
      assert lo <= f(s[0]) <= hi;
      SumByBounds(s[1..], f, lo, hi);
      assert (|s| as real) == (|s[1..]| as real) + 1.0;
    }
  }

  /** Non-negative terms give a non-negative sum. */
  lemma {:induction false} SumByNonNegative<T>(s: seq<T>, f: T -> real)
    requires forall i :: 0 <= i < |s| ==> 0.0 <= f(s[i])
    ensures 0.0 <= SumBy(s, f)
  {
    if |s| > 0 {
      SumByNonNegative(s[1..], f);
    }
  }

  /** A mean of terms in [lo, hi] lies in [lo, hi]; the empty mean is 0,
      which lies there when the range contains 0. */
  lemma MeanBounds<T>(s: seq<T>, f: T -> real, lo: real, hi: real)
    requires lo <= 0.0 <= hi
    requires forall i :: 0 <= i < |s| ==> lo <= f(s[i]) <= hi
    ensures lo <= Mean(s, f) <= hi
  {
    if |s| > 0 {
      var n := |s| as real;
      SumByBounds(s, f, lo, hi);
      var m := SumBy(s, f) / n;
      assert SumBy(s, f) == m * n;
      assert lo * n <= m * n <= hi * n;
    }
  }

  /** A mean of a non-empty list of terms in [lo, hi] lies in [lo, hi]. */
  lemma MeanWithin<T>(s: seq<T>, f: T -> real, lo: real, hi: real)
    requires |s| > 0
    requires forall i :: 0 <= i < |s| ==> lo <= f(s[i]) <= hi
    ensures lo <= Mean(s, f) <= hi
  {
    var n := |s| as real;
    SumByBounds(s, f, lo, hi);
    var m := SumBy(s, f) / n;
    assert SumBy(s, f) == m * n;
    assert lo * n <= m * n <= hi * n;
  }

  lemma {:induction false} FilterAppend<T>(a: seq<T>, b: seq<T>, p: T -> bool)
    ensures Filter(a + b, p) == Filter(a, p) + Filter(b, p)
  {
    if |a| == 0 {
      assert a + b == b;
    } else {
      assert (a + b)[1..] == a[1..] + b;
      FilterAppend(a[1..], b, p);
    }
  }

  /** A filter every element passes changes nothing. */
  lemma {:induction false} FilterAll<T>(s: seq<T>, p: T -> bool)
    requires forall i :: 0 <= i < |s| ==> p(s[i])
    ensures Filter(s, p) == s
  {
    if |s| > 0 {
      FilterAll(s[1..], p);
    }
  }

  /** Filters whose tests agree on every element keep the same elements. */
  lemma {:induction false} FilterAgree<T>(s: seq<T>, p: T -> bool, q: T -> bool)
    requires forall i :: 0 <= i < |s| ==> p(s[i]) == q(s[i])
    ensures Filter(s, p) == Filter(s, q)
  {
    if |s| > 0 {
      FilterAgree(s[1..], p, q);
    }
  }
}

/**
 * Sums and arithmetic means over record lists, with the projection (sentiment,
 * rating, engagement ratio, ...) passed as a function. Ratios are exact reals:
 * floating-point rounding is not modelled.
 */
module Stats {

  /** The sum of f over s, accumulated left to right as the source's loops do. */
  function SumOf<T>(s: seq<T>, f: T -> real): real
    decreases |s|
  {
    if |s| == 0 then 0.0 else SumOf(s[..|s| - 1], f) + f(s[|s| - 1])
  }

  /** The arithmetic mean of f over s; 0 for an empty list. */
  function Mean<T>(s: seq<T>, f: T -> real): real
  {
    if |s| == 0 then 0.0 else SumOf(s, f) / (|s| as real)
  }

  lemma {:induction false} SumOfAppend<T>(s: seq<T>, t: seq<T>, f: T -> real)
    ensures SumOf(s + t, f) == SumOf(s, f) + SumOf(t, f)
    decreases |t|
  {
    if |t| == 0 {
      assert s + t == s;
    } else {
      assert (s + t)[..|s + t| - 1] == s + t[..|t| - 1];
      SumOfAppend(s, t[..|t| - 1], f);
    }
  }

  /** Summing does not depend on the order of the list. */
  lemma {:induction false} SumOfPermutation<T>(s: seq<T>, t: seq<T>, f: T -> real)
    requires multiset(s) == multiset(t)
    ensures SumOf(s, f) == SumOf(t, f)
    decreases |s|
  {
    if |s| == 0 {
      assert |t| == |multiset(t)| == 0;
    } else {
      var x := s[|s| - 1];
      assert s == s[..|s| - 1] + [x];
      assert x in multiset(t);
      var j :| 0 <= j < |t| && t[j] == x;
      var rest := t[..j] + t[j + 1..];
      assert t == t[..j] + [x] + t[j + 1..];
      assert multiset(s) == multiset(s[..|s| - 1]) + multiset{x};
      assert multiset(t) == multiset(t[..j]) + multiset{x} + multiset(t[j + 1..]);
      assert multiset(rest) == multiset(t[..j]) + multiset(t[j + 1..]);
      assert multiset(s[..|s| - 1]) == multiset(s) - multiset{x};
      assert multiset(rest) == multiset(t) - multiset{x};
      SumOfPermutation(s[..|s| - 1], rest, f);
      SumOfAppend(t[..j] + [x], t[j + 1..], f);
      SumOfAppend(t[..j], [x], f);
      SumOfAppend(t[..j], t[j + 1..], f);
      assert SumOf([x], f) == f(x) by { assert [x][..0] == []; }
    }
  }

  /** Averaging does not depend on the order of the list. */
  lemma MeanPermutation<T>(s: seq<T>, t: seq<T>, f: T -> real)
    requires multiset(s) == multiset(t)
    ensures Mean(s, f) == Mean(t, f)
  {
    assert |s| == |multiset(s)| == |multiset(t)| == |t|;
    SumOfPermutation(s, t, f);
  }

  lemma {:induction false} SumOfBounds<T>(s: seq<T>, f: T -> real, lo: real, hi: real)
    requires forall i :: 0 <= i < |s| ==> lo <= f(s[i]) <= hi
    ensures (|s| as real) * lo <= SumOf(s, f) <= (|s| as real) * hi
    decreases |s|
  {
    if |s| > 0 {
      var m := |s| - 1;
      SumOfBounds(s[..m], f, lo, hi);
      assert SumOf(s, f) == SumOf(s[..m], f) + f(s[m]);
      assert (|s| as real) * lo == (m as real) * lo + lo;
      assert (|s| as real) * hi == (m as real) * hi + hi;
    }
  }

  /** A mean of values in [lo, hi] lies in [lo, hi]; an empty mean is 0. */
  lemma MeanBounds<T>(s: seq<T>, f: T -> real, lo: real, hi: real)
    requires forall i :: 0 <= i < |s| ==> lo <= f(s[i]) <= hi
    ensures |s| == 0 ==> Mean(s, f) == 0.0
    ensures |s| > 0 ==> lo <= Mean(s, f) <= hi
  {
    if |s| > 0 {
      SumOfBounds(s, f, lo, hi);
      var n := |s| as real;
      assert Mean(s, f) * n == SumOf(s, f);
    }
  }

  /** A sum of non-negative values is non-negative, and positive as soon as one value is. */
  lemma {:induction false} SumOfNonNegative<T>(s: seq<T>, f: T -> real)
    requires forall i :: 0 <= i < |s| ==> 0.0 <= f(s[i])
    ensures 0.0 <= SumOf(s, f)
    ensures (exists i :: 0 <= i < |s| && f(s[i]) > 0.0) ==> SumOf(s, f) > 0.0
    decreases |s|
  {
    if |s| > 0 {
      SumOfNonNegative(s[..|s| - 1], f);
      if exists i :: 0 <= i < |s| && f(s[i]) > 0.0 {
        var i :| 0 <= i < |s| && f(s[i]) > 0.0;
        if i < |s| - 1 {
          assert f(s[..|s| - 1][i]) > 0.0;
        }
      }
    }
  }
}

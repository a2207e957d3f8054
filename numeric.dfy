/**
 * Arithmetic over sequences of closing prices shared by the indicator engine and the
 * summary statistics: the `reduce((a, b) => a + b, 0)` sum, the population variance
 * numerator, the arithmetic mean and `Math.max` / `Math.min` over a whole series.
 */
module Numeric {

  /** `values.reduce((a, b) => a + b, 0)`: a left fold of `+` starting at zero. */
  function Sum(s: seq<real>): real
    decreases |s|
  {
    if |s| == 0 then 0.0 else Sum(s[..|s| - 1]) + s[|s| - 1]
  }

  lemma {:induction false} SumAppend(a: seq<real>, b: seq<real>)
    ensures Sum(a + b) == Sum(a) + Sum(b)
    decreases |b|
  {
    if |b| == 0 {
      assert a + b == a;
    } else {
      assert (a + b)[..|a + b| - 1] == a + b[..|b| - 1];
      SumAppend(a, b[..|b| - 1]);
    }
  }

  /** A series of `|s|` copies of `c` sums to `|s| * c`. */
  lemma {:induction false} SumConstant(s: seq<real>, c: real)
    requires forall i :: 0 <= i < |s| ==> s[i] == c
    ensures Sum(s) == |s| as real * c
    decreases |s|
  {
    if |s| > 0 {
      SumConstant(s[..|s| - 1], c);
    }
  }

  /** Bounding every element bounds the sum. */
  lemma {:induction false} SumBounds(s: seq<real>, lo: real, hi: real)
    requires forall i :: 0 <= i < |s| ==> lo <= s[i] <= hi
    ensures |s| as real * lo <= Sum(s) <= |s| as real * hi
    decreases |s|
  {
    if |s| > 0 {
      SumBounds(s[..|s| - 1], lo, hi);
      var k := (|s| - 1) as real;
      assert |s| as real * lo == k * lo + lo;
      assert |s| as real * hi == k * hi + hi;
    }
  }

  lemma {:induction false} SumNonNegative(s: seq<real>)
    requires forall i :: 0 <= i < |s| ==> s[i] >= 0.0
    ensures Sum(s) >= 0.0
    decreases |s|
  {
    if |s| > 0 {
      SumNonNegative(s[..|s| - 1]);
    }
  }

  /** The arithmetic mean `sum / length`. */
  function Mean(s: seq<real>): real
    requires |s| > 0
  {
    Sum(s) / |s| as real
  }

  /** `s.reduce((acc, val) => acc + (val - m) ** 2, 0)`: the sum of squared deviations from `m`. */
  function SumSqDev(s: seq<real>, m: real): real
    decreases |s|
  {
    if |s| == 0 then 0.0
    else SumSqDev(s[..|s| - 1], m) + (s[|s| - 1] - m) * (s[|s| - 1] - m)
  }

  lemma {:induction false} SumSqDevNonNegative(s: seq<real>, m: real)
    ensures SumSqDev(s, m) >= 0.0
    decreases |s|
  {
    if |s| > 0 {
      SumSqDevNonNegative(s[..|s| - 1], m);
      var d := s[|s| - 1] - m;
      if d < 0.0 {
        assert d * d == (-d) * (-d);
      }
    }
  }

  /** A series equal to `m` everywhere has no deviation from `m`. */
  lemma {:induction false} SumSqDevConstant(s: seq<real>, m: real)
    requires forall i :: 0 <= i < |s| ==> s[i] == m
    ensures SumSqDev(s, m) == 0.0
    decreases |s|
  {
    if |s| > 0 {
      SumSqDevConstant(s[..|s| - 1], m);
    }
  }

  /** The mean of a constant series is that constant. */
  lemma MeanConstant(s: seq<real>, c: real)
    requires |s| > 0
    requires forall i :: 0 <= i < |s| ==> s[i] == c
    ensures Mean(s) == c
  {
    SumConstant(s, c);
  }

  /** `Math.max(...s)` over a non-empty series. */
  function Max(s: seq<real>): (r: real)
    requires |s| > 0
    ensures forall i :: 0 <= i < |s| ==> s[i] <= r
    decreases |s|
  {
    if |s| == 1 then s[0]
    else
      var m := Max(s[..|s| - 1]);
      if s[|s| - 1] > m then s[|s| - 1] else m
  }

  /** `Math.min(...s)` over a non-empty series. */
  function Min(s: seq<real>): (r: real)
    requires |s| > 0
    ensures forall i :: 0 <= i < |s| ==> r <= s[i]
    decreases |s|
  {
    if |s| == 1 then s[0]
    else
      var m := Min(s[..|s| - 1]);
      if s[|s| - 1] < m then s[|s| - 1] else m
  }

  /** `Math.max` and `Math.min` return elements of the series. */
  lemma {:induction false} MaxMinAttained(s: seq<real>)
    requires |s| > 0
    ensures Max(s) in s && Min(s) in s
    decreases |s|
  {
    if |s| > 1 {
      MaxMinAttained(s[..|s| - 1]);
      assert s[..|s| - 1] <= s;
    }
  }

  /** The mean of a series lies between its smallest and its largest element. */
  lemma MeanWithinRange(s: seq<real>)
    requires |s| > 0
    ensures Min(s) <= Mean(s) <= Max(s)
  {
    SumWithinRange(s);
    DivideBounds(Sum(s), |s| as real, Min(s), Max(s));
  }

  lemma SumWithinRange(s: seq<real>)
    requires |s| > 0
    ensures |s| as real * Min(s) <= Sum(s) <= |s| as real * Max(s)
  {
    SumBounds(s, Min(s), Max(s));
  }

  /** Dividing `lo * n <= a <= hi * n` by a positive `n`. */
  lemma DivideBounds(a: real, n: real, lo: real, hi: real)
    requires n > 0.0
    requires n * lo <= a <= n * hi
    ensures lo <= a / n <= hi
  {
    assert (a / n) * n == a;
  }

  /**
   * What the model assumes of `Math.sqrt`, taken as a parameter: it never returns a
   * negative number and maps zero to zero.
   */
  ghost predicate SqrtLaws(sqrt: real -> real)
  {
    (forall x :: sqrt(x) >= 0.0) && sqrt(0.0) == 0.0
  }

  /** The population standard deviation: `sqrt(sum((x - mean)^2) / length)`. */
  function StdDev(s: seq<real>, sqrt: real -> real): real
    requires |s| > 0
  {
    sqrt(SumSqDev(s, Mean(s)) / |s| as real)
  }

  /** Under the laws of `sqrt`, a standard deviation is never negative. */
  lemma StdDevNonNegative(s: seq<real>, sqrt: real -> real)
    requires |s| > 0 && SqrtLaws(sqrt)
    ensures StdDev(s, sqrt) >= 0.0
  {
  }

  /** A constant series has standard deviation zero and its mean is the constant. */
  lemma StdDevConstant(s: seq<real>, c: real, sqrt: real -> real)
    requires |s| > 0 && SqrtLaws(sqrt)
    requires forall i :: 0 <= i < |s| ==> s[i] == c
    ensures Mean(s) == c && StdDev(s, sqrt) == 0.0
  {
    MeanConstant(s, c);
    SumSqDevConstant(s, c);
    assert SumSqDev(s, Mean(s)) / |s| as real == 0.0;
  }
}

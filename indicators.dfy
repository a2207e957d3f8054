/**
 * The technical-indicator engine: simple and exponential moving averages, the relative
 * strength index with Wilder smoothing, and Bollinger Bands over a series of closes.
 * Prices are reals; `null` in an output is `None`.
 */
module Indicators {
  import opened Wrappers
  import opened Numeric

  // ---------------------------------------------------------------------------
  // Simple moving average
  // ---------------------------------------------------------------------------

  /** The trailing window `data.slice(idx - period + 1, idx + 1)` of `period` closes ending at `idx`. */
  function Window(data: seq<real>, idx: int, period: nat): (w: seq<real>)
    requires 1 <= period && period - 1 <= idx < |data|
    ensures |w| == period
  {
    data[idx - period + 1 .. idx + 1]
  }

  /** `calculateSMA`: the mean of each full trailing window, `null` during the warm-up. */
  function Sma(data: seq<real>, period: nat): (r: seq<Option<real>>)
    requires period >= 1
    ensures |r| == |data|
  {
    seq(|data|, idx requires 0 <= idx < |data| =>
      if idx < period - 1 then None else Some(Sum(Window(data, idx, period)) / period as real))
  }

  /** The warm-up nulls are exactly the first `period - 1` entries; every other entry is the window mean. */
  lemma SmaWarmUp(data: seq<real>, period: nat, idx: int)
    requires period >= 1 && 0 <= idx < |data|
    ensures Sma(data, period)[idx].None? <==> idx < period - 1
    ensures idx >= period - 1 ==> Sma(data, period)[idx] == Some(Mean(Window(data, idx, period)))
  {
  }

  /** A series shorter than the period yields only nulls, of the series' own length. */
  lemma SmaShortSeries(data: seq<real>, period: nat)
    requires period >= 1 && |data| < period
    ensures Sma(data, period) == seq(|data|, _ => None)
  {
  }

  /** Each defined SMA value lies between the least and the greatest close of its window. */
  lemma SmaWithinWindow(data: seq<real>, period: nat, idx: int)
    requires period >= 1 && period - 1 <= idx < |data|
    ensures Min(Window(data, idx, period)) <= Sma(data, period)[idx].value <= Max(Window(data, idx, period))
  {
    MeanWithinRange(Window(data, idx, period));
  }

  /** On a constant series every defined SMA value is that constant. */
  lemma SmaConstant(data: seq<real>, period: nat, c: real)
    requires period >= 1
    requires forall i :: 0 <= i < |data| ==> data[i] == c
    ensures forall idx :: period - 1 <= idx < |data| ==> Sma(data, period)[idx] == Some(c)
  {
    forall idx | period - 1 <= idx < |data|
      ensures Sma(data, period)[idx] == Some(c)
    {
      MeanConstant(Window(data, idx, period), c);
    }
  }

  /**
   * The sliding-window recurrence: moving the window one step adds the entering close
   * and drops the leaving one, each weighted by `1 / period`.
   */
  lemma SmaSlide(data: seq<real>, period: nat, idx: int)
    requires period >= 1 && period <= idx < |data|
    ensures Sma(data, period)[idx].value
         == Sma(data, period)[idx - 1].value + (data[idx] - data[idx - period]) / period as real
  {
    var before, after := Window(data, idx - 1, period), Window(data, idx, period);
    var middle := data[idx - period + 1 .. idx];
    assert before == [data[idx - period]] + middle;
    assert after == middle + [data[idx]];
    SumAppend([data[idx - period]], middle);
    SumAppend(middle, [data[idx]]);
    assert Sum([data[idx - period]]) == data[idx - period];
    assert Sum([data[idx]]) == data[idx];
    var x := data[idx] - data[idx - period];
    assert Sum(after) == Sum(before) + x;
    DivideSum(Sum(before), x, period as real);
  }

  /** Division by a positive number distributes over a sum. */
  lemma DivideSum(a: real, b: real, p: real)
    requires p > 0.0
    ensures (a + b) / p == a / p + b / p
  {
    assert (a / p + b / p) * p == a + b;
  }

  // ---------------------------------------------------------------------------
  // Exponential moving average
  // ---------------------------------------------------------------------------

  /** The smoothing constant `k = 2 / (period + 1)`. */
  function Alpha(period: nat): real
  {
    2.0 / (period as real + 1.0)
  }

  lemma AlphaRange(period: nat)
    requires period >= 1
    ensures 0.0 < Alpha(period) <= 1.0
  {
  }

  /** One EMA step: `close * k + previous * (1 - k)`. */
  function EmaNext(close: real, previous: real, period: nat): real
  {
    close * Alpha(period) + previous * (1.0 - Alpha(period))
  }

  /** `calculateEMA`, stated on prefixes: the series seeded with the first close, then `close * k + previous * (1 - k)`. */
  function Ema(data: seq<real>, period: nat): (r: seq<real>)
    ensures |r| == |data|
    decreases |data|
  {
    if |data| <= 1 then data
    else
      var prev := Ema(data[..|data| - 1], period);
      prev + [EmaNext(data[|data| - 1], prev[|prev| - 1], period)]
  }

  /** One unfolding of `Ema`, element by element. */
  lemma EmaUnfold(data: seq<real>, period: nat)
    requires |data| > 1
    ensures Ema(data, period)[..|data| - 1] == Ema(data[..|data| - 1], period)
    ensures Ema(data, period) == Ema(data[..|data| - 1], period) + [EmaNext(data[|data| - 1], Ema(data[..|data| - 1], period)[|data| - 2], period)]
  {
  }

  /** The EMA of a prefix is the prefix of the EMA: no later close changes an earlier value. */
  lemma {:induction false} EmaPrefix(data: seq<real>, period: nat, m: nat)
    requires m <= |data|
    ensures Ema(data, period)[..m] == Ema(data[..m], period)
    decreases |data|
  {
    if m == |data| {
      assert data[..m] == data;
    } else if |data| == 1 {
      assert m == 0;
    } else {
      var init := data[..|data| - 1];
      EmaUnfold(data, period);
      EmaPrefix(init, period, m);
      assert init[..m] == data[..m];
      assert Ema(data, period)[..m] == Ema(data, period)[..|data| - 1][..m];
    }
  }

  /** One step of the recurrence, at index `i`. */
  lemma EmaStep(data: seq<real>, period: nat, i: nat)
    requires 1 <= i < |data|
    ensures Ema(data, period)[i] == EmaNext(data[i], Ema(data, period)[i - 1], period)
  {
    var pre := data[..i + 1];
    EmaPrefix(data, period, i + 1);
    EmaUnfold(pre, period);
    assert pre[..|pre| - 1] == data[..i];
    EmaPrefix(data, period, i);
    assert Ema(data, period)[i] == Ema(pre, period)[i];
    assert Ema(data, period)[i - 1] == Ema(data, period)[..i][i - 1];
  }

  /** The EMA recurrence at every index: `ema[0] == data[0]`, `ema[i] == data[i] * k + ema[i - 1] * (1 - k)`. */
  lemma EmaRecurrence(data: seq<real>, period: nat)
    ensures |data| > 0 ==> Ema(data, period)[0] == data[0]
    ensures forall i :: 1 <= i < |data| ==> Ema(data, period)[i] == EmaNext(data[i], Ema(data, period)[i - 1], period)
  {
    if |data| > 0 {
      EmaPrefix(data, period, 1);
      assert data[..1] == [data[0]];
    }
    forall i | 1 <= i < |data|
      ensures Ema(data, period)[i] == EmaNext(data[i], Ema(data, period)[i - 1], period)
    {
      EmaStep(data, period, i);
    }
  }

  lemma EmaNextWithin(x: real, e: real, period: nat, lo: real, hi: real)
    requires period >= 1 && lo <= x <= hi && lo <= e <= hi
    ensures lo <= EmaNext(x, e, period) <= hi
  {
    var k := Alpha(period);
    AlphaRange(period);
    MulMonotone(lo, x, k);
    MulMonotone(x, hi, k);
    MulMonotone(lo, e, 1.0 - k);
    MulMonotone(e, hi, 1.0 - k);
    assert lo * k + lo * (1.0 - k) == lo && hi * k + hi * (1.0 - k) == hi;
  }

  lemma MulMonotone(a: real, b: real, c: real)
    requires a <= b && 0.0 <= c
    ensures a * c <= b * c
  {
    assert b * c - a * c == (b - a) * c;
  }

  /** A period of at least one makes every EMA value a convex mix of closes: it stays within their bounds. */
  lemma {:induction false} EmaWithinRange(data: seq<real>, period: nat, lo: real, hi: real)
    requires period >= 1
    requires forall i :: 0 <= i < |data| ==> lo <= data[i] <= hi
    ensures forall i :: 0 <= i < |data| ==> lo <= Ema(data, period)[i] <= hi
    decreases |data|
  {
    if |data| > 1 {
      var init := data[..|data| - 1];
      EmaWithinRange(init, period, lo, hi);
      EmaUnfold(data, period);
      var prev := Ema(init, period);
      var x, e := data[|data| - 1], prev[|prev| - 1];
      assert lo <= e <= hi;
      EmaNextWithin(x, e, period, lo, hi);
      assert Ema(data, period)[..|data| - 1] == prev;
      forall i | 0 <= i < |data|
        ensures lo <= Ema(data, period)[i] <= hi
      {
        if i < |data| - 1 {
          assert Ema(data, period)[i] == prev[i];
        }
      }
    }
  }

  /** A constant series has a constant EMA, for any period. */
  lemma {:induction false} EmaConstant(data: seq<real>, period: nat, c: real)
    requires forall i :: 0 <= i < |data| ==> data[i] == c
    ensures forall i :: 0 <= i < |data| ==> Ema(data, period)[i] == c
    decreases |data|
  {
    if |data| > 1 {
      var init := data[..|data| - 1];
      EmaConstant(init, period, c);
      EmaUnfold(data, period);
      var k := Alpha(period);
      assert EmaNext(c, c, period) == c * k + c * (1.0 - k) == c;
      forall i | 0 <= i < |data|
        ensures Ema(data, period)[i] == c
      {
        if i < |data| - 1 {
          assert Ema(data, period)[i] == Ema(data, period)[..|data| - 1][i];
        }
      }
    }
  }

  /** `calculateEMA`: the `forEach` that pushes onto `emaArray`, reading back the previous entry. */
  method CalculateEma(data: seq<real>, period: nat) returns (emaArray: seq<real>)
    ensures emaArray == Ema(data, period)
  {
    var k := 2.0 / (period as real + 1.0);
    emaArray := [];
    var idx := 0;
    while idx < |data|
      invariant 0 <= idx <= |data|
      invariant emaArray == Ema(data[..idx], period)
    {
      var pre := data[..idx + 1];
      assert pre[..|pre| - 1] == data[..idx];
      assert k == Alpha(period);
      if idx == 0 {
        emaArray := emaArray + [data[idx]];
        assert pre == [data[0]];
      } else {
        var next := data[idx] * k + emaArray[idx - 1] * (1.0 - k);
        assert next == EmaNext(data[idx], emaArray[idx - 1], period);
        emaArray := emaArray + [next];
        EmaUnfold(pre, period);
        assert emaArray == Ema(pre, period);
      }
      idx := idx + 1;
    }
    assert data[..idx] == data;
  }

  // ---------------------------------------------------------------------------
  // Relative strength index
  // ---------------------------------------------------------------------------

  function Gain(diff: real): real { if diff > 0.0 then diff else 0.0 }

  function Loss(diff: real): real { if diff < 0.0 then -diff else 0.0 }

  /** The per-step gains `max(0, diff)` over the `n - 1` successive differences. */
  function Gains(data: seq<real>): (g: seq<real>)
    ensures |g| == if |data| == 0 then 0 else |data| - 1
  {
    if |data| == 0 then []
    else seq(|data| - 1, i requires 0 <= i < |data| - 1 => Gain(data[i + 1] - data[i]))
  }

  /** The per-step losses `|diff|` for a falling step, zero otherwise. */
  function Losses(data: seq<real>): (l: seq<real>)
    ensures |l| == if |data| == 0 then 0 else |data| - 1
  {
    if |data| == 0 then []
    else seq(|data| - 1, i requires 0 <= i < |data| - 1 => Loss(data[i + 1] - data[i]))
  }

  ghost predicate NonNegative(s: seq<real>)
  {
    forall i :: 0 <= i < |s| ==> s[i] >= 0.0
  }

  /**
   * Gains and losses are non-negative, at most one of the two is non-zero at each step,
   * and their difference gives back the step.
   */
  lemma GainsLosses(data: seq<real>)
    ensures NonNegative(Gains(data)) && NonNegative(Losses(data))
    ensures forall i :: 0 <= i < |Gains(data)| ==> Gains(data)[i] == 0.0 || Losses(data)[i] == 0.0
    ensures forall i :: 0 <= i < |Gains(data)| ==> Gains(data)[i] - Losses(data)[i] == data[i + 1] - data[i]
  {
    var g, l := Gains(data), Losses(data);
    forall i | 0 <= i < |g|
      ensures g[i] >= 0.0 && l[i] >= 0.0 && (g[i] == 0.0 || l[i] == 0.0) && g[i] - l[i] == data[i + 1] - data[i]
    {
      assert g[i] == Gain(data[i + 1] - data[i]) && l[i] == Loss(data[i + 1] - data[i]);
    }
  }

  /** The seed `xs.slice(0, period).reduce(+) / period`; with fewer than `period` steps it sums all of them. */
  function Seed(xs: seq<real>, period: nat): real
    requires period >= 1
  {
    Sum(xs[..if period < |xs| then period else |xs|]) / period as real
  }

  /** One Wilder step: `(average * (period - 1) + x) / period`. */
  function WilderNext(average: real, x: real, period: nat): real
    requires period >= 1
  {
    (average * (period - 1) as real + x) / period as real
  }

  lemma WilderNextNonNegative(average: real, x: real, period: nat)
    requires period >= 1 && average >= 0.0 && x >= 0.0
    ensures WilderNext(average, x, period) >= 0.0
  {
    assert average * (period - 1) as real >= 0.0;
  }

  /**
   * The running average once the first `count` entries of `xs` have been taken in: the
   * seed for `count == period`, then one Wilder step per further entry.
   */
  function Average(xs: seq<real>, period: nat, count: nat): real
    requires 1 <= period <= count && (count == period || count <= |xs|)
    decreases count
  {
    if count == period then Seed(xs, period)
    else WilderNext(Average(xs, period, count - 1), xs[count - 1], period)
  }

  /** One more entry taken in is one Wilder step on the previous average. */
  lemma AverageStep(xs: seq<real>, period: nat, count: nat)
    requires 1 <= period <= count < |xs|
    ensures Average(xs, period, count + 1) == WilderNext(Average(xs, period, count), xs[count], period)
  {
  }

  lemma SeedNonNegative(xs: seq<real>, period: nat)
    requires period >= 1 && NonNegative(xs)
    ensures Seed(xs, period) >= 0.0
  {
    SumNonNegative(xs[..if period < |xs| then period else |xs|]);
  }

  /** The averages stay non-negative through the seed and every smoothing step. */
  lemma {:induction false} AverageNonNegative(xs: seq<real>, period: nat, count: nat)
    requires 1 <= period <= count && (count == period || count <= |xs|) && NonNegative(xs)
    ensures Average(xs, period, count) >= 0.0
    decreases count
  {
    if count == period {
      SeedNonNegative(xs, period);
    } else {
      AverageNonNegative(xs, period, count - 1);
      WilderNextNonNegative(Average(xs, period, count - 1), xs[count - 1], period);
    }
  }

  /** With no step of that kind at all, the average stays exactly zero. */
  lemma {:induction false} AverageZero(xs: seq<real>, period: nat, count: nat)
    requires 1 <= period <= count && (count == period || count <= |xs|)
    requires forall j :: 0 <= j < |xs| ==> xs[j] == 0.0
    ensures Average(xs, period, count) == 0.0
    decreases count
  {
    if count == period {
      var n := if period < |xs| then period else |xs|;
      SumConstant(xs[..n], 0.0);
    } else {
      AverageZero(xs, period, count - 1);
    }
  }

  /**
   * `100 - 100 / (1 + rs)` with `rs = avgLoss === 0 ? 100 : avgGain / avgLoss`: always in
   * `[0, 100)`, the constant `100 - 100/101` when nothing was lost, and otherwise the
   * textbook `100 * avgGain / (avgGain + avgLoss)`.
   */
  function RsiPoint(avgGain: real, avgLoss: real): (v: real)
    requires avgGain >= 0.0 && avgLoss >= 0.0
    ensures 0.0 <= v < 100.0
    ensures avgLoss == 0.0 ==> v == 100.0 - 100.0 / 101.0
  {
    var rs := if avgLoss == 0.0 then 100.0 else avgGain / avgLoss;
    RsiPointBounds(rs);
    100.0 - 100.0 / (1.0 + rs)
  }

  /** When something was lost, the value is the textbook `100 * avgGain / (avgGain + avgLoss)`. */
  lemma RsiPointTextbook(avgGain: real, avgLoss: real)
    requires avgGain >= 0.0 && avgLoss > 0.0
    ensures RsiPoint(avgGain, avgLoss) == 100.0 * avgGain / (avgGain + avgLoss)
  {
    RsiTextbook(avgGain, avgLoss);
  }

  lemma RsiPointBounds(rs: real)
    requires rs >= 0.0
    ensures 0.0 <= 100.0 - 100.0 / (1.0 + rs) < 100.0
  {
    var q := 100.0 / (1.0 + rs);
    assert q * (1.0 + rs) == 100.0;
    assert q > 0.0;
    assert q <= 100.0;
  }

  /** `100 - 100 / (1 + g/l)` is the textbook `100 g / (g + l)`. */
  lemma RsiTextbook(g: real, l: real)
    requires g >= 0.0 && l > 0.0
    ensures 100.0 - 100.0 / (1.0 + g / l) == 100.0 * g / (g + l)
  {
    var t := g + l;
    var q := g / l;
    assert q * l == g;
    var d := 1.0 + q;
    assert d * l == t;
    var u := 100.0 / d;
    assert u * d == 100.0;
    assert u * t == (u * d) * l;
    assert u * t == 100.0 * l;
    assert (100.0 - u) * t == 100.0 * g;
    DivideExact(100.0 * g, t, 100.0 - u);
  }

  lemma DivideExact(a: real, t: real, x: real)
    requires t > 0.0 && x * t == a
    ensures x == a / t
  {
  }

  /** The RSI value pushed at smoothing step `i`. */
  function RsiAt(gains: seq<real>, losses: seq<real>, period: nat, i: nat): (v: real)
    requires 1 <= period <= i < |gains| == |losses|
    requires NonNegative(gains) && NonNegative(losses)
    ensures 0.0 <= v < 100.0
  {
    AverageNonNegative(gains, period, i + 1);
    AverageNonNegative(losses, period, i + 1);
    RsiPoint(Average(gains, period, i + 1), Average(losses, period, i + 1))
  }

  /** Number of smoothing steps: one per difference after the first `period`. */
  function RsiSteps(data: seq<real>, period: nat): nat
  {
    if |Gains(data)| > period then |Gains(data)| - period else 0
  }

  /** `calculateRSI`: `period` nulls followed by one value per smoothing step. */
  function Rsi(data: seq<real>, period: nat): (r: seq<Option<real>>)
    requires period >= 1
  {
    seq(period + RsiSteps(data, period), i requires 0 <= i < period + RsiSteps(data, period) =>
      GainsLosses(data);
      if i < period then None else Some(RsiAt(Gains(data), Losses(data), period, i)))
  }

  /**
   * The output length is `period + max(0, (n - 1) - period)`: one short of the input once
   * the input is longer than the period, and exactly `period` (possibly longer than the
   * input) otherwise.
   */
  lemma RsiLength(data: seq<real>, period: nat)
    requires period >= 1
    ensures |data| > period ==> |Rsi(data, period)| == |data| - 1
    ensures |data| <= period ==> |Rsi(data, period)| == period
  {
  }

  /** The first `period` entries are null and every later one is a value. */
  lemma RsiWarmUp(data: seq<real>, period: nat)
    requires period >= 1
    ensures forall i :: 0 <= i < |Rsi(data, period)| ==> (Rsi(data, period)[i].None? <==> i < period)
  {
  }

  /** Every RSI value lies in `[0, 100)`; 100 itself is never reached. */
  lemma RsiRange(data: seq<real>, period: nat)
    requires period >= 1
    ensures forall i :: 0 <= i < |Rsi(data, period)| && Rsi(data, period)[i].Some? ==>
      0.0 <= Rsi(data, period)[i].value < 100.0
  {
  }

  /**
   * A series that never falls (a constant one in particular) has no losses, and then every
   * RSI value is `100 - 100/101`, not 100.
   */
  lemma RsiNeverFalling(data: seq<real>, period: nat)
    requires period >= 1
    requires forall i :: 1 <= i < |data| ==> data[i - 1] <= data[i]
    ensures forall i :: 0 <= i < |Rsi(data, period)| && Rsi(data, period)[i].Some? ==>
      Rsi(data, period)[i].value == 100.0 - 100.0 / 101.0
  {
    NoLosses(data);
    GainsLosses(data);
    forall i | period <= i < |Gains(data)|
      ensures RsiAt(Gains(data), Losses(data), period, i) == 100.0 - 100.0 / 101.0
    {
      RsiAtNoLoss(Gains(data), Losses(data), period, i);
    }
  }

  /** A series that never falls has a zero loss at every step. */
  lemma NoLosses(data: seq<real>)
    requires forall i :: 1 <= i < |data| ==> data[i - 1] <= data[i]
    ensures forall j :: 0 <= j < |Losses(data)| ==> Losses(data)[j] == 0.0
  {
  }

  /** With every loss zero, the RSI value at any step is `100 - 100/101`. */
  lemma RsiAtNoLoss(gains: seq<real>, losses: seq<real>, period: nat, i: nat)
    requires 1 <= period <= i < |gains| == |losses|
    requires NonNegative(gains) && NonNegative(losses)
    requires forall j :: 0 <= j < |losses| ==> losses[j] == 0.0
    ensures RsiAt(gains, losses, period, i) == 100.0 - 100.0 / 101.0
  {
    AverageZero(losses, period, i + 1);
  }

  /** `calculateRSI`: two loops that push gains/losses and then reassign the running averages. */
  method CalculateRsi(data: seq<real>, period: nat) returns (rsi: seq<Option<real>>)
    requires period >= 1
    ensures rsi == Rsi(data, period)
  {
    var gains, losses := Differences(data);
    GainsLosses(data);
    var rsiArray := Smooth(gains, losses, period);
    var nulls: seq<Option<real>> := seq(period, _ => None);
    rsi := nulls + seq(|rsiArray|, j requires 0 <= j < |rsiArray| => Some(rsiArray[j]));
    RsiAssembled(data, period, rsiArray, rsi);
  }

  /** The first loop of `calculateRSI`: one gain and one loss per consecutive pair. */
  method Differences(data: seq<real>) returns (gains: seq<real>, losses: seq<real>)
    ensures gains == Gains(data) && losses == Losses(data)
  {
    gains, losses := [], [];
    var i := 1;
    while i < |data|
      invariant 1 <= i <= if |data| == 0 then 1 else |data|
      invariant |gains| == |losses| == i - 1
      invariant forall j :: 0 <= j < i - 1 ==> gains[j] == Gain(data[j + 1] - data[j])
      invariant forall j :: 0 <= j < i - 1 ==> losses[j] == Loss(data[j + 1] - data[j])
    {
      var diff := data[i] - data[i - 1];
      gains := gains + [if diff > 0.0 then diff else 0.0];
      losses := losses + [if diff < 0.0 then -diff else 0.0];
      i := i + 1;
    }
    DifferencesAre(data, gains, losses);
  }

  /**
   * The seeds and the second loop of `calculateRSI`: one RSI value per step after the
   * first `period`.
   */
  method Smooth(gains: seq<real>, losses: seq<real>, period: nat) returns (rsiArray: seq<real>)
    requires period >= 1 && |gains| == |losses|
    requires NonNegative(gains) && NonNegative(losses)
    ensures |rsiArray| == if |gains| > period then |gains| - period else 0
    ensures forall j :: 0 <= j < |rsiArray| ==> rsiArray[j] == RsiAt(gains, losses, period, period + j)
  {
    var avgGain := Seed(gains, period);
    var avgLoss := Seed(losses, period);
    SeedNonNegative(gains, period);
    SeedNonNegative(losses, period);
    rsiArray := [];
    var k := period;
    while k < |gains|
      invariant period <= k && (k <= |gains| || k == period)
      invariant |rsiArray| == k - period
      invariant forall j :: 0 <= j < k - period ==> rsiArray[j] == RsiAt(gains, losses, period, period + j)
      invariant avgGain == Average(gains, period, k) && avgLoss == Average(losses, period, k)
    {
      AverageStep(gains, period, k);
      AverageStep(losses, period, k);
      avgGain := WilderNext(avgGain, gains[k], period);
      avgLoss := WilderNext(avgLoss, losses[k], period);
      AverageNonNegative(gains, period, k + 1);
      AverageNonNegative(losses, period, k + 1);
      ghost var before := rsiArray;
      rsiArray := rsiArray + [RsiPoint(avgGain, avgLoss)];
      assert forall j :: 0 <= j < |before| ==> rsiArray[j] == before[j];
      assert rsiArray[k - period] == RsiAt(gains, losses, period, k);
      k := k + 1;
    }
  }

  /** The two lists the first loop of `calculateRSI` builds are `Gains` and `Losses`. */
  lemma DifferencesAre(data: seq<real>, gains: seq<real>, losses: seq<real>)
    requires |gains| == |losses| == if |data| == 0 then 0 else |data| - 1
    requires forall j :: 0 <= j < |gains| ==> gains[j] == Gain(data[j + 1] - data[j])
    requires forall j :: 0 <= j < |losses| ==> losses[j] == Loss(data[j + 1] - data[j])
    ensures gains == Gains(data) && losses == Losses(data)
  {
    var g, l := Gains(data), Losses(data);
    assert forall j :: 0 <= j < |g| ==> g[j] == gains[j];
    assert forall j :: 0 <= j < |l| ==> l[j] == losses[j];
  }

  /** `Array(period).fill(null).concat(rsiArray)` is `Rsi`. */
  lemma RsiAssembled(data: seq<real>, period: nat, rsiArray: seq<real>, rsi: seq<Option<real>>)
    requires period >= 1
    requires |rsiArray| == RsiSteps(data, period)
    requires NonNegative(Gains(data)) && NonNegative(Losses(data))
    requires forall j :: 0 <= j < |rsiArray| ==> rsiArray[j] == RsiAt(Gains(data), Losses(data), period, period + j)
    requires rsi == seq(period, _ => None) + seq(|rsiArray|, j requires 0 <= j < |rsiArray| => Some(rsiArray[j]))
    ensures rsi == Rsi(data, period)
  {
    var r := Rsi(data, period);
    assert |rsi| == |r|;
    forall i | 0 <= i < |r|
      ensures rsi[i] == r[i]
    {
      if i >= period {
        assert rsi[i] == Some(rsiArray[i - period]);
      }
    }
  }

  // ---------------------------------------------------------------------------
  // Bollinger Bands
  // ---------------------------------------------------------------------------

  datatype Bands = Bands(upper: seq<Option<real>>, lower: seq<Option<real>>)

  /** The upper band at a full window: `mean + multiplier * stdDev`. */
  function UpperBand(w: seq<real>, multiplier: real, sqrt: real -> real): real
    requires |w| > 0
  {
    Mean(w) + multiplier * StdDev(w, sqrt)
  }

  /** The lower band at a full window: `mean - multiplier * stdDev`. */
  function LowerBand(w: seq<real>, multiplier: real, sqrt: real -> real): real
    requires |w| > 0
  {
    Mean(w) - multiplier * StdDev(w, sqrt)
  }

  /** `calculateBollingerBands`: window mean plus and minus `multiplier` standard deviations. */
  function Bollinger(data: seq<real>, period: nat, multiplier: real, sqrt: real -> real): (b: Bands)
    requires period >= 1
    ensures |b.upper| == |b.lower| == |data|
  {
    Bands(
      seq(|data|, i requires 0 <= i < |data| =>
        if i < period - 1 then None
        else Some(UpperBand(Window(data, i, period), multiplier, sqrt))),
      seq(|data|, i requires 0 <= i < |data| =>
        if i < period - 1 then None
        else Some(LowerBand(Window(data, i, period), multiplier, sqrt))))
  }

  /** Both bands are null exactly during the SMA warm-up, and the same entries as the SMA are null. */
  lemma BollingerWarmUp(data: seq<real>, period: nat, multiplier: real, sqrt: real -> real)
    requires period >= 1
    ensures forall i :: 0 <= i < |data| ==>
      (Bollinger(data, period, multiplier, sqrt).upper[i].None? <==> i < period - 1) &&
      (Bollinger(data, period, multiplier, sqrt).lower[i].None? <==> i < period - 1) &&
      (Sma(data, period)[i].None? <==> i < period - 1)
  {
  }

  /**
   * The bands are symmetric about the window mean, which is the SMA of the same period (so
   * the unused `sma` of the source carries no information the bands lack).
   */
  lemma BollingerCentredOnSma(data: seq<real>, period: nat, multiplier: real, sqrt: real -> real, i: int)
    requires period >= 1 && period - 1 <= i < |data|
    ensures var b := Bollinger(data, period, multiplier, sqrt);
      b.upper[i].value - Sma(data, period)[i].value == Sma(data, period)[i].value - b.lower[i].value
  {
  }

  /** With a non-negative multiplier the upper band never lies below the lower band. */
  lemma BollingerOrdered(data: seq<real>, period: nat, multiplier: real, sqrt: real -> real, i: int)
    requires period >= 1 && period - 1 <= i < |data|
    requires multiplier >= 0.0 && SqrtLaws(sqrt)
    ensures Bollinger(data, period, multiplier, sqrt).lower[i].value <= Bollinger(data, period, multiplier, sqrt).upper[i].value
  {
    var w := Window(data, i, period);
    StdDevNonNegative(w, sqrt);
    assert multiplier * StdDev(w, sqrt) >= 0.0;
  }

  /** A constant window has no spread: both bands equal that constant. */
  lemma BollingerFlatWindow(data: seq<real>, period: nat, multiplier: real, sqrt: real -> real, i: int, c: real)
    requires period >= 1 && period - 1 <= i < |data|
    requires SqrtLaws(sqrt)
    requires forall j :: i - period + 1 <= j <= i ==> data[j] == c
    ensures Bollinger(data, period, multiplier, sqrt).upper[i] == Some(c)
    ensures Bollinger(data, period, multiplier, sqrt).lower[i] == Some(c)
  {
    var w := Window(data, i, period);
    assert forall j :: 0 <= j < |w| ==> w[j] == data[i - period + 1 + j];
    MeanConstant(w, c);
    StdDevConstant(w, c, sqrt);
  }

  /** `calculateBollingerBands`: the index loop that pushes onto `upper` and `lower`. */
  method CalculateBollingerBands(data: seq<real>, period: nat, multiplier: real, sqrt: real -> real)
    returns (upper: seq<Option<real>>, lower: seq<Option<real>>)
    requires period >= 1
    ensures Bands(upper, lower) == Bollinger(data, period, multiplier, sqrt)
  {
    upper, lower := [], [];
    var i := 0;
    while i < |data|
      invariant 0 <= i <= |data|
      invariant |upper| == |lower| == i
      invariant forall j :: 0 <= j < i ==> upper[j] == Bollinger(data, period, multiplier, sqrt).upper[j]
      invariant forall j :: 0 <= j < i ==> lower[j] == Bollinger(data, period, multiplier, sqrt).lower[j]
    {
      if i < period - 1 {
        upper := upper + [None];
        lower := lower + [None];
      } else {
        var slice := data[i - period + 1 .. i + 1];
        var mean := Sum(slice) / period as real;
        var stdDev := sqrt(SumSqDev(slice, mean) / period as real);
        assert slice == Window(data, i, period);
        assert mean == Mean(slice) && stdDev == StdDev(slice, sqrt);
        var up, low := mean + multiplier * stdDev, mean - multiplier * stdDev;
        assert up == UpperBand(slice, multiplier, sqrt) && low == LowerBand(slice, multiplier, sqrt);
        upper := upper + [Some(up)];
        lower := lower + [Some(low)];
      }
      i := i + 1;
    }
  }

}

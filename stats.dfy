/**
 * The summary of a price series that the KPI card and the comparison table both compute.
 * It covers the last close, the close before it (with the `|| latest` fallback), the
 * percentage change between the two, the trend, the mean, and the extremes. The KPI card
 * also takes the standard deviation from `Numeric`.
 */
module SummaryStats {
  import opened Wrappers
  import opened Numeric

  datatype Trend = Up | Down

  /** `values[values.length - 1]`. */
  function Latest(values: seq<real>): real
    requires |values| > 0
  {
    values[|values| - 1]
  }

  /**
   * `values[values.length - 2] || latest`. With a single value the index is `-1` and gives
   * `undefined`; that and a close of exactly 0 are falsy, and both fall back to the latest.
   */
  function Prev(values: seq<real>): real
    requires |values| > 0
  {
    if |values| >= 2 && values[|values| - 2] != 0.0 then values[|values| - 2] else Latest(values)
  }

  /** `((latest - prev) / prev) * 100`. When `prev` is 0 the quotient is `0/0`, `NaN`, here `None`. */
  function Change(values: seq<real>): Option<real>
    requires |values| > 0
  {
    var prev := Prev(values);
    if prev == 0.0 then None else Some((Latest(values) - prev) / prev * 100.0)
  }

  /** `latest >= prev ? "up" : "down"`. */
  function TrendOf(values: seq<real>): Trend
    requires |values| > 0
  {
    if Latest(values) >= Prev(values) then Up else Down
  }

  /**
   * The previous close used is the one before the last exactly when there is one and it
   * is not 0; otherwise it is the last close itself.
   */
  lemma PrevFallback(values: seq<real>)
    requires |values| > 0
    ensures Prev(values) == Latest(values) <==>
      |values| == 1 || values[|values| - 2] == 0.0 || values[|values| - 2] == Latest(values)
    ensures Prev(values) != 0.0 || Latest(values) == 0.0
  {
  }

  /** The change is undefined only for a last close of 0 with a falsy close before it. */
  lemma ChangeUndefined(values: seq<real>)
    requires |values| > 0
    ensures Change(values).None? <==>
      Latest(values) == 0.0 && (|values| == 1 || values[|values| - 2] == 0.0)
  {
  }

  /**
   * The sign of the change agrees with the trend when the previous close is positive and
   * is opposite to it when it is negative; it is zero exactly when the two closes agree.
   */
  lemma ChangeMatchesTrend(values: seq<real>)
    requires |values| > 0 && Change(values).Some?
    ensures Change(values).value == 0.0 <==> Latest(values) == Prev(values)
    ensures Prev(values) > 0.0 ==> (Change(values).value >= 0.0 <==> TrendOf(values) == Up)
    ensures Prev(values) < 0.0 ==> (Change(values).value >= 0.0 <==> Latest(values) <= Prev(values))
  {
    var prev := Prev(values);
    var d := Latest(values) - prev;
    var q := d / prev;
    assert q * prev == d;
    if prev > 0.0 {
      assert q >= 0.0 <==> d >= 0.0;
    } else {
      assert q >= 0.0 <==> d <= 0.0;
    }
  }

  /** A single close always trends up, with no change unless the close is 0. */
  lemma SingleValue(x: real)
    ensures TrendOf([x]) == Up
    ensures Change([x]) == if x == 0.0 then None else Some(0.0)
  {
  }

  /** The latest close and the mean both lie between the minimum and the maximum. */
  lemma StatsWithinRange(values: seq<real>)
    requires |values| > 0
    ensures Min(values) <= Latest(values) <= Max(values)
    ensures Min(values) <= Mean(values) <= Max(values)
  {
    MeanWithinRange(values);
  }
}

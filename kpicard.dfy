/**
 * The data side of the KPI card. It checks the fetched series, summarises it, and computes
 * the four indicators it plots with fixed periods.
 */
module KpiCard {
  import opened Wrappers
  import opened Numeric
  import opened Indicators
  import opened SummaryStats
  import opened Fetching

  const SMA_PERIOD: nat := 7
  const EMA_PERIOD: nat := 14
  const RSI_PERIOD: nat := 14
  const BOLLINGER_PERIOD: nat := 20
  /** `calculateBollingerBands(values, 20)` takes the default multiplier. */
  const BOLLINGER_MULTIPLIER: real := 2.0

  const INVALID_DATA: string := "Datos inv\U{00E1}lidos"
  const FETCH_FAILED: string := "Error al obtener datos"

  /** `kpiStats`, before `toFixed(2)` turns the mean and the deviation into text. */
  datatype Stats = Stats(latest: real, change: Option<real>, max: real, min: real,
                         avg: real, stdDev: real, trend: Trend)

  /** What the card shows: an error text, or the series with its indicators and stats. */
  datatype Card =
    | Failed(error: string)
    | Ready(labels: seq<string>, values: seq<real>, sma: seq<Option<real>>, ema: seq<real>,
            rsi: seq<Option<real>>, bands: Bands, stats: Stats)

  /** The stats block over a non-empty series. */
  function Summarize(values: seq<real>, sqrt: real -> real): Stats
    requires |values| > 0
  {
    Stats(Latest(values), Change(values), Max(values), Min(values), Mean(values),
          StdDev(values, sqrt), TrendOf(values))
  }

  /**
   * The `then` and `catch` handlers. A rejected fetch shows its message, or a fixed text
   * when the message is empty. A payload without labels or without data is invalid.
   */
  function CardOf(fetch: Fetch, sqrt: real -> real): Card
  {
    if fetch.Rejected? then
      Failed(if |fetch.message| > 0 then fetch.message else FETCH_FAILED)
    else if !HasLabels(fetch) || !HasData(fetch) then Failed(INVALID_DATA)
    else
      var labels := fetch.realData.value.labels.value;
      var values := fetch.realData.value.data.value;
      Ready(labels, values, Sma(values, SMA_PERIOD), Ema(values, EMA_PERIOD),
            Rsi(values, RSI_PERIOD), Bollinger(values, BOLLINGER_PERIOD, BOLLINGER_MULTIPLIER, sqrt),
            Summarize(values, sqrt))
  }

  /**
   * The card is ready exactly when the fetch resolved with non-empty labels and non-empty
   * data. Otherwise it shows the rejection's message, a fixed text when that message is
   * empty, or "Datos inválidos".
   */
  lemma CardValidity(fetch: Fetch, sqrt: real -> real)
    ensures CardOf(fetch, sqrt).Ready? <==> HasLabels(fetch) && HasData(fetch)
    ensures fetch.Rejected? ==>
      CardOf(fetch, sqrt).error == (if |fetch.message| > 0 then fetch.message else FETCH_FAILED)
    ensures fetch.Resolved? && !(HasLabels(fetch) && HasData(fetch)) ==>
      CardOf(fetch, sqrt) == Failed(INVALID_DATA)
  {
  }

  /**
   * A ready card plots the closes as they came. Its SMA has 6 nulls, then values. Its EMA
   * starts at the first close. Its RSI has 14 nulls, then values in `[0, 100)`. Both
   * Bollinger bands have 19 nulls. Every series has the length of the closes, except the
   * RSI, which has `n - 1` entries for `n > 14` and 14 otherwise.
   */
  lemma CardIndicators(fetch: Fetch, sqrt: real -> real)
    requires CardOf(fetch, sqrt).Ready?
    ensures var c := CardOf(fetch, sqrt);
      var n := |c.values|;
      c.values == fetch.realData.value.data.value && n > 0 &&
      |c.sma| == n && (forall i :: 0 <= i < n ==> (c.sma[i].None? <==> i < 6)) &&
      |c.ema| == n && c.ema[0] == c.values[0] &&
      |c.rsi| == (if n > 14 then n - 1 else 14) &&
      (forall i :: 0 <= i < |c.rsi| ==> (c.rsi[i].None? <==> i < 14)) &&
      (forall i :: 0 <= i < |c.rsi| && c.rsi[i].Some? ==> 0.0 <= c.rsi[i].value < 100.0) &&
      |c.bands.upper| == |c.bands.lower| == n &&
      (forall i :: 0 <= i < n ==> (c.bands.upper[i].None? <==> i < 19) && (c.bands.lower[i].None? <==> i < 19))
  {
    var values := fetch.realData.value.data.value;
    forall i | 0 <= i < |values| {
      SmaWarmUp(values, SMA_PERIOD, i);
    }
    EmaRecurrence(values, EMA_PERIOD);
    RsiLength(values, RSI_PERIOD);
    RsiWarmUp(values, RSI_PERIOD);
    RsiRange(values, RSI_PERIOD);
    BollingerWarmUp(values, BOLLINGER_PERIOD, BOLLINGER_MULTIPLIER, sqrt);
  }

  /**
   * The stats of a ready card. The latest close and the mean lie between the minimum and
   * the maximum. The deviation is not negative. The trend is up exactly when the latest
   * close is at least the previous one.
   */
  lemma CardStats(fetch: Fetch, sqrt: real -> real)
    requires CardOf(fetch, sqrt).Ready? && SqrtLaws(sqrt)
    ensures var c := CardOf(fetch, sqrt);
      var s := c.stats;
      s.min <= s.latest <= s.max && s.min <= s.avg <= s.max && s.stdDev >= 0.0 &&
      s.latest == c.values[|c.values| - 1] &&
      (s.trend == Up <==> s.latest >= Prev(c.values))
  {
    var values := fetch.realData.value.data.value;
    StatsWithinRange(values);
    StdDevNonNegative(values, sqrt);
  }

  /** A constant series has both extremes, the mean and the latest close at that constant, no deviation and an upward trend. */
  lemma CardFlatSeries(values: seq<real>, c: real, sqrt: real -> real)
    requires |values| > 0 && SqrtLaws(sqrt)
    requires forall i :: 0 <= i < |values| ==> values[i] == c
    ensures var s := Summarize(values, sqrt);
      s.latest == s.max == s.min == s.avg == c && s.stdDev == 0.0 && s.trend == Up
  {
    StdDevConstant(values, c, sqrt);
    MaxMinAttained(values);
  }
}

/**
 * The comparison table's `fetchAll`. It goes through the symbols in order, awaits each
 * fetch, and stores one row of stats per symbol in `newData`. A symbol whose fetch fails,
 * or whose payload is unusable, is skipped.
 */
module DataTable {
  import opened Wrappers
  import opened Numeric
  import opened SummaryStats
  import opened Fetching

  /** One row of `newData`, before `toFixed(2)` turns each number into text. */
  datatype Row = Row(latest: real, change: Option<real>, max: real, min: real, avg: real)

  /**
   * The body of one iteration. A rejected fetch is caught. A payload without labels is
   * skipped by the `continue`. When `data` is absent, `values.length` throws. When `data`
   * is empty, `latest` is `undefined` and `latest.toFixed` throws, and both throws are
   * caught. Only non-empty data produces a row.
   */
  function RowOf(fetch: Fetch): (row: Option<Row>)
    ensures row.Some? <==> HasLabels(fetch) && HasData(fetch)
  {
    if !HasLabels(fetch) || !HasData(fetch) then None
    else
      var values := fetch.realData.value.data.value;
      Some(Row(Latest(values), Change(values), Max(values), Min(values), Mean(values)))
  }

  /** The stats in a row agree with its series: the average and the latest close lie between the extremes. */
  lemma RowWithinRange(fetch: Fetch)
    requires RowOf(fetch).Some?
    ensures var r := RowOf(fetch).value;
      r.min <= r.avg <= r.max && r.min <= r.latest <= r.max
  {
    StatsWithinRange(fetch.realData.value.data.value);
  }

  /** `newData` after the first `|fetches|` symbols: each usable fetch sets its symbol's row. */
  function Table(symbols: seq<string>, fetches: seq<Fetch>): map<string, Row>
    requires |symbols| == |fetches|
    decreases |symbols|
  {
    if |symbols| == 0 then map[]
    else
      var n := |symbols| - 1;
      var before := Table(symbols[..n], fetches[..n]);
      var row := RowOf(fetches[n]);
      if row.Some? then before[symbols[n] := row.value] else before
  }

  /** The `for (let symbol of symbols)` loop that fills `newData`. */
  method FetchAll(symbols: seq<string>, fetches: seq<Fetch>) returns (newData: map<string, Row>)
    requires |symbols| == |fetches|
    ensures newData == Table(symbols, fetches)
  {
    newData := map[];
    var i := 0;
    while i < |symbols|
      invariant 0 <= i <= |symbols|
      invariant newData == Table(symbols[..i], fetches[..i])
    {
      assert symbols[..i + 1][..i] == symbols[..i] && fetches[..i + 1][..i] == fetches[..i];
      var fetch := fetches[i];
      if HasLabels(fetch) && HasData(fetch) {
        var values := fetch.realData.value.data.value;
        var latest := values[|values| - 1];
        var prev := if |values| >= 2 && values[|values| - 2] != 0.0 then values[|values| - 2] else latest;
        var change := if prev == 0.0 then None else Some((latest - prev) / prev * 100.0);
        newData := newData[symbols[i] := Row(latest, change, Max(values), Min(values), Mean(values))];
      }
      i := i + 1;
    }
    assert symbols[..i] == symbols && fetches[..i] == fetches;
  }

  /**
   * A symbol has a row exactly when one of its occurrences had a usable fetch. That row
   * comes from the last such occurrence: later failures do not erase it, and symbols
   * after a failure are still processed.
   */
  lemma {:induction false} TableRows(symbols: seq<string>, fetches: seq<Fetch>, s: string)
    requires |symbols| == |fetches|
    ensures s in Table(symbols, fetches) <==>
      exists i :: 0 <= i < |symbols| && symbols[i] == s && RowOf(fetches[i]).Some?
    ensures s in Table(symbols, fetches) ==>
      exists i :: 0 <= i < |symbols| && symbols[i] == s && RowOf(fetches[i]).Some? &&
        Table(symbols, fetches)[s] == RowOf(fetches[i]).value &&
        forall j :: i < j < |symbols| && symbols[j] == s ==> RowOf(fetches[j]).None?
    decreases |symbols|
  {
    if |symbols| > 0 {
      var n := |symbols| - 1;
      var ps, pf := symbols[..n], fetches[..n];
      TableRows(ps, pf, s);
      if symbols[n] == s && RowOf(fetches[n]).Some? {
        assert symbols[n] == s;
      } else if s in Table(ps, pf) {
        var i :| 0 <= i < n && ps[i] == s && RowOf(pf[i]).Some? && Table(ps, pf)[s] == RowOf(pf[i]).value &&
          forall j :: i < j < n && ps[j] == s ==> RowOf(pf[j]).None?;
        assert symbols[i] == s && fetches[i] == pf[i];
        assert forall j :: i < j < |symbols| && symbols[j] == s ==> RowOf(fetches[j]).None? by {
          forall j | i < j < |symbols| && symbols[j] == s
            ensures RowOf(fetches[j]).None?
          {
            if j < n {
              assert ps[j] == symbols[j] && pf[j] == fetches[j];
            }
          }
        }
      } else {
        forall i | 0 <= i < |symbols| && symbols[i] == s
          ensures RowOf(fetches[i]).None?
        {
          if i < n {
            assert ps[i] == symbols[i] && pf[i] == fetches[i];
          }
        }
      }
    }
  }

  /** Every key of `newData` is one of the symbols. */
  lemma TableKeys(symbols: seq<string>, fetches: seq<Fetch>)
    requires |symbols| == |fetches|
    ensures forall s :: s in Table(symbols, fetches) ==> s in symbols
  {
    forall s | s in Table(symbols, fetches)
      ensures s in symbols
    {
      TableRows(symbols, fetches, s);
    }
  }
}

/**
 * The comparison chart's merge of the settled fetches, one per symbol in symbol order. A
 * failed fetch has become `null`. Every result with labels adds a dataset coloured by its
 * symbol's index, and the first such result supplies the x-axis labels.
 */
module ComparativeChart {
  import opened Wrappers
  import opened Fetching

  /** A colour by its red, green and blue channels, each spelled in decimal. */
  datatype Channels = Channels(r: string, g: string, b: string)

  /** `rgb(r,g,b)`. */
  function Rgb(c: Channels): string
  {
    "rgb(" + c.r + "," + c.g + "," + c.b + ")"
  }

  /** The channels of the fixed palette. */
  const Palette: seq<Channels> := [
    Channels("75", "192", "192"), Channels("255", "99", "132"), Channels("54", "162", "235"),
    Channels("255", "206", "86"), Channels("153", "102", "255"), Channels("255", "159", "64"),
    Channels("99", "255", "132"), Channels("200", "100", "200")]

  /** The fixed palette, indexed by `idx % colors.length`. */
  const Colors: seq<string> := [
    Rgb(Palette[0]), Rgb(Palette[1]), Rgb(Palette[2]), Rgb(Palette[3]),
    Rgb(Palette[4]), Rgb(Palette[5]), Rgb(Palette[6]), Rgb(Palette[7])]

  const NO_DATA: string := "No hay datos v\U{00E1}lidos para mostrar."

  /** One line of the chart, with its `label` (the symbol); `data` is taken as it is, even when absent. */
  datatype Dataset = Dataset(symbol: string, data: Option<seq<real>>, borderColor: string, backgroundColor: string)

  /** The chart data, or the error shown when not one result was usable. */
  datatype View = NoData(error: string) | Chart(labels: seq<string>, datasets: seq<Dataset>)

  /** `s.replace(c, r)` with a one-character search string: only the first `c` is replaced. */
  function ReplaceFirst(s: string, c: char, r: string): string
  {
    if |s| == 0 then s
    else if s[0] == c then r + s[1..]
    else [s[0]] + ReplaceFirst(s[1..], c, r)
  }

  /** A string without `c`, followed by `c`, gets `r` in place of that last character. */
  lemma {:induction false} ReplaceAtEnd(a: string, c: char, r: string)
    requires c !in a
    ensures ReplaceFirst(a + [c], c, r) == a + r
  {
    if |a| > 0 {
      assert (a + [c])[1..] == a[1..] + [c];
      ReplaceAtEnd(a[1..], c, r);
      assert [a[0]] + (a[1..] + r) == a + r;
    }
  }

  /** `color.replace(")", ",0.2)")`. */
  function Background(color: string): string
  {
    ReplaceFirst(color, ')', ",0.2)")
  }

  /** The background of an `rgb` colour whose channels have no `)` adds the alpha `0.2` as a fourth argument. */
  lemma BackgroundOfRgb(c: Channels)
    requires ')' !in c.r && ')' !in c.g && ')' !in c.b
    ensures Background(Rgb(c)) == "rgb(" + c.r + "," + c.g + "," + c.b + ",0.2)"
  {
    var a := "rgb(" + c.r + "," + c.g + "," + c.b;
    assert ')' !in a;
    assert Rgb(c) == a + [')'];
    ReplaceAtEnd(a, ')', ",0.2)");
  }

  /** Every colour of the palette gets the same colour with alpha `0.2` as its background. */
  lemma PaletteBackgrounds()
    ensures |Colors| == 8
    ensures forall k :: 0 <= k < 8 ==>
      Background(Colors[k]) == "rgb(" + Palette[k].r + "," + Palette[k].g + "," + Palette[k].b + ",0.2)"
  {
    forall k | 0 <= k < 8
      ensures Background(Colors[k]) == "rgb(" + Palette[k].r + "," + Palette[k].g + "," + Palette[k].b + ",0.2)"
    {
      var c := Palette[k];
      assert Colors[k] == Rgb(c);
      assert ')' !in c.r && ')' !in c.g && ')' !in c.b;
      BackgroundOfRgb(c);
    }
  }

  /** The positions below `n`, in order, whose result has labels. */
  function Usable(results: seq<Fetch>, n: nat): (idx: seq<nat>)
    requires n <= |results|
    ensures |idx| <= n
    ensures forall k :: 0 <= k < |idx| ==> idx[k] < n && HasLabels(results[idx[k]])
  {
    if n == 0 then []
    else Usable(results, n - 1) + (if HasLabels(results[n - 1]) then [n - 1] else [])
  }

  /** The dataset the result at `idx` contributes. */
  function DatasetAt(symbols: seq<string>, results: seq<Fetch>, idx: nat): Dataset
    requires |symbols| == |results| && idx < |results| && HasLabels(results[idx])
  {
    var color := Colors[idx % |Colors|];
    Dataset(symbols[idx], results[idx].realData.value.data, color, Background(color))
  }

  /** The x-axis labels after the first `n` results: those of the first usable one, or none. */
  function FirstLabels(results: seq<Fetch>, n: nat): seq<string>
    requires n <= |results|
  {
    var idx := Usable(results, n);
    if |idx| == 0 then [] else LabelsOf(results[idx[0]])
  }

  /** What the component shows once `fetchAll` is done. */
  function Merge(symbols: seq<string>, results: seq<Fetch>): View
    requires |symbols| == |results|
  {
    var idx := Usable(results, |results|);
    if |idx| == 0 then NoData(NO_DATA)
    else Chart(FirstLabels(results, |results|),
               seq(|idx|, k requires 0 <= k < |idx| => DatasetAt(symbols, results, idx[k])))
  }

  /** `results.forEach`, then the emptiness test. */
  method MergeResults(symbols: seq<string>, results: seq<Fetch>) returns (view: View)
    requires |symbols| == |results|
    ensures view == Merge(symbols, results)
  {
    var datasets: seq<Dataset> := [];
    var labels: seq<string> := [];
    var idx := 0;
    while idx < |results|
      invariant 0 <= idx <= |results|
      invariant Merged(symbols, results, idx, labels, datasets)
    {
      ghost var labels0, datasets0 := labels, datasets;
      var realData := results[idx];
      if HasLabels(realData) {
        if |labels| == 0 {
          labels := realData.realData.value.labels.value;
        }
        var color := Colors[idx % |Colors|];
        datasets := datasets + [Dataset(symbols[idx], realData.realData.value.data, color, Background(color))];
      }
      MergeStep(symbols, results, idx, labels0, datasets0, labels, datasets);
      idx := idx + 1;
    }
    MergeDone(symbols, results, labels, datasets);
    if |datasets| == 0 {
      view := NoData(NO_DATA);
    } else {
      view := Chart(labels, datasets);
    }
  }

  /** The loop's state after the first `n` results: the first labels found, and one dataset per usable result. */
  ghost predicate Merged(symbols: seq<string>, results: seq<Fetch>, n: nat, labels: seq<string>, datasets: seq<Dataset>)
    requires |symbols| == |results| && n <= |results|
  {
    labels == FirstLabels(results, n) &&
    |datasets| == |Usable(results, n)| &&
    forall k :: 0 <= k < |datasets| ==> datasets[k] == DatasetAt(symbols, results, Usable(results, n)[k])
  }

  /** One round of `forEach`: the result at `n` is taken in when it has labels. */
  lemma MergeStep(symbols: seq<string>, results: seq<Fetch>, n: nat,
                  labels: seq<string>, datasets: seq<Dataset>, labels': seq<string>, datasets': seq<Dataset>)
    requires |symbols| == |results| && n < |results|
    requires Merged(symbols, results, n, labels, datasets)
    requires labels' == if HasLabels(results[n]) && |labels| == 0 then LabelsOf(results[n]) else labels
    requires datasets' == if HasLabels(results[n]) then datasets + [DatasetAt(symbols, results, n)] else datasets
    ensures Merged(symbols, results, n + 1, labels', datasets')
  {
    FirstLabelsStep(results, n);
  }

  /** Once every result is taken in, the loop's state is `Merge`: no dataset is the error, any other the chart. */
  lemma MergeDone(symbols: seq<string>, results: seq<Fetch>, labels: seq<string>, datasets: seq<Dataset>)
    requires |symbols| == |results|
    requires Merged(symbols, results, |results|, labels, datasets)
    ensures Merge(symbols, results) == if |datasets| == 0 then NoData(NO_DATA) else Chart(labels, datasets)
  {
  }

  /** The first labels stay once found; before that, the result at `n` supplies them if it has any. */
  lemma FirstLabelsStep(results: seq<Fetch>, n: nat)
    requires n < |results|
    ensures |FirstLabels(results, n)| == 0 <==> |Usable(results, n)| == 0
    ensures FirstLabels(results, n + 1) ==
      if |Usable(results, n)| > 0 then FirstLabels(results, n)
      else if HasLabels(results[n]) then LabelsOf(results[n]) else []
  {
    var u := Usable(results, n);
    if |u| > 0 {
      assert Usable(results, n + 1)[0] == u[0];
    }
  }

  /**
   * The usable positions are exactly the results with labels, strictly increasing. The
   * k-th dataset therefore comes from position `Usable[k] >= k`. Its colour skips one
   * palette entry for every symbol before it that had no labels.
   */
  lemma {:induction false} UsableExactly(results: seq<Fetch>, n: nat)
    requires n <= |results|
    ensures forall i :: 0 <= i < n ==> (HasLabels(results[i]) <==> i in Usable(results, n))
    ensures forall k, l :: 0 <= k < l < |Usable(results, n)| ==> Usable(results, n)[k] < Usable(results, n)[l]
    ensures forall k :: 0 <= k < |Usable(results, n)| ==> Usable(results, n)[k] >= k
  {
    if n > 0 {
      UsableExactly(results, n - 1);
      var p := Usable(results, n - 1);
      var u := Usable(results, n);
      forall i | 0 <= i < n
        ensures HasLabels(results[i]) <==> i in u
      {
        if i < n - 1 {
          assert i in u <==> i in p;
        } else {
          assert n - 1 !in p;
        }
      }
      forall k, l | 0 <= k < l < |u|
        ensures u[k] < u[l]
      {
        if l >= |p| {
          assert u[l] == n - 1 && u[k] == p[k];
        }
      }
      forall k | 0 <= k < |u|
        ensures u[k] >= k
      {
        if k >= |p| {
          assert u[k] == n - 1;
        }
      }
    }
  }

  /**
   * The chart shows an error exactly when no result had labels. Otherwise its labels are
   * those of the first result with labels, and its datasets are one per such result, in
   * symbol order. Each is labelled with its symbol and coloured by its symbol's position.
   */
  lemma MergeOutcome(symbols: seq<string>, results: seq<Fetch>)
    requires |symbols| == |results|
    ensures Merge(symbols, results).NoData? <==> forall i :: 0 <= i < |results| ==> !HasLabels(results[i])
    ensures Merge(symbols, results).NoData? ==> Merge(symbols, results).error == NO_DATA
    ensures Merge(symbols, results).Chart? ==>
      exists f :: 0 <= f < |results| && HasLabels(results[f]) &&
        (forall j :: 0 <= j < f ==> !HasLabels(results[j])) &&
        Merge(symbols, results).labels == LabelsOf(results[f]) &&
        Merge(symbols, results).datasets[0].symbol == symbols[f] &&
        Merge(symbols, results).datasets[0].borderColor == Colors[f % 8]
  {
    UsableExactly(results, |results|);
    var idx := Usable(results, |results|);
    if |idx| > 0 {
      var f := idx[0];
      forall j | 0 <= j < f
        ensures !HasLabels(results[j])
      {
      }
    } else {
      forall i | 0 <= i < |results|
        ensures !HasLabels(results[i])
      {
        assert i !in idx;
      }
    }
  }

  /**
   * With every result usable, the colours follow the palette in order, wrapping after
   * eight. Each dataset keeps its own data, whatever its length against the labels.
   */
  lemma AllUsable(symbols: seq<string>, results: seq<Fetch>)
    requires |symbols| == |results| > 0
    requires forall i :: 0 <= i < |results| ==> HasLabels(results[i])
    ensures Merge(symbols, results) ==
      Chart(LabelsOf(results[0]),
            seq(|results|, k requires 0 <= k < |results| => DatasetAt(symbols, results, k)))
  {
    UsableAll(results, |results|);
  }

  lemma {:induction false} UsableAll(results: seq<Fetch>, n: nat)
    requires n <= |results|
    requires forall i :: 0 <= i < n ==> HasLabels(results[i])
    ensures Usable(results, n) == seq(n, i requires 0 <= i < n => i)
  {
    if n > 0 {
      UsableAll(results, n - 1);
    }
  }
}

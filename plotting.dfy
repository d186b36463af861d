/**
 * The two lists `running_average` extends in place (the data columns and
 * `metadata['labels']['series']`) and the per-series choice of label and
 * x-data made by the drawing loop of `plot_data`.
 */
module Plotting {
  import opened Builtins
  import opened Smoothing
  import opened Xvg

  /** The suffix `running_average` gives an averaged series' label and `plot_data` looks for. */
  const AverageMarker := "(Av)"

  /**
   * `'{0} (Av)'.format(label)`: the original label, one space, then the
   * marker that `plot_data` looks for.
   */
  function AveragedName(legend: string): (r: string)
    ensures |r| == |legend| + 1 + |AverageMarker|
    ensures r[..|legend|] == legend && r[|legend|] == ' '
    ensures EndsWith(r, AverageMarker)
  {
    assert (legend + " (Av)")[|legend| + 1..] == AverageMarker;
    legend + " (Av)"
  }

  /** Every column has length `len`. */
  predicate Rectangular(data: seq<seq<real>>, len: nat) {
    forall j :: 0 <= j < |data| ==> |data[j]| == len
  }

  /** Every dependent series has at least one value, as `np.convolve` requires. */
  predicate SeriesNonEmpty(data: seq<seq<real>>) {
    forall j :: 1 <= j < |data| ==> |data[j]| > 0
  }

  /** The data after `running_average`: one smoothed series appended per dependent series, in order. */
  function Averaged(data: seq<seq<real>>, window: nat): seq<seq<real>>
    requires window > 0 && SeriesNonEmpty(data)
  {
    data + seq(NumSeries(data), i requires 0 <= i < NumSeries(data) => RunningMean(data[i + 1], window))
  }

  /** The labels after `running_average`: one averaged label appended per dependent series, in order. */
  function AveragedLabels(labels: seq<string>, n: nat): seq<string>
    requires n <= |labels|
  {
    labels + seq(n, i requires 0 <= i < n => AveragedName(labels[i]))
  }

  /** The label of series `i`: `labels[i]`, or "" when the list is too short. */
  function LabelFor(labels: seq<string>, i: nat): string {
    if i < |labels| then labels[i] else ""
  }

  /** The x-data of a series: `x[window - 1:]` for an averaged label, `x` otherwise. */
  function XDataFor(x: seq<real>, legend: string, window: int): seq<real> {
    if EndsWith(legend, AverageMarker) then SliceFrom(x, window - 1) else x
  }

  /** What one call of `ax.plot` receives, without its colour. */
  datatype Trace = Trace(x: seq<real>, y: seq<real>, legend: string)

  /** The trace `plot_data` draws for series `i`. */
  function TraceAt(data: seq<seq<real>>, labels: seq<string>, window: int, i: nat): Trace
    requires i < NumSeries(data)
  {
    var legend := LabelFor(labels, i);
    Trace(XDataFor(data[0], legend, window), data[i + 1], legend)
  }

  /** The data columns and series labels of one chart, as `running_average` and `plot_data` share them. */
  class SeriesData {
    var data: seq<seq<real>>
    var labels: seq<string>

    constructor (parsed: Parsed)
      ensures data == parsed.columns && labels == parsed.meta.series
    {
      data := parsed.columns;
      labels := parsed.meta.series;
    }

    /**
     * `running_average`: for every dependent series, in order, append its
     * running mean to the data and its label with " (Av)" to the labels.
     */
    method RunningAverage(window: nat)
      requires window > 0 && SeriesNonEmpty(data)
      requires |labels| >= NumSeries(data)
      modifies this
      ensures data == Averaged(old(data), window)
      ensures labels == AveragedLabels(old(labels), NumSeries(old(data)))
    {
      var snapshot := if data == [] then [] else data[1..];
      var n := 0;
      while n < |snapshot|
        invariant 0 <= n <= |snapshot| == NumSeries(old(data)) <= |old(labels)|
        invariant forall i :: 0 <= i < |snapshot| ==> snapshot[i] == old(data)[i + 1]
        invariant data == old(data) + seq(n, i requires 0 <= i < n => RunningMean(snapshot[i], window))
        invariant labels == AveragedLabels(old(labels), n)
      {
        var smoothed := RunningMean(snapshot[n], window);
        labels := labels + [AveragedName(labels[n])];
        data := data + [smoothed];
        n := n + 1;
      }
    }

    /** The drawing loop of `plot_data`: one trace per dependent series, in order. */
    method Traces(window: int) returns (traces: seq<Trace>)
      ensures |traces| == NumSeries(data)
      ensures forall i :: 0 <= i < |traces| ==> traces[i] == TraceAt(data, labels, window, i)
    {
      traces := [];
      var rest := if data == [] then [] else data[1..];
      for i := 0 to |rest|
        invariant |traces| == i
        invariant forall k :: 0 <= k < i ==> traces[k] == TraceAt(data, labels, window, k)
      {
        var legend := if i < |labels| then labels[i] else "";
        var x := if EndsWith(legend, AverageMarker) then SliceFrom(data[0], window - 1) else data[0];
        traces := traces + [Trace(x, rest[i], legend)];
      }
    }
  }

  /** `smoothed` holds the means of the full windows of `series`, in order. */
  predicate WindowMeans(smoothed: seq<real>, series: seq<real>, window: nat)
    requires 0 < window <= |series|
  {
    |smoothed| == |series| - window + 1 &&
    forall j :: 0 <= j < |smoothed| ==> smoothed[j] == Sum(series[j..j + window]) / window as real
  }

  /**
   * After `running_average` over series of `len` values with a window that
   * fits: column 0 and the original series are unchanged, `n` series are
   * appended, appended series `i` holds the window means of series `i`
   * (`len - window + 1` of them), and the label of appended series `i` is
   * the averaged name of label `i`.
   */
  lemma RunningAverageResult(data: seq<seq<real>>, labels: seq<string>, window: nat, len: nat)
    requires data != [] && Rectangular(data, len) && 0 < window <= len
    requires |labels| >= NumSeries(data)
    ensures var out := Averaged(data, window); var n := NumSeries(data);
      |out| == 1 + 2 * n && out[..|data|] == data &&
      forall i :: 0 <= i < n ==> WindowMeans(out[|data|..][i], data[1..][i], window)
    ensures var out := AveragedLabels(labels, NumSeries(data)); var n := NumSeries(data);
      |out| == |labels| + n && out[..|labels|] == labels &&
      forall i :: 0 <= i < n ==> out[|labels|..][i] == AveragedName(labels[i])
  {
    var out := Averaged(data, window);
    forall i | 0 <= i < NumSeries(data)
      ensures WindowMeans(out[|data|..][i], data[1..][i], window)
    {
      var smoothed, series := out[|data|..][i], data[1..][i];
      assert smoothed == RunningMean(series, window);
      forall j | 0 <= j < len - window + 1
        ensures |smoothed| == len - window + 1 && smoothed[j] == Sum(series[j..j + window]) / window as real
      {
        WindowMean(series, window, j);
      }
      WindowMean(series, window, 0);
    }
  }

  /**
   * When `plot_data` is given the window the series were smoothed with,
   * every averaged series is drawn against an x-axis of its own length;
   * with any other positive window it is not.
   */
  lemma AveragedTraceAligned(data: seq<seq<real>>, labels: seq<string>, window: nat, plotWindow: int, len: nat, i: nat)
    requires data != [] && Rectangular(data, len) && 0 < window <= len
    requires |labels| == NumSeries(data) && i < NumSeries(data) && plotWindow >= 1
    ensures var n := NumSeries(data);
      var t := TraceAt(Averaged(data, window), AveragedLabels(labels, n), plotWindow, n + i);
      t.legend == AveragedName(labels[i]) && t.y == RunningMean(data[i + 1], window) &&
      (|t.x| == |t.y| <==> plotWindow == window)
  {
    var n := NumSeries(data);
    WindowMean(data[i + 1], window, 0);
    assert AveragedLabels(labels, n)[n + i] == AveragedName(labels[i]);
  }

  /** A series whose label does not carry the marker is drawn against the whole x-axis. */
  lemma OriginalTraceAligned(data: seq<seq<real>>, labels: seq<string>, plotWindow: int, len: nat, i: nat)
    requires i < NumSeries(data) && |data[0]| == len && |data[i + 1]| == len
    requires i < |labels| ==> !EndsWith(labels[i], AverageMarker)
    ensures var t := TraceAt(data, labels, plotWindow, i);
      t.x == data[0] && |t.x| == |t.y| == len
  {
    assert !EndsWith("", AverageMarker);
  }

  /**
   * A window longer than the series: NumPy still returns `window - len + 1`
   * values, but slicing the x-axis from `window - 1` leaves nothing, so the
   * averaged series cannot be drawn.
   */
  lemma OversizedWindowMisaligned(data: seq<seq<real>>, labels: seq<string>, window: nat, len: nat, i: nat)
    requires data != [] && Rectangular(data, len) && 0 < len < window
    requires |labels| == NumSeries(data) && i < NumSeries(data)
    ensures var n := NumSeries(data);
      var t := TraceAt(Averaged(data, window), AveragedLabels(labels, n), window, n + i);
      |t.x| == 0 && |t.y| == window - len + 1
  {
    var n := NumSeries(data);
    OversizedWindowMean(data[i + 1], window, 0);
    assert AveragedLabels(labels, n)[n + i] == AveragedName(labels[i]);
  }

  /**
   * With more labels than series, the averaged labels are appended after the
   * surplus ones: the first averaged series is drawn with the first surplus
   * label rather than with an averaged label.
   */
  lemma SurplusLabelsShiftAveragedLabels(data: seq<seq<real>>, labels: seq<string>, window: nat, plotWindow: int)
    requires window > 0 && SeriesNonEmpty(data) && 0 < NumSeries(data) < |labels|
    ensures var n := NumSeries(data);
      TraceAt(Averaged(data, window), AveragedLabels(labels, n), plotWindow, n).legend == labels[n]
  {
  }

  /**
   * From file to plot: when a parsed file labels exactly its series, no
   * label carries the marker, and the same window that fits the rows is
   * used to smooth and to plot, every trace of the smoothed chart has as
   * many x values as y values.
   */
  lemma ParsedChartAligned(lines: seq<string>, lex: Lexer, window: nat)
    requires Parse(lines, lex).Ok?
    requires var p := Parse(lines, lex).value;
      p.columns != [] && 0 < window <= |p.columns[0]| &&
      |p.meta.series| == NumSeries(p.columns) &&
      forall k :: 0 <= k < |p.meta.series| ==> !EndsWith(p.meta.series[k], AverageMarker)
    ensures var p := Parse(lines, lex).value; var n := NumSeries(p.columns);
      forall i :: 0 <= i < 2 * n ==>
        var t := TraceAt(Averaged(p.columns, window), AveragedLabels(p.meta.series, n), window, i);
        |t.x| == |t.y|
  {
    var p := Parse(lines, lex).value;
    var data, labels, n := p.columns, p.meta.series, NumSeries(p.columns);
    var len := |data[0]|;
    assert Rectangular(data, len);
    forall i | 0 <= i < 2 * n
      ensures var t := TraceAt(Averaged(data, window), AveragedLabels(labels, n), window, i); |t.x| == |t.y|
    {
      if i < n {
        OriginalTraceAligned(Averaged(data, window), AveragedLabels(labels, n), window, len, i);
      } else {
        AveragedTraceAligned(data, labels, window, window, len, i - n);
      }
    }
  }
}

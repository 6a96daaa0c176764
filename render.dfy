/** What one `plot <x> <y1> ... <yn>` line draws: a figure of `n` stacked subplots,
    subplot `k` showing `yk` against `x` for every loaded file that has both
    variables.  A file's values are one flat list; `np.array(values).reshape((len //
    nNames, nNames))` turns them into one row per time point, and a variable's
    curve is the column at the variable's position in that file's header.  Drawing
    itself (matplotlib) is not modelled; a figure is described by what it would show. */
module Render {
  import opened Base
  import Catalogue
  import Titles

  /** A plot file that was read successfully, with the legend it was loaded under. */
  datatype LoadedFile = LoadedFile(path: string, names: seq<string>, values: seq<real>, legend: string)

  /** One curve: the x column against the y column of one file, labelled with the
      file's legend. */
  datatype Curve = Curve(legendText: string, xs: seq<real>, ys: seq<real>)

  datatype XAxis = Unlabelled | Labelled(text: string)

  /** Subplot `position` of `count`, with its axis labels, curves and whether
      `plt.legend()` is called on it. */
  datatype Subplot = Subplot(position: nat, count: nat, xAxis: XAxis, yLabel: string,
                             curves: seq<Curve>, legend: bool)

  datatype Figure = Figure(number: int, subplots: seq<Subplot>)

  /** `reshape((len(values) // n, n))` succeeds: `n` is not zero and divides the
      number of values (numpy raises otherwise). */
  predicate Reshapeable(f: LoadedFile) {
    |f.names| > 0 && |f.values| % |f.names| == 0
  }

  /** The rows of `reshape((len(values) // n, n))`: consecutive slices of `n`
      values. */
  function Reshape(values: seq<real>, n: nat): (rows: seq<seq<real>>)
    requires n > 0
    ensures forall r :: 0 <= r < |rows| ==> |rows[r]| == n
    decreases |values|
  {
    if |values| < n then [] else [values[..n]] + Reshape(values[n..], n)
  }

  /** `array[:, c]`: entry `c` of every row. */
  function Column(rows: seq<seq<real>>, c: nat): (column: seq<real>)
    requires forall r :: 0 <= r < |rows| ==> c < |rows[r]|
    ensures |column| == |rows|
  {
    seq(|rows|, r requires 0 <= r < |rows| => rows[r][c])
  }

  /** Entry `(r, c)` of the reshaped array is value `r*n + c`. */
  lemma {:induction false} ReshapeCell(values: seq<real>, n: nat, r: nat, c: nat)
    requires n > 0 && r < |Reshape(values, n)| && c < n
    ensures r * n + c < |values|
    ensures Reshape(values, n)[r][c] == values[r * n + c]
    decreases r
  {
    if r > 0 {
      ReshapeCell(values[n..], n, r - 1, c);
      assert n + (r - 1) * n == r * n;
    }
  }

  /** The rows cover all values but fewer than `n` of them. */
  lemma {:induction false} ReshapeCount(values: seq<real>, n: nat)
    requires n > 0
    ensures |Reshape(values, n)| * n <= |values| < |Reshape(values, n)| * n + n
    decreases |values|
  {
    if |values| >= n {
      ReshapeCount(values[n..], n);
      var m := |Reshape(values[n..], n)|;
      assert (m + 1) * n == m * n + n;
    }
  }

  /** Euclidean division has one quotient and one remainder. */
  lemma DivModUnique(a: nat, n: nat, q: nat, r: nat)
    requires n > 0 && r < n && a == q * n + r
    ensures a / n == q && a % n == r
  {
    var q', r' := a / n, a % n;
    assert a == q' * n + r';
    MulSign(q' - q, n);
    assert (q' - q) * n == q' * n - q * n;
  }

  lemma MulSign(d: int, n: nat)
    requires n > 0
    ensures d >= 1 ==> d * n >= n
    ensures d <= -1 ==> d * n + n <= 0
  {
  }

  /** When `n` divides the number of values there are `len // n` rows and no value
      is left over, which is when numpy's reshape succeeds. */
  lemma ReshapeRows(values: seq<real>, n: nat)
    requires n > 0
    ensures |Reshape(values, n)| == |values| / n
    ensures |values| % n == 0 <==> |Reshape(values, n)| * n == |values|
  {
    ReshapeCount(values, n);
    var m := |Reshape(values, n)|;
    DivModUnique(|values|, n, m, |values| - m * n);
  }

  /** Reshaping loses and reorders nothing when `n` divides the number of values:
      the rows, read one after another, are the values. */
  lemma ReshapeRoundTrip(values: seq<real>, n: nat)
    requires n > 0 && |values| % n == 0
    ensures Concat(Reshape(values, n)) == values
  {
    ReshapeRows(values, n);
    ConcatReshape(values, n);
  }

  lemma {:induction false} ConcatReshape(values: seq<real>, n: nat)
    requires n > 0 && |Reshape(values, n)| * n == |values|
    ensures Concat(Reshape(values, n)) == values
    decreases |values|
  {
    if |values| >= n {
      var rest := values[n..];
      var m := |Reshape(rest, n)|;
      assert (m + 1) * n == m * n + n;
      ConcatReshape(rest, n);
      assert values == values[..n] + rest;
    }
  }

  /** `data[:, c]` of the reshaped values: entry `r` is value `r*n + c`. */
  function Series(values: seq<real>, n: nat, c: nat): (series: seq<real>)
    requires n > 0 && c < n
    ensures |series| == |values| / n
    ensures forall r :: 0 <= r < |series| ==> r * n + c < |values| && series[r] == values[r * n + c]
  {
    var rows := Reshape(values, n);
    ReshapeRows(values, n);
    SeriesCells(values, n, c);
    Column(rows, c)
  }

  lemma SeriesCells(values: seq<real>, n: nat, c: nat)
    requires n > 0 && c < n
    ensures forall r :: 0 <= r < |Reshape(values, n)| ==>
              r * n + c < |values| && Reshape(values, n)[r][c] == values[r * n + c]
  {
    forall r | 0 <= r < |Reshape(values, n)|
      ensures r * n + c < |values| && Reshape(values, n)[r][c] == values[r * n + c]
    {
      ReshapeCell(values, n, r, c);
    }
  }

  /** The curve `ax.plot(data[:, xIndx], data[:, yIndx], label=legend)` of one file,
      drawn when the file has both variables (`findIndex` answered a position for
      each, the first where the name occurs). */
  function CurveOf(f: LoadedFile, x: string, y: string): (curve: Option<Curve>)
    requires Reshapeable(f)
    ensures curve.Some? <==> HasBoth(f, x, y)
    ensures curve.Some? ==>
              && curve.value.legendText == f.legend
              && curve.value.xs == Series(f.values, |f.names|, Catalogue.FindIndex(x, f.names))
              && curve.value.ys == Series(f.values, |f.names|, Catalogue.FindIndex(y, f.names))
  {
    var n := |f.names|;
    var xIndex := Catalogue.FindIndex(x, f.names);
    var yIndex := Catalogue.FindIndex(y, f.names);
    if xIndex >= 0 && yIndex >= 0 then
      Some(Curve(f.legend, Series(f.values, n, xIndex), Series(f.values, n, yIndex)))
    else None
  }

  predicate HasBoth(f: LoadedFile, x: string, y: string) {
    x in f.names && y in f.names
  }

  predicate AllReshapeable(files: seq<LoadedFile>) {
    forall j :: 0 <= j < |files| ==> Reshapeable(files[j])
  }

  /** The curves of one subplot: one per file that has both variables, in the
      order the files were loaded. */
  function Curves(files: seq<LoadedFile>, x: string, y: string): (curves: seq<Curve>)
    requires AllReshapeable(files)
    ensures |curves| <= |files|
  {
    if files == [] then []
    else
      var rest := Curves(files[1..], x, y);
      match CurveOf(files[0], x, y)
      case Some(curve) => [curve] + rest
      case None => rest
  }

  /** Every curve of a subplot comes from a loaded file. */
  lemma {:induction false} CurvesComeFromFiles(files: seq<LoadedFile>, x: string, y: string)
    requires AllReshapeable(files)
    ensures forall c :: c in Curves(files, x, y) ==>
              exists j :: 0 <= j < |files| && CurveOf(files[j], x, y) == Some(c)
    decreases |files|
  {
    if files != [] {
      var tail := files[1..];
      CurvesComeFromFiles(tail, x, y);
      var rest := Curves(tail, x, y);
      forall c | c in Curves(files, x, y)
        ensures exists j :: 0 <= j < |files| && CurveOf(files[j], x, y) == Some(c)
      {
        if c in rest {
          var j :| 0 <= j < |tail| && CurveOf(tail[j], x, y) == Some(c);
          assert tail[j] == files[j + 1];
        } else {
          assert CurveOf(files[0], x, y) == Some(c);
        }
      }
    }
  }

  /** Every loaded file that has both variables contributes its curve. */
  lemma {:induction false} CurvesCoverFiles(files: seq<LoadedFile>, x: string, y: string)
    requires AllReshapeable(files)
    ensures forall j :: 0 <= j < |files| && HasBoth(files[j], x, y) ==>
              CurveOf(files[j], x, y).value in Curves(files, x, y)
    decreases |files|
  {
    if files != [] {
      var tail := files[1..];
      CurvesCoverFiles(tail, x, y);
      forall j | 0 <= j < |files| && HasBoth(files[j], x, y)
        ensures CurveOf(files[j], x, y).value in Curves(files, x, y)
      {
        if j > 0 {
          assert files[j] == tail[j - 1];
        }
      }
    }
  }

  /** The curves one file draws in a subplot: its curve when it has both
      variables, none otherwise. */
  function FileCurves(f: LoadedFile, x: string, y: string): (curves: seq<Curve>)
    requires Reshapeable(f)
    ensures |curves| <= 1
  {
    match CurveOf(f, x, y)
    case Some(c) => [c]
    case None => []
  }

  /** The curves of a subplot, in full: file after file in load order, each file's
      curve when it has both variables.  The colour cycle and the legend entries
      follow this order. */
  lemma {:induction false} CurvesInLoadOrder(files: seq<LoadedFile>, x: string, y: string)
    requires AllReshapeable(files)
    ensures Curves(files, x, y)
         == Concat(seq(|files|, j requires 0 <= j < |files| && Reshapeable(files[j]) => FileCurves(files[j], x, y)))
    decreases |files|
  {
    var perFile := seq(|files|, j requires 0 <= j < |files| && Reshapeable(files[j]) => FileCurves(files[j], x, y));
    if files != [] {
      var tail := files[1..];
      CurvesInLoadOrder(tail, x, y);
      assert perFile[1..] == seq(|tail|, j requires 0 <= j < |tail| && Reshapeable(tail[j]) => FileCurves(tail[j], x, y));
    }
  }

  /** A subplot is empty exactly when no loaded file has both variables. */
  lemma CurvesEmpty(files: seq<LoadedFile>, x: string, y: string)
    requires AllReshapeable(files)
    ensures Curves(files, x, y) == [] <==> forall j :: 0 <= j < |files| ==> !HasBoth(files[j], x, y)
  {
    CurvesComeFromFiles(files, x, y);
    CurvesCoverFiles(files, x, y);
    if Curves(files, x, y) != [] {
      assert Curves(files, x, y)[0] in Curves(files, x, y);
    }
  }

  /** Subplot `k` (from 1) of a figure for `plot x ys`: the y axis is labelled for
      `ys[k-1]` at the size level of `|ys|` subplots, only the last subplot carries
      the x label, and only the first calls `plt.legend()`, once per loaded file. */
  function SubplotOf(files: seq<LoadedFile>, x: string, ys: seq<string>, k: nat, legendFlag: bool): Subplot
    requires AllReshapeable(files)
    requires 1 <= k <= |ys|
  {
    var numPlots := |ys|;
    Subplot(k, numPlots,
            if k == numPlots then Labelled(Titles.SetTitle(x, numPlots)) else Unlabelled,
            Titles.SetTitle(ys[k - 1], numPlots),
            Curves(files, x, ys[k - 1]),
            k == 1 && legendFlag && |files| > 0)
  }

  /** Subplots 1 to `k` of a figure for `plot x ys`, in drawing order. */
  function SubplotsUpTo(files: seq<LoadedFile>, x: string, ys: seq<string>, legendFlag: bool, k: nat): seq<Subplot>
    requires AllReshapeable(files)
    requires k <= |ys|
  {
    if k == 0 then [] else SubplotsUpTo(files, x, ys, legendFlag, k - 1) + [SubplotOf(files, x, ys, k, legendFlag)]
  }

  lemma {:induction false} SubplotsUpToAt(files: seq<LoadedFile>, x: string, ys: seq<string>, legendFlag: bool, k: nat)
    requires AllReshapeable(files)
    requires k <= |ys|
    ensures |SubplotsUpTo(files, x, ys, legendFlag, k)| == k
    ensures forall i :: 0 <= i < k ==> SubplotsUpTo(files, x, ys, legendFlag, k)[i] == SubplotOf(files, x, ys, i + 1, legendFlag)
  {
    if k > 0 {
      SubplotsUpToAt(files, x, ys, legendFlag, k - 1);
    }
  }

  /** The figure of `plot x ys`, or `None` when some loaded file's values cannot be
      reshaped (the first subplot reshapes every file, so the run stops there). */
  function PlanFigure(files: seq<LoadedFile>, x: string, ys: seq<string>, legendFlag: bool, number: int): Option<Figure>
    requires |ys| >= 1
  {
    if AllReshapeable(files) then Some(Figure(number, SubplotsUpTo(files, x, ys, legendFlag, |ys|)))
    else None
  }

  /** The layout a figure promises: one subplot per y, each labelled for its own y
      at the size level of the whole figure; the x label on the last subplot only;
      a legend on the first subplot only, and there exactly when some file has a
      legend and at least one file is loaded; and the figure exists exactly when
      every file's values reshape. */
  lemma FigureLayout(files: seq<LoadedFile>, x: string, ys: seq<string>, legendFlag: bool, number: int)
    requires |ys| >= 1
    ensures PlanFigure(files, x, ys, legendFlag, number).Some? <==> AllReshapeable(files)
    ensures PlanFigure(files, x, ys, legendFlag, number).Some? ==>
              var fig := PlanFigure(files, x, ys, legendFlag, number).value;
              && fig.number == number
              && |fig.subplots| == |ys|
              && forall i :: 0 <= i < |ys| ==>
                   && fig.subplots[i].position == i + 1
                   && fig.subplots[i].count == |ys|
                   && fig.subplots[i].yLabel == Titles.SetTitle(ys[i], |ys|)
                   && (fig.subplots[i].xAxis.Labelled? <==> i == |ys| - 1)
                   && (fig.subplots[i].xAxis.Labelled? ==> fig.subplots[i].xAxis.text == Titles.SetTitle(x, |ys|))
                   && (fig.subplots[i].legend <==> i == 0 && legendFlag && |files| > 0)
                   && fig.subplots[i].curves == Curves(files, x, ys[i])
  {
    if AllReshapeable(files) {
      SubplotsUpToAt(files, x, ys, legendFlag, |ys|);
    }
  }

  /** The subplot loop of one scripted figure: subplots 1 to `n` are drawn in turn.
      A file whose values do not reshape stops the run at the first subplot. */
  method DrawFigure(files: seq<LoadedFile>, x: string, ys: seq<string>, legendFlag: bool, number: int)
    returns (fig: Option<Figure>)
    requires |ys| >= 1
    ensures fig == PlanFigure(files, x, ys, legendFlag, number)
  {
    var numPlots := |ys|;
    var subplots: seq<Subplot> := [];
    for k := 1 to numPlots + 1
      invariant |subplots| == k - 1
      invariant k > 1 ==> AllReshapeable(files) && subplots == SubplotsUpTo(files, x, ys, legendFlag, k - 1)
    {
      var subplot := DrawSubplot(files, x, ys, legendFlag, k);
      if subplot.None? {
        return None;
      }
      subplots := subplots + [subplot.value];
    }
    fig := Some(Figure(number, subplots));
  }

  /** One pass of the subplot loop: the labels are set, then every loaded file is
      looked up, reshaped and, when it has both variables, drawn; `plt.legend()` is
      called on the first subplot after each file when `legendFlag` is set.  A file
      whose values do not reshape stops the run. */
  method DrawSubplot(files: seq<LoadedFile>, x: string, ys: seq<string>, legendFlag: bool, k: nat)
    returns (subplot: Option<Subplot>)
    requires 1 <= k <= |ys|
    ensures subplot.Some? <==> AllReshapeable(files)
    ensures subplot.Some? ==> subplot.value == SubplotOf(files, x, ys, k, legendFlag)
  {
    var numPlots := |ys|;
    var xAxis := Unlabelled;
    if k == numPlots {
      xAxis := Labelled(Titles.SetTitle(x, 1));
    }
    var yLabel := Titles.SetTitle(ys[k - 1], numPlots);
    if k == numPlots {
      xAxis := Labelled(Titles.SetTitle(x, numPlots));
    }
    var curves: seq<Curve> := [];
    var legend := false;
    for j := 0 to |files|
      invariant AllReshapeable(files[..j])
      invariant curves == Curves(files[..j], x, ys[k - 1])
      invariant legend <==> k == 1 && legendFlag && j > 0
    {
      var xIndex := Catalogue.FindIndex(x, files[j].names);
      var yIndex := Catalogue.FindIndex(ys[k - 1], files[j].names);
      if !Reshapeable(files[j]) {
        return None;
      }
      DrawStep(files, j, x, ys[k - 1]);
      if xIndex >= 0 && yIndex >= 0 {
        curves := curves + [CurveOf(files[j], x, ys[k - 1]).value];
      }
      if k == 1 && legendFlag {
        legend := true;
      }
    }
    assert files[..|files|] == files;
    subplot := Some(Subplot(k, numPlots, xAxis, yLabel, curves, legend));
  }

  /** One more file drawn: the prefix stays reshapeable and gains that file's curve. */
  lemma DrawStep(files: seq<LoadedFile>, j: nat, x: string, y: string)
    requires j < |files| && AllReshapeable(files[..j]) && Reshapeable(files[j])
    ensures AllReshapeable(files[..j + 1])
    ensures Curves(files[..j + 1], x, y)
         == Curves(files[..j], x, y)
            + (match CurveOf(files[j], x, y) case Some(c) => [c] case None => [])
  {
    var prefix := files[..j + 1];
    assert prefix[..j] == files[..j];
    assert AllReshapeable(prefix) by {
      forall i | 0 <= i < j + 1 ensures Reshapeable(prefix[i]) {
        if i < j {
          assert prefix[i] == files[..j][i];
        }
      }
    }
    CurvesSnoc(prefix, x, y);
  }

  /** Adding a file at the end adds its curve, if any, at the end. */
  lemma {:induction false} CurvesSnoc(files: seq<LoadedFile>, x: string, y: string)
    requires files != [] && AllReshapeable(files)
    ensures Curves(files, x, y)
         == Curves(files[..|files| - 1], x, y)
            + (match CurveOf(files[|files| - 1], x, y) case Some(c) => [c] case None => [])
    decreases |files|
  {
    if |files| > 1 {
      assert files[1..][..|files[1..]| - 1] == files[..|files| - 1][1..];
      CurvesSnoc(files[1..], x, y);
    }
  }
}

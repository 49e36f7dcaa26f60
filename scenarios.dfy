/** Worked inputs of the chart's data shaping and the outputs the model
    gives for them. */
module Scenarios {
  import opened ChartTypes
  import opened Keys
  import opened Domain
  import opened Rows
  import opened Planner

  /** Row `k` of the composed rows is the row composed for domain value `k`. */
  lemma RowAt(chart: ChartData, k: nat)
    requires k < |XDomain(chart)|
    ensures |BarChartData(chart)| == |XDomain(chart)|
    ensures BarChartData(chart)[k] == ComposeRow(chart, XDomain(chart)[k])
  {
  }

  function Point(x: Val, y: Val): Record
  {
    map["x" := x, "y" := y]
  }

  function BarSeries(caption: string, data: seq<Record>): Series
  {
    Series(Bar, caption, Some(data), "x", "y", None)
  }

  function OneBar(): ChartData
  {
    [BarSeries("A", [Point(Num(1), Num(5)), Point(Num(2), Num(3))])]
  }

  lemma OneBarXValues()
    ensures AllXValues(OneBar()) == [Num(1), Num(2)]
  {
  }

  lemma DedupOneTwo(all: seq<Val>)
    requires all == [Num(1), Num(2)]
    ensures Dedup(all) == all
  {
    assert IndexOf(all[1..], Num(2)) == 0;
    assert KeepFirst(all, 1) == [Num(1)];
  }

  lemma JsSortOneTwo(d: seq<Val>)
    requires d == [Num(1), Num(2)]
    ensures JsSort(d) == d
  {
    DefinedOfDefined(d);
    assert CmpSort([Num(1)]) == [Num(1)];
    assert CmpSort(d) == Insert(Num(2), [Num(1)]);
  }

  /** One bar series with records at x = 1 and x = 2 has the domain [1, 2]. */
  lemma OneBarDomain()
    ensures XDomain(OneBar()) == [Num(1), Num(2)]
  {
    OneBarXValues();
    DedupOneTwo(AllXValues(OneBar()));
    JsSortOneTwo(Dedup(AllXValues(OneBar())));
  }

  lemma OneBarValues(s: Series)
    requires s == OneBar()[0]
    ensures BarValue(s, Num(1)) == Num(5) && BarValue(s, Num(2)) == Num(3)
  {
    var points := Points(s);
    assert FindPoint(points, "x", Num(1)) == Some(points[0]);
    assert FindPoint(points[1..], "x", Num(2)) == Some(points[1]);
  }

  lemma OneBarRow(chart: ChartData, xv: Val, y: Val)
    requires chart == OneBar() && (xv, y) in {(Num(1), Num(5)), (Num(2), Num(3))}
    ensures ComposeRow(chart, xv) == map["x" := xv, "A-y-0" := y]
  {
    OneBarValues(chart[0]);
    assert NormalizedYKey(chart[0], 0) == "A-y-0";
    assert YValues(chart, 1, xv) == map["A-y-0" := y];
  }

  /** Each of its rows carries the series' y-value under `A-y-0`. */
  lemma OneBarRows(chart: ChartData)
    requires chart == OneBar()
    ensures |BarChartData(chart)| == 2
    ensures BarChartData(chart)[0] == map["x" := Num(1), "A-y-0" := Num(5)]
    ensures BarChartData(chart)[1] == map["x" := Num(2), "A-y-0" := Num(3)]
  {
    OneBarDomain();
    OneBarRow(chart, Num(1), Num(5));
    OneBarRow(chart, Num(2), Num(3));
  }

  function Letters(): ChartData
  {
    [BarSeries("S", [Point(Str("b"), Num(1)), Point(Str("a"), Num(2)), Point(Str("c"), Num(3))])]
  }

  lemma LettersXValues()
    ensures AllXValues(Letters()) == [Str("b"), Str("a"), Str("c")]
  {
  }

  lemma DedupLetters(all: seq<Val>)
    requires all == [Str("b"), Str("a"), Str("c")]
    ensures Dedup(all) == all
  {
    assert IndexOf(all[1..][1..], Str("c")) == 0;
    assert IndexOf(all[1..], Str("a")) == 0;
    assert IndexOf(all[1..], Str("c")) == 1;
    assert KeepFirst(all, 1) == [Str("b")];
    assert KeepFirst(all, 2) == [Str("b"), Str("a")];
  }

  /** Strings keep the order of first occurrence, not alphabetical order. */
  lemma LettersDomain()
    ensures XDomain(Letters()) == [Str("b"), Str("a"), Str("c")]
  {
    LettersXValues();
    DedupLetters(AllXValues(Letters()));
    XDomainFirstSeenStrings(Letters());
  }

  /** ... and make the axis categorical. */
  lemma LettersAxis()
    ensures Chart(Letters()).axis == CategoryAxis
  {
    LettersDomain();
    assert !XDomain(Letters())[0].Num?;
  }

  function SameLabelBars(): ChartData
  {
    [BarSeries("A", [Point(Num(1), Num(5))]), BarSeries("A", [Point(Num(1), Num(7))])]
  }

  lemma SameLabelBarsXValues()
    ensures AllXValues(SameLabelBars()) == [Num(1), Num(1)]
  {
  }

  lemma DedupOneOne(all: seq<Val>)
    requires all == [Num(1), Num(1)]
    ensures Dedup(all) == [Num(1)]
  {
    assert KeepFirst(all, 1) == [Num(1)];
    assert IndexOf(all, all[1]) == 0;
  }

  lemma SameLabelBarsDomain()
    ensures XDomain(SameLabelBars()) == [Num(1)]
  {
    SameLabelBarsXValues();
    DedupOneOne(AllXValues(SameLabelBars()));
    DefinedOfDefined([Num(1)]);
  }

  lemma SameLabelBarsYValues(chart: ChartData, xv: Val)
    requires chart == SameLabelBars() && xv == Num(1)
    ensures YValues(chart, 2, xv) == map["A-y-0" := Num(5), "A-y-1" := Num(7)]
  {
    assert NormalizedYKey(chart[0], 0) == "A-y-0";
    assert NormalizedYKey(chart[1], 1) == "A-y-1";
    assert BarValue(chart[0], xv) == Num(5) by {
      assert FindPoint(Points(chart[0]), "x", xv) == Some(Points(chart[0])[0]);
    }
    assert BarValue(chart[1], xv) == Num(7) by {
      assert FindPoint(Points(chart[1]), "x", xv) == Some(Points(chart[1])[0]);
    }
    assert YValues(chart, 1, xv) == map["A-y-0" := Num(5)];
  }

  lemma SameLabelBarsComposed(chart: ChartData, xv: Val)
    requires chart == SameLabelBars() && xv == Num(1)
    ensures ComposeRow(chart, xv) == map["x" := Num(1), "A-y-0" := Num(5), "A-y-1" := Num(7)]
  {
    SameLabelBarsYValues(chart, xv);
  }

  /** Two bar series with the same label and yKey, both with a record at
      x = 1: the single row holds both values, under `A-y-0` and `A-y-1`. */
  lemma SameLabelBarsRow(chart: ChartData)
    requires chart == SameLabelBars()
    ensures |BarChartData(chart)| == 1
    ensures BarChartData(chart)[0] == map["x" := Num(1), "A-y-0" := Num(5), "A-y-1" := Num(7)]
  {
    SameLabelBarsDomain();
    RowAt(chart, 0);
    SameLabelBarsComposed(chart, Num(1));
  }

  function BarAndLine(): ChartData
  {
    [ BarSeries("B", [Point(Num(1), Num(4))]),
      Series(Line, "L", Some([Point(Num(1), Num(1)), Point(Num(2), Num(2))]), "x", "y", None) ]
  }

  lemma BarAndLineXValues()
    ensures AllXValues(BarAndLine()) == [Num(1), Num(1), Num(2)]
  {
  }

  lemma DedupOneOneTwo(all: seq<Val>)
    requires all == [Num(1), Num(1), Num(2)]
    ensures Dedup(all) == [Num(1), Num(2)]
  {
    assert KeepFirst(all, 1) == [Num(1)];
    assert IndexOf(all, all[1]) == 0;
    assert KeepFirst(all, 2) == [Num(1)];
    assert IndexOf(all[1..][1..], Num(2)) == 0;
    assert IndexOf(all, all[2]) == 2;
  }

  lemma BarAndLineDomain()
    ensures XDomain(BarAndLine()) == [Num(1), Num(2)]
  {
    BarAndLineXValues();
    DedupOneOneTwo(AllXValues(BarAndLine()));
    JsSortOneTwo([Num(1), Num(2)]);
  }

  lemma BarAtTwoIsZero(s: Series)
    requires s == BarAndLine()[0]
    ensures BarValue(s, Num(2)) == Num(0)
  {
    BarValueCases(s, Num(2), 0);
  }

  lemma BarAndLineRowAtTwo(chart: ChartData, xv: Val)
    requires chart == BarAndLine() && xv == Num(2)
    ensures "x" in ComposeRow(chart, xv) && ComposeRow(chart, xv)["x"] == Num(2)
    ensures "B-y-0" in ComposeRow(chart, xv) && ComposeRow(chart, xv)["B-y-0"] == Num(0)
  {
    RowFields(chart, xv);
    RowBarField(chart, xv, 0);
    BarAtTwoIsZero(chart[0]);
    assert NormalizedYKey(chart[0], 0) == "B-y-0";
  }

  /** A bar series with a record at x = 1 only, beside a line series at x = 1
      and x = 2: the domain is [1, 2] and the bar's field is 0 at x = 2. */
  lemma BarAndLineMissingBarIsZero(chart: ChartData)
    requires chart == BarAndLine()
    ensures |BarChartData(chart)| == 2
    ensures "x" in BarChartData(chart)[1] && BarChartData(chart)[1]["x"] == Num(2)
    ensures "B-y-0" in BarChartData(chart)[1] && BarChartData(chart)[1]["B-y-0"] == Num(0)
  {
    BarAndLineDomain();
    RowAt(chart, 1);
    var domain := XDomain(chart);
    assert domain[1] == Num(2);
    BarAndLineRowAtTwo(chart, domain[1]);
  }

  /** A series with `data: []` is not drawn. */
  lemma EmptySeriesNotDrawn(chart: ChartData)
    requires chart == [Series(Line, "E", Some([]), "x", "y", None), BarSeries("B", [Point(Num(1), Num(4))])]
    ensures Chart(chart).draws[0] == None
    ensures Chart(chart).draws[1] == Some(BarDraw("B-1", "B-y-1", "B", None))
  {
    assert MarkKey(chart[1], 1) == "B-1";
    assert NormalizedYKey(chart[1], 1) == "B-y-1";
  }
}

/** The draw planner and the axis decision of the chart component
    (packages/toolpad-components/src/Chart.tsx, lines 80-157). The recharts
    elements become declarative draw instructions. */
module Planner {
  import opened ChartTypes
  import opened Keys
  import opened Domain
  import opened Rows

  /** The mark a non-bar series is drawn with. */
  datatype Mark = AreaMark | ScatterMark | LineMark

  /** One element of the composed chart. A bar reads `dataKey` from the
      composed rows; the other marks carry their own `data`. */
  datatype Draw =
    | BarDraw(key: string, dataKey: string, name: string, fill: Option<string>)
    | PointsDraw(mark: Mark, key: string, data: seq<Row>, dataKey: string, name: string, color: Option<string>)

  /** `{ x: p[xKey], [yKey]: p[yKey] }`: the computed key is written second,
      so it wins when `yKey` is itself `x`. */
  function ReprojectPoint(s: Series, p: Record): Row
  {
    map["x" := XOf(s, p)][s.yKey := Get(p, s.yKey)]
  }

  /** `normalizedData`: a series' own records re-projected onto `x` and its
      `yKey`. */
  function Reproject(s: Series): seq<Row>
  {
    seq(|Points(s)|, j requires 0 <= j < |Points(s)| => ReprojectPoint(s, Points(s)[j]))
  }

  /** The `switch` on the kind: `area` and `scatter` have their own mark,
      every other kind reaches the `default` branch and draws a line. */
  function MarkOf(k: Kind): Mark
  {
    match k
    case Area => AreaMark
    case Scatter => ScatterMark
    case _ => LineMark
  }

  /** The `switch` on a series' kind string: apart from `bar`, which draws a
      bar, `area` and `scatter` have their own mark and every other string,
      `line` included, draws a line. */
  lemma MarkOfKindString(s: string)
    requires s != "bar"
    ensures KindFromString(s) != Bar
    ensures MarkOf(KindFromString(s)) == AreaMark <==> s == "area"
    ensures MarkOf(KindFromString(s)) == ScatterMark <==> s == "scatter"
    ensures MarkOf(KindFromString(s)) == LineMark <==> s != "area" && s != "scatter"
  {
  }

  /** The element drawn for series `s` at position `index`, or None (the
      `null` the source returns) for a series without records. */
  function PlanSeries(s: Series, index: nat): Option<Draw>
  {
    if |Points(s)| == 0 then None
    else if s.kind == Bar then
      Some(BarDraw(MarkKey(s, index), NormalizedYKey(s, index), s.caption, s.color))
    else
      Some(PointsDraw(MarkOf(s.kind), MarkKey(s, index), Reproject(s), s.yKey, s.caption, s.color))
  }

  /** `data.map(...)`: one entry per series, in series order. */
  function PlanDraws(chart: ChartData): seq<Option<Draw>>
  {
    seq(|chart|, i requires 0 <= i < |chart| => PlanSeries(chart[i], i))
  }

  /** Re-projection keeps one row per record, in order; each row has exactly
      the fields `x` and `yKey`, `yKey` holding the record's y-value and `x`
      its x-value (or its y-value when `yKey` is `x`). Other series play no
      part. */
  lemma ReprojectFaithful(s: Series)
    ensures |Reproject(s)| == |Points(s)|
    ensures forall j :: 0 <= j < |Points(s)| ==>
      var row, p := Reproject(s)[j], Points(s)[j];
      && row.Keys == {"x", s.yKey}
      && row[s.yKey] == Get(p, s.yKey)
      && row["x"] == (if s.yKey == "x" then Get(p, s.yKey) else XOf(s, p))
  {
  }

  /** What the planner makes of series `i`: nothing for a series without
      records; for a bar series a bar reading its normalized key, a field
      every composed row holds with that series' bar value; for any other
      series its own mark over its re-projected records, reading `yKey`. */
  lemma PlanDrawsFaithful(chart: ChartData, i: nat)
    requires i < |chart|
    ensures |PlanDraws(chart)| == |chart|
    ensures PlanDraws(chart)[i].None? <==> |Points(chart[i])| == 0
    ensures PlanDraws(chart)[i].Some? && chart[i].kind == Bar ==>
      var d := PlanDraws(chart)[i].value;
      && d.BarDraw?
      && d.dataKey == NormalizedYKey(chart[i], i)
      && d.name == chart[i].caption
      && forall k :: 0 <= k < |BarChartData(chart)| ==>
           d.dataKey in BarChartData(chart)[k] &&
           BarChartData(chart)[k][d.dataKey] == BarValue(chart[i], BarChartData(chart)[k]["x"])
    ensures PlanDraws(chart)[i].Some? && chart[i].kind != Bar ==>
      var d := PlanDraws(chart)[i].value;
      && d.PointsDraw?
      && d.mark == MarkOf(chart[i].kind)
      && d.data == Reproject(chart[i])
      && d.dataKey == chart[i].yKey
      && d.name == chart[i].caption
  {
    BarChartDataRows(chart);
  }

  /** Draw keys differ between series, as React requires of siblings. */
  lemma PlanDrawKeysDiffer(chart: ChartData, i: nat, j: nat)
    requires i < |chart| && j < |chart| && i != j
    requires PlanDraws(chart)[i].Some? && PlanDraws(chart)[j].Some?
    ensures PlanDraws(chart)[i].value.key != PlanDraws(chart)[j].value.key
  {
    MarkKeysDiffer(chart[i], i, chart[j], j);
  }

  // ---------------------------------------------------------------------
  // The x-axis

  /** `xValues.some(v => typeof v !== 'number')`. */
  function HasNonNumber(domain: seq<Val>): (b: bool)
    ensures b <==> exists k :: 0 <= k < |domain| && !domain[k].Num?
  {
    if domain == [] then false
    else if !domain[0].Num? then true
    else
      assert forall k :: 0 < k < |domain| ==> domain[k] == domain[1..][k - 1];
      HasNonNumber(domain[1..])
  }

  /** `Math.min(...xValues)` over a non-empty list of numbers. */
  function MinOf(s: seq<Val>): (m: int)
    requires |s| > 0 && AllNumbers(s)
    ensures Num(m) in s
    ensures forall k :: 0 <= k < |s| ==> m <= s[k].n
  {
    if |s| == 1 then s[0].n
    else
      var m := MinOf(s[1..]);
      assert forall k :: 0 < k < |s| ==> s[k] == s[1..][k - 1];
      if s[0].n <= m then s[0].n else m
  }

  /** `Math.max(...xValues)` over a non-empty list of numbers. */
  function MaxOf(s: seq<Val>): (m: int)
    requires |s| > 0 && AllNumbers(s)
    ensures Num(m) in s
    ensures forall k :: 0 <= k < |s| ==> s[k].n <= m
  {
    if |s| == 1 then s[0].n
    else
      var m := MaxOf(s[1..]);
      assert forall k :: 0 < k < |s| ==> s[k] == s[1..][k - 1];
      if m <= s[0].n then s[0].n else m
  }

  /** The x-axis: categorical, or numeric with explicit bounds. An empty
      numeric domain has no bounds (the source computes ±Infinity there). */
  datatype XAxis = CategoryAxis | NumberAxis(bounds: Option<(int, int)>)

  function AxisOf(domain: seq<Val>): XAxis
  {
    if HasNonNumber(domain) then CategoryAxis
    else if domain == [] then NumberAxis(None)
    else NumberAxis(Some((MinOf(domain), MaxOf(domain))))
  }

  /** Over an ascending list the minimum is the first value and the maximum
      the last. */
  lemma AscendingBounds(s: seq<Val>)
    requires s != [] && StrictlyAscending(s)
    ensures MinOf(s) == s[0].n && MaxOf(s) == s[|s| - 1].n
  {
    assert forall a :: 0 <= a < |s| ==> s[0].n <= s[a].n <= s[|s| - 1].n by {
      forall a | 0 <= a < |s| ensures s[0].n <= s[a].n <= s[|s| - 1].n {
        if 0 < a { assert s[0].n < s[a].n; }
        if a < |s| - 1 { assert s[a].n < s[|s| - 1].n; }
      }
    }
  }

  /** A domain of numbers comes only from x-values that are all numbers. */
  lemma NumericDomainFromNumbers(chart: ChartData)
    requires !HasNonNumber(XDomain(chart))
    ensures AllNumbers(AllXValues(chart))
  {
    var all, domain := AllXValues(chart), XDomain(chart);
    forall j | 0 <= j < |all| ensures all[j].Num? {
      AllXValuesFrom(chart, all[j]);
      XDomainElements(chart, all[j]);
      var k :| 0 <= k < |domain| && domain[k] == all[j];
    }
  }

  /** The axis of a chart is categorical exactly when some domain value is
      not a number; otherwise it spans the smallest to the largest value,
      which are the first and last of the ascending domain. */
  lemma ChartAxis(chart: ChartData)
    ensures AxisOf(XDomain(chart)).CategoryAxis? <==>
      exists k :: 0 <= k < |XDomain(chart)| && !XDomain(chart)[k].Num?
    ensures AxisOf(XDomain(chart)) == NumberAxis(None) <==> XDomain(chart) == []
    ensures AxisOf(XDomain(chart)).NumberAxis? && XDomain(chart) != [] ==>
      AxisOf(XDomain(chart)).bounds == Some((XDomain(chart)[0].n, XDomain(chart)[|XDomain(chart)| - 1].n))
  {
    var domain := XDomain(chart);
    if !HasNonNumber(domain) && domain != [] {
      NumericDomainFromNumbers(chart);
      XDomainAscending(chart);
      AscendingBounds(domain);
    }
  }

  // ---------------------------------------------------------------------
  // The whole transform

  /** Everything the component hands to the renderer. */
  datatype ChartPlan = ChartPlan(rows: seq<Row>, axis: XAxis, draws: seq<Option<Draw>>)

  /** The chart component's data shaping, from the series to the plan. */
  function Chart(chart: ChartData): ChartPlan
  {
    ChartPlan(BarChartData(chart), AxisOf(XDomain(chart)), PlanDraws(chart))
  }
}

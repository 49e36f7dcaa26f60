/** The bar row composer: the `barChartData` computation of the chart
    component (packages/toolpad-components/src/Chart.tsx, lines 54-78). */
module Rows {
  import opened ChartTypes
  import opened Keys
  import opened Domain

  /** One composed row: field name to value. */
  type Row = map<string, Val>

  /** Record `j` is the first of `points` whose `xKey` field is `xv`. */
  ghost predicate FirstMatch(points: seq<Record>, xKey: string, xv: Val, j: int)
  {
    && 0 <= j < |points|
    && Get(points[j], xKey) == xv
    && forall k :: 0 <= k < j ==> Get(points[k], xKey) != xv
  }

  /** `points.find(p => p[xKey] === xv)`. */
  function FindPoint(points: seq<Record>, xKey: string, xv: Val): (r: Option<Record>)
    ensures r.None? <==> forall j :: 0 <= j < |points| ==> Get(points[j], xKey) != xv
    ensures r.Some? ==> exists j :: FirstMatch(points, xKey, xv, j) && points[j] == r.value
  {
    if points == [] then None
    else if Get(points[0], xKey) == xv then
      assert FirstMatch(points, xKey, xv, 0);
      Some(points[0])
    else
      var r := FindPoint(points[1..], xKey, xv);
      assert forall j :: 0 < j < |points| ==> points[j] == points[1..][j - 1];
      assert r.Some? ==> exists j :: FirstMatch(points, xKey, xv, j) && points[j] == r.value by {
        if r.Some? {
          var j :| FirstMatch(points[1..], xKey, xv, j) && points[1..][j] == r.value;
          assert FirstMatch(points, xKey, xv, j + 1);
        }
      }
      r
  }

  /** The value a bar series gives the row at `xv`:
      `point ? point[series.yKey] : 0`. */
  function BarValue(s: Series, xv: Val): Val
  {
    match FindPoint(Points(s), s.xKey, xv)
    case Some(p) => Get(p, s.yKey)
    case None => Num(0)
  }

  /** The three cases of a bar value: the y-field of the first record at
      `xv`, `undefined` when that record has no y-field, and 0 when no record
      is at `xv` (always so for a series without records). */
  lemma BarValueCases(s: Series, xv: Val, j: int)
    ensures FirstMatch(Points(s), s.xKey, xv, j) ==> BarValue(s, xv) == Get(Points(s)[j], s.yKey)
    ensures FirstMatch(Points(s), s.xKey, xv, j) && s.yKey !in Points(s)[j] ==> BarValue(s, xv) == Undef
    ensures (forall k :: 0 <= k < |Points(s)| ==> XOf(s, Points(s)[k]) != xv) ==> BarValue(s, xv) == Num(0)
  {
    var points := Points(s);
    var r := FindPoint(points, s.xKey, xv);
    if FirstMatch(points, s.xKey, xv, j) {
      var j' :| FirstMatch(points, s.xKey, xv, j') && points[j'] == r.value;
    }
  }

  /** Key `k` is the normalized key of some bar series among the first `n`. */
  ghost predicate IsBarKey(chart: ChartData, n: nat, k: string)
  {
    exists i :: 0 <= i < n && i < |chart| && chart[i].kind == Bar && k == NormalizedYKey(chart[i], i)
  }

  /** The `reduce` over the first `n` series: non-bar series leave the
      accumulator as it is, a bar series adds its normalized key. */
  function YValues(chart: ChartData, n: nat, xv: Val): Row
    requires n <= |chart|
  {
    if n == 0 then map[]
    else
      var acc := YValues(chart, n - 1, xv);
      var s := chart[n - 1];
      if s.kind != Bar then acc
      else acc[NormalizedYKey(s, n - 1) := BarValue(s, xv)]
  }

  /** The accumulated fields are the normalized keys of the bar series. */
  lemma {:induction false} YValuesKeys(chart: ChartData, n: nat, xv: Val)
    requires n <= |chart|
    ensures forall k :: k in YValues(chart, n, xv) <==> IsBarKey(chart, n, k)
  {
    if n > 0 {
      YValuesKeys(chart, n - 1, xv);
      forall k ensures k in YValues(chart, n, xv) <==> IsBarKey(chart, n, k) {
        if IsBarKey(chart, n, k) && !IsBarKey(chart, n - 1, k) {
          var i :| 0 <= i < n && i < |chart| && chart[i].kind == Bar && k == NormalizedYKey(chart[i], i);
          assert i == n - 1;
        }
        if IsBarKey(chart, n - 1, k) {
          var i :| 0 <= i < n - 1 && i < |chart| && chart[i].kind == Bar && k == NormalizedYKey(chart[i], i);
          assert IsBarKey(chart, n, k);
        }
      }
    }
  }

  /** Each bar series' field holds its bar value: a later series never
      overwrites an earlier one, since their keys differ. */
  lemma {:induction false} YValuesBarValues(chart: ChartData, n: nat, xv: Val, i: nat)
    requires i < n <= |chart| && chart[i].kind == Bar
    ensures NormalizedYKey(chart[i], i) in YValues(chart, n, xv)
    ensures YValues(chart, n, xv)[NormalizedYKey(chart[i], i)] == BarValue(chart[i], xv)
  {
    var key := NormalizedYKey(chart[i], i);
    var acc := YValues(chart, n - 1, xv);
    if i < n - 1 {
      YValuesBarValues(chart, n - 1, xv, i);
      NormalizedYKeysDiffer(chart[i], i, chart[n - 1], n - 1);
      assert YValues(chart, n, xv) == acc || YValues(chart, n, xv) == acc[NormalizedYKey(chart[n - 1], n - 1) := BarValue(chart[n - 1], xv)];
    }
  }

  /** `{ x: xValue, ...yValues }`: the row composed for domain value `xv`. */
  function ComposeRow(chart: ChartData, xv: Val): Row
  {
    map["x" := xv] + YValues(chart, |chart|, xv)
  }

  /** `barChartData`: one composed row per domain value, in domain order. */
  function BarChartData(chart: ChartData): seq<Row>
  {
    var domain := XDomain(chart);
    seq(|domain|, k requires 0 <= k < |domain| => ComposeRow(chart, domain[k]))
  }

  /** A row's fields are `x` and the normalized keys of the bar series, and
      nothing else: series of other kinds add no field. */
  lemma RowFields(chart: ChartData, xv: Val)
    ensures forall k :: k in ComposeRow(chart, xv) <==> k == "x" || IsBarKey(chart, |chart|, k)
    ensures "x" in ComposeRow(chart, xv) && ComposeRow(chart, xv)["x"] == xv
  {
    YValuesKeys(chart, |chart|, xv);
  }

  /** Every row holds the normalized key of every bar series, valued as
      BarValue says, even when the series has no records. */
  lemma RowBarField(chart: ChartData, xv: Val, i: nat)
    requires i < |chart| && chart[i].kind == Bar
    ensures NormalizedYKey(chart[i], i) in ComposeRow(chart, xv)
    ensures ComposeRow(chart, xv)[NormalizedYKey(chart[i], i)] == BarValue(chart[i], xv)
  {
    YValuesBarValues(chart, |chart|, xv, i);
    NormalizedYKeysDiffer(chart[i], i, chart[i], i);
  }

  /** The rows follow the domain one to one, in order, each carrying its
      domain value as `x` and a field for every bar series. */
  lemma BarChartDataRows(chart: ChartData)
    ensures |BarChartData(chart)| == |XDomain(chart)|
    ensures forall k :: 0 <= k < |XDomain(chart)| ==>
      "x" in BarChartData(chart)[k] && BarChartData(chart)[k]["x"] == XDomain(chart)[k]
    ensures forall k, i :: 0 <= k < |XDomain(chart)| && 0 <= i < |chart| && chart[i].kind == Bar ==>
      NormalizedYKey(chart[i], i) in BarChartData(chart)[k] &&
      BarChartData(chart)[k][NormalizedYKey(chart[i], i)] == BarValue(chart[i], XDomain(chart)[k])
  {
    var domain := XDomain(chart);
    forall k | 0 <= k < |domain|
      ensures "x" in BarChartData(chart)[k] && BarChartData(chart)[k]["x"] == domain[k]
    {
      RowFields(chart, domain[k]);
    }
    forall k, i | 0 <= k < |domain| && 0 <= i < |chart| && chart[i].kind == Bar
      ensures NormalizedYKey(chart[i], i) in BarChartData(chart)[k]
      ensures BarChartData(chart)[k][NormalizedYKey(chart[i], i)] == BarValue(chart[i], domain[k])
    {
      RowBarField(chart, domain[k], i);
    }
  }

  /** A bar series without records (or without `data`) still has its key in
      every row, valued 0. */
  lemma EmptyBarSeriesZero(chart: ChartData, i: nat, k: nat)
    requires i < |chart| && chart[i].kind == Bar && Points(chart[i]) == []
    requires k < |BarChartData(chart)|
    ensures NormalizedYKey(chart[i], i) in BarChartData(chart)[k]
    ensures BarChartData(chart)[k][NormalizedYKey(chart[i], i)] == Num(0)
  {
    BarChartDataRows(chart);
    BarValueCases(chart[i], XDomain(chart)[k], 0);
  }

  /** A series that is not a bar series has no effect on the rows: putting
      any other non-bar series in its place composes the same row. */
  lemma {:induction false} NonBarSeriesIgnored(chart: ChartData, i: nat, s': Series, n: nat, xv: Val)
    requires i < |chart| && n <= |chart|
    requires chart[i].kind != Bar && s'.kind != Bar
    ensures YValues(chart[i := s'], n, xv) == YValues(chart, n, xv)
    ensures n == |chart| ==> ComposeRow(chart[i := s'], xv) == ComposeRow(chart, xv)
  {
    if n > 0 {
      NonBarSeriesIgnored(chart, i, s', n - 1, xv);
    }
  }
}

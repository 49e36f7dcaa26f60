/** Values, records and series as the chart component receives them
    (packages/toolpad-components/src/Chart.tsx, lines 19-30). */
module ChartTypes {

  datatype Option<+T> = None | Some(value: T)

  /** A field value of a data record: the numbers and strings of
      `Record<string, string | number>`, plus the `undefined` that a missing
      field reads as. JavaScript's `===` on these values is Dafny's `==`. */
  datatype Val = Num(n: int) | Str(s: string) | Undef

  /** One data record of a series: field name to value. */
  type Record = map<string, Val>

  /** `record[key]`: a field the record does not have reads as `undefined`. */
  function Get(r: Record, key: string): Val
  {
    if key in r then r[key] else Undef
  }

  /** The series kind. The source types it as a plain string; the four names
      of CHART_DATA_SERIES_KINDS get their own constructors and every other
      string is kept as `Other`. */
  datatype Kind = Line | Bar | Area | Scatter | Other(name: string)

  /** `CHART_DATA_SERIES_KINDS`. */
  const KindNames: seq<string> := ["line", "bar", "area", "scatter"]

  /** The kind a series' `kind` string denotes. */
  function KindFromString(s: string): (k: Kind)
    ensures k.Other? <==> s !in KindNames
    ensures k.Other? ==> k.name == s
    ensures k == Line <==> s == "line"
    ensures k == Bar <==> s == "bar"
    ensures k == Area <==> s == "area"
    ensures k == Scatter <==> s == "scatter"
  {
    if s == "line" then Line
    else if s == "bar" then Bar
    else if s == "area" then Area
    else if s == "scatter" then Scatter
    else Other(s)
  }

  /** `ChartDataSeries`: `data` is optional, the colour an opaque hint. */
  datatype Series = Series(
    kind: Kind,
    caption: string,  // the series' `label`
    data: Option<seq<Record>>,
    xKey: string,
    yKey: string,
    color: Option<string>)

  /** `dataSeries.data || []`: an absent `data` counts as no records. */
  function Points(s: Series): seq<Record>
  {
    match s.data
    case None => []
    case Some(d) => d
  }

  /** The x-value of one record of series `s`: `point[s.xKey]`. */
  function XOf(s: Series, r: Record): Val
  {
    Get(r, s.xKey)
  }

  /** `ChartData`: an ordered list of series. */
  type ChartData = seq<Series>
}

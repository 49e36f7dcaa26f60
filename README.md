# Chart data shaping, modelled in Dafny

The Toolpad `Chart` component draws one composed chart from an ordered list of
series. Each series has a kind (`line`, `bar`, `area`, `scatter`), a label,
optional data records and the names of its x and y fields. Before anything is
drawn, the component shapes the data in four steps. This project models those
steps and proves their properties:

- **X-domain unifier** (`Domain`). It collects the x-value of every record of
  every series. It removes duplicates with the `indexOf` filter, which keeps
  first occurrences. It then sorts with a comparator that orders number
  against number and treats every other pair as a tie.
- **Bar row composer** (`Rows`). It builds one row per domain value. Each row
  holds the field `x`, plus one field per bar series under the normalized key
  `label-yKey-index`. That field holds the y-value of the first record at that
  x, or `0` when no record is there.
- **Axis decision** (`Planner.AxisOf`). The axis is categorical when some
  domain value is not a number. Otherwise it is numeric, bounded by the
  smallest and largest value.
- **Draw planner** (`Planner.PlanSeries`). For each series it emits nothing,
  a bar that reads the normalized key, or an area, scatter or line mark over
  the series' own records re-projected to `{x, [yKey]}`.

`Keys` holds the key derivations. `ChartTypes` holds the values:
`Val = Num | Str | Undef` is a record field, and a missing field reads as
`Undef`. A record is a `map<string, Val>`. `Scenarios` works through concrete
charts.

Three points where the code's behaviour is easy to misread:

- A non-numeric domain is easy to misread as plain first-seen order. The
  code sorts with `Array.prototype.sort`, and ECMAScript's sort moves
  `undefined` elements to the end without calling the comparator. So when a
  record lacks its x field, `undefined` is the last domain value, not the
  first-seen one (`Domain.JsSort`, `Domain.XDomainFirstSeen`).
- An empty *bar* series still puts its normalized key in every row, valued
  `0`, although its draw instruction is skipped (`Rows.EmptyBarSeriesZero`).
- The object literal `{x: ..., [yKey]: ...}` writes the computed key second.
  A non-bar series whose `yKey` is `"x"` therefore gets re-projected rows with
  a single field `x` that holds the y-value (`Planner.ReprojectFaithful`).

The series field `label` is called `caption` in the model, because `label` is
a reserved word in Dafny. The chart itself is a parameter of type `ChartData`.
The component's default `data = []` is just the empty list.

## Model

| member | source | states |
|---|---|---|
| `ChartTypes.KindFromString` | packages/toolpad-components/src/Chart.tsx:19-22 | each of the four names of `CHART_DATA_SERIES_KINDS` maps to its own kind (`"line"` iff Line, `"bar"` iff Bar, `"area"` iff Area, `"scatter"` iff Scatter), and every other string is kept as `Other` |
| `ChartTypes.Get` | packages/toolpad-components/src/Chart.tsx:44 | a missing field reads as `undefined`; specified through `Rows.BarValueCases` and `Planner.ReprojectFaithful` |
| `ChartTypes.Points` | packages/toolpad-components/src/Chart.tsx:61 | an absent `data` read as no records; specified through `Domain.AllXValuesFrom` and `Planner.PlanDrawsFaithful` |
| `ChartTypes.XOf` | packages/toolpad-components/src/Chart.tsx:44 | `point[dataSeries.xKey]`; specified through `Domain.AllXValuesFrom` |
| `Keys.NormalizedYKey` | packages/toolpad-components/src/Chart.tsx:32-34 | `label-yKey-index`; specified by `Keys.NormalizedYKeyIndex` and `Keys.NormalizedYKeysDiffer` |
| `Keys.MarkKey` | packages/toolpad-components/src/Chart.tsx:105 | `label-index`; specified by `Keys.MarkKeysDiffer` |
| `Domain.AllXValues` | packages/toolpad-components/src/Chart.tsx:43-45 | the `flatMap` of x-values; specified by `Domain.AllXValuesFrom` |
| `Domain.Dedup` | packages/toolpad-components/src/Chart.tsx:47-48 | the `indexOf` filter over all values; specified by `Domain.KeepFirst` |
| `Domain.Compare` | packages/toolpad-components/src/Chart.tsx:49-51 | the comparator; specified through `Domain.CmpSortAscending` and `Domain.CmpSortNoNumbers` |
| `Domain.Insert` | packages/toolpad-components/src/Chart.tsx:49-51 | one step of the stable sort; specified through `Domain.CmpSortPermutes` and `Domain.CmpSortAscending` |
| `Domain.CmpSort` | packages/toolpad-components/src/Chart.tsx:49-51 | the stable comparator sort; specified by `Domain.CmpSortPermutes`, `Domain.CmpSortAscending` and `Domain.CmpSortNoNumbers` |
| `Domain.JsSort` | packages/toolpad-components/src/Chart.tsx:49-51 | `sort` with `undefined` moved last; specified by `Domain.JsSortPermutes` and `Domain.XDomainFirstSeen` |
| `Domain.XDomain` | packages/toolpad-components/src/Chart.tsx:42-52 | `xValues`; specified by `Domain.XDomainNoDup`, `Domain.XDomainElements`, `Domain.XDomainPermutation`, `Domain.XDomainAscending` and `Domain.XDomainFirstSeen` |
| `Rows.BarValue` | packages/toolpad-components/src/Chart.tsx:61-70 | `point ? point[yKey] : 0`; specified by `Rows.BarValueCases` |
| `Rows.YValues` | packages/toolpad-components/src/Chart.tsx:56-71 | the `reduce` over the series; specified by `Rows.YValuesKeys` and `Rows.YValuesBarValues` |
| `Rows.ComposeRow` | packages/toolpad-components/src/Chart.tsx:73-76 | `{x: xValue, ...yValues}`; specified by `Rows.RowFields` and `Rows.RowBarField` |
| `Rows.BarChartData` | packages/toolpad-components/src/Chart.tsx:54-78 | `barChartData`; specified by `Rows.BarChartDataRows` |
| `Planner.ReprojectPoint` | packages/toolpad-components/src/Chart.tsx:107-110 | `{x: p[xKey], [yKey]: p[yKey]}`; specified by `Planner.ReprojectFaithful` |
| `Planner.Reproject` | packages/toolpad-components/src/Chart.tsx:107-110 | `normalizedData`; specified by `Planner.ReprojectFaithful` |
| `Planner.MarkOf` | packages/toolpad-components/src/Chart.tsx:112-156 | the `switch` on the kind; specified by `Planner.MarkOfKindString` |
| `Planner.MarkOfKindString` | packages/toolpad-components/src/Chart.tsx:112-156 | apart from `"bar"`, a kind string draws an area iff it is `"area"`, a scatter iff it is `"scatter"`, and a line for every other string |
| `Planner.PlanSeries` | packages/toolpad-components/src/Chart.tsx:100-156 | the element drawn for one series; specified by `Planner.PlanDrawsFaithful` |
| `Planner.PlanDraws` | packages/toolpad-components/src/Chart.tsx:100-157 | `data.map(...)` over the series; specified by `Planner.PlanDrawsFaithful` and `Planner.PlanDrawKeysDiffer` |
| `Planner.AxisOf` | packages/toolpad-components/src/Chart.tsx:80-95 | the axis type and its numeric bounds; specified by `Planner.ChartAxis` |
| `Planner.Chart` | packages/toolpad-components/src/Chart.tsx:41-157 | rows, axis and draws of one chart; specified by `Rows.BarChartDataRows`, `Planner.ChartAxis` and `Planner.PlanDrawsFaithful` |
| `Keys.Decimal` | packages/toolpad-components/src/Chart.tsx:33 | `${index}` writes a non-empty string of decimal digits, so the index part of a key has no `-` |
| `Keys.ParseDecimalOfDecimal` | packages/toolpad-components/src/Chart.tsx:33 | reading the decimal text back gives the index, so different indices give different texts |
| `Keys.NormalizedYKeyIndex` | packages/toolpad-components/src/Chart.tsx:32-34 | the text after the last `-` of `label-yKey-index` is the index, whatever dashes label and yKey hold |
| `Keys.NormalizedYKeysDiffer` | packages/toolpad-components/src/Chart.tsx:32-34 | normalized keys of series at different indices differ, even with equal label and yKey; no normalized key is `x` |
| `Keys.MarkKeysDiffer` | packages/toolpad-components/src/Chart.tsx:105 | the React keys `label-index` of series at different indices differ |
| `Domain.AllXValuesFrom` | packages/toolpad-components/src/Chart.tsx:43-45 | a value is collected iff it is the x-field of some record of some series; a series without `data` contributes nothing |
| `Domain.IndexOf` | packages/toolpad-components/src/Chart.tsx:48 | `indexOf` returns the first position holding the value, or -1 exactly when the value is absent |
| `Domain.KeepFirst` | packages/toolpad-components/src/Chart.tsx:47-48 | the `indexOf` filter leaves each collected value exactly once, nothing else, in order of first occurrence |
| `Domain.CmpSortPermutes` | packages/toolpad-components/src/Chart.tsx:49-51 | sorting with the comparator is a permutation of its input |
| `Domain.JsSortPermutes` | packages/toolpad-components/src/Chart.tsx:47-51 | the sort, with `undefined` moved to the end, is a permutation of the deduplicated list |
| `Domain.CmpSortAscending` | packages/toolpad-components/src/Chart.tsx:49-51 | on numbers the comparator `a - b` sorts ascending |
| `Domain.CmpSortNoNumbers` | packages/toolpad-components/src/Chart.tsx:49-51 | without numbers the comparator always returns 0 and the stable sort keeps the given order |
| `Domain.XDomainNoDup` | packages/toolpad-components/src/Chart.tsx:42-52 | the domain holds no value twice |
| `Domain.XDomainPermutation` | packages/toolpad-components/src/Chart.tsx:47-51 | the domain is a permutation of the deduplicated x-values, for any mix of types |
| `Domain.XDomainElements` | packages/toolpad-components/src/Chart.tsx:43-48 | a value is in the domain iff it is the x-value of some record of some series |
| `Domain.XDomainAscending` | packages/toolpad-components/src/Chart.tsx:49-51 | when every collected x-value is a number, the domain is strictly ascending |
| `Domain.XDomainFirstSeen` | packages/toolpad-components/src/Chart.tsx:48-51 | when no x-value is a number, the domain is the first-occurrence order of the defined distinct values, then `undefined` if some record lacks its x field |
| `Domain.XDomainFirstSeenStrings` | packages/toolpad-components/src/Chart.tsx:48-51 | when every x-value is a string, the domain is exactly the first-occurrence order, not alphabetical order |
| `Rows.FindPoint` | packages/toolpad-components/src/Chart.tsx:61-63 | `find` returns nothing iff no record has the x-value, and otherwise the first record that has it |
| `Rows.BarValueCases` | packages/toolpad-components/src/Chart.tsx:61-70 | a bar field is the y-field of the first matching record, `undefined` when that record lacks yKey, and `0` when no record matches |
| `Rows.YValuesKeys` | packages/toolpad-components/src/Chart.tsx:56-71 | the `reduce` accumulator has exactly the normalized keys of the bar series |
| `Rows.YValuesBarValues` | packages/toolpad-components/src/Chart.tsx:56-71 | after the `reduce`, each bar series' key holds that series' bar value; no later series overwrites it |
| `Rows.RowFields` | packages/toolpad-components/src/Chart.tsx:73-76 | a row's fields are `x` (equal to its domain value) and the bar series' keys; non-bar series add no field |
| `Rows.RowBarField` | packages/toolpad-components/src/Chart.tsx:56-76 | every row holds every bar series' normalized key, with that series' bar value |
| `Rows.BarChartDataRows` | packages/toolpad-components/src/Chart.tsx:54-78 | rows correspond one to one, in order, with the domain; row k has `x` = domain[k] and every bar series' field |
| `Rows.EmptyBarSeriesZero` | packages/toolpad-components/src/Chart.tsx:61-70 | a bar series with empty or absent `data` still has its key in every row, valued `0` |
| `Rows.NonBarSeriesIgnored` | packages/toolpad-components/src/Chart.tsx:57-59 | replacing a non-bar series by any other non-bar series leaves the row composed for each x-value unchanged (its x-values can still add rows to the domain) |
| `Planner.ReprojectFaithful` | packages/toolpad-components/src/Chart.tsx:107-110 | one re-projected row per record, in order, with exactly the fields `x` and yKey, holding the record's x- and y-values |
| `Planner.PlanDrawsFaithful` | packages/toolpad-components/src/Chart.tsx:100-156 | no instruction iff the series has no records; a bar reads its normalized key, which every row holds with its bar value; other kinds get their mark over the re-projected records, reading yKey |
| `Planner.PlanDrawKeysDiffer` | packages/toolpad-components/src/Chart.tsx:105 | two drawn series never share a React key |
| `Planner.HasNonNumber` | packages/toolpad-components/src/Chart.tsx:80 | `some(v => typeof v !== 'number')` is true iff some domain value is not a number |
| `Planner.MinOf` | packages/toolpad-components/src/Chart.tsx:94 | `Math.min` of a non-empty numeric domain is one of its values and no greater than any |
| `Planner.MaxOf` | packages/toolpad-components/src/Chart.tsx:94 | `Math.max` of a non-empty numeric domain is one of its values and no smaller than any |
| `Planner.AscendingBounds` | packages/toolpad-components/src/Chart.tsx:94 | over an ascending domain, the bounds are its first and its last value |
| `Planner.ChartAxis` | packages/toolpad-components/src/Chart.tsx:80-95 | the axis is categorical iff some domain value is non-numeric; otherwise it is numeric, bounded by the domain's first and last values, with no bounds for an empty domain |
| `Scenarios.OneBarDomain` | packages/toolpad-components/src/Chart.tsx:42-52 | one bar series with records at x = 1 and x = 2 has domain [1, 2] |
| `Scenarios.OneBarRows` | packages/toolpad-components/src/Chart.tsx:54-78 | its rows are `{x: 1, A-y-0: 5}` and `{x: 2, A-y-0: 3}` |
| `Scenarios.SameLabelBarsRow` | packages/toolpad-components/src/Chart.tsx:56-71 | two bar series with the same label and yKey fill `A-y-0` and `A-y-1` of the same row |
| `Scenarios.BarAndLineMissingBarIsZero` | packages/toolpad-components/src/Chart.tsx:61-70 | next to a line series at x = 1 and 2, a bar series with only x = 1 has `0` at x = 2 |
| `Scenarios.LettersDomain` | packages/toolpad-components/src/Chart.tsx:47-51 | the x-values `b`, `a`, `c` keep that order |
| `Scenarios.LettersAxis` | packages/toolpad-components/src/Chart.tsx:80 | string x-values make the axis categorical |
| `Scenarios.EmptySeriesNotDrawn` | packages/toolpad-components/src/Chart.tsx:100-122 | a series with `data: []` is not drawn; a bar series at index 1 is drawn with key `B-1`, reading `B-y-1` |

## Left out

- Rendering. React and recharts (`Container`, `ResponsiveContainer`, `ComposedChart`, the axes, grid, tooltip and legend) are foreign UI library calls. The model keeps only what the data shaping decides. It leaves out visual props such as `barSize`, `type="monotone"`, stroke, fill, the margins and `allowDuplicatedCategory`.
- `useMemo`. It only caches the result, and a pure function has nothing to cache.
- The `createComponent` registration, its argTypes schema, `height` and `sx`. These are editor plumbing, and the caller's schema enforces the height minimum.
- Numbers are JavaScript doubles in the source and unbounded integers in the model, so fractions, NaN (which `indexOf` never finds), `-0` and `±Infinity` are not modelled.
- `Planner.ChartAxis`: for an empty numeric domain, the source computes `[Infinity, -Infinity]`. The model has no bounds there, written `NumberAxis(None)`.
- Domain order when numbers and non-numbers are mixed. There the comparator is not a consistent order, so the result depends on the JavaScript engine's sort. `Domain.CmpSort` is a stable insertion sort, which is one such order, and only the permutation is claimed (`Domain.XDomainPermutation`). Ascending order and first-seen order are proved for the two consistent cases.
- The source types the kind as any string. Series kinds are read through `ChartTypes.KindFromString`, so `Kind.Other` only holds strings other than the four kind names. A hand-built `Other("bar")` would be planned as a line, which the source cannot do.
- Enumeration order of JavaScript object keys: rows are modelled as maps, so field order is not part of the model.
- `docs/data/toolpad/landing/useCases.js`, `docs/data/toolpad/landing/marquee.js` and `docs/pages/toolpad/examples/admin-app.js` hold static page content and no logic.

# Daily latency chart: data preparation

This project models the data-preparation pipeline of the `DailyLatencyChart`
React component of Uptimer's web app. The component receives day-bucketed
monitor analytics points, each with a day timestamp and an optional P95 and
P50 latency in milliseconds. It then:

1. keeps the points whose P95 is a number and projects each of them to
   `{day, p95, p50}` (`rawData`);
2. flattens those points into the latency samples `[p95, p50]`, drops the
   non-numeric P50s and asks `suggestLatencyAxisCeiling` for an optional
   Y-axis ceiling;
3. adds the plotted values to every point. A numeric plotted value is null
   exactly when a ceiling exists and the raw value exceeds it; an absent P50
   stays absent. The raw values stay on the point;
4. derives the Y-axis domain override (none, or `[0, ceiling]` with
   `allowDataOverflow`). It shows the "no latency data" view when no point
   was kept;
5. in the tooltip, reports the raw latency (not the plotted one) of the
   hovered series.

Everything is modelled as pure functions over sequences in module
`DailyLatencyChart` (`daily_latency_chart.dfy`). `Option` lives in
`Wrappers` (`wrappers.dfy`). A JavaScript `null`, `undefined` or other
non-number is `None`. Latencies are `real`, because the code only compares
them with `>`. Day timestamps are `int`.

`suggestLatencyAxisCeiling` lives in `apps/web/src/utils/latencyScale`, which
is not part of this model. `Render` takes it as a parameter
`suggest: seq<real> -> Option<real>`. Every clipping and domain property is
therefore proved for an arbitrary ceiling, including one the heuristic would
never produce.

A clipped value is handed to the chart as null. Both `Line`s set
`connectNulls` (`DailyLatencyChart.tsx` lines 106 and 114), so the charting
library draws the line across it. The model states only that the plotted
value is null.

## Model

| member | source | states |
|---|---|---|
| `DailyLatencyChart.RawData` | apps/web/src/components/DailyLatencyChart.tsx:22-31 | `rawData` never has more entries than there are input day points |
| `DailyLatencyChart.RawDataIsSelection` | apps/web/src/components/DailyLatencyChart.tsx:22-31 | `rawData` holds exactly the day points with a numeric P95, in their original order (at the strictly increasing indices `KeptIndices`, which name every such point). Each entry carries that point's day, P95 and P50 unchanged |
| `DailyLatencyChart.RawDataConcat` | apps/web/src/components/DailyLatencyChart.tsx:22-31 | the filter/projection distributes over concatenation: it decides each point on its own and keeps input order |
| `DailyLatencyChart.RawDataEmptyIff` | apps/web/src/components/DailyLatencyChart.tsx:22-26 | `rawData` is empty if and only if no day point has a numeric P95 |
| `DailyLatencyChart.RawDataKeepsAllIff` | apps/web/src/components/DailyLatencyChart.tsx:22-26 | `rawData` is as long as the input if and only if every day point has a numeric P95 |
| `DailyLatencyChart.FlatLatencies` | apps/web/src/components/DailyLatencyChart.tsx:34 | the `flatMap` yields exactly two values per raw point |
| `DailyLatencyChart.Numbers` | apps/web/src/components/DailyLatencyChart.tsx:35 | the number filter never lengthens its input |
| `DailyLatencyChart.SamplesArePerPoint` | apps/web/src/components/DailyLatencyChart.tsx:32-36 | the samples passed to the ceiling heuristic are the in-order concatenation, per raw point, of its P95 followed by its P50 when that is a number |
| `DailyLatencyChart.SamplesLength` | apps/web/src/components/DailyLatencyChart.tsx:32-36 | there is one sample per raw point plus one per numeric P50, so the count lies between `\|rawData\|` and `2·\|rawData\|` |
| `DailyLatencyChart.SampleComesFromPoint` | apps/web/src/components/DailyLatencyChart.tsx:33-35 | every sample is the P95 or the numeric P50 of some raw point |
| `DailyLatencyChart.PointContributesSamples` | apps/web/src/components/DailyLatencyChart.tsx:33-35 | every raw P95 and every numeric raw P50 is among the samples |
| `DailyLatencyChart.ClipP95` | apps/web/src/components/DailyLatencyChart.tsx:39-40 | the plotted P95 is null if and only if a ceiling exists and the raw P95 exceeds it. Otherwise it equals the raw P95, so it is never above the ceiling |
| `DailyLatencyChart.ClipP50` | apps/web/src/components/DailyLatencyChart.tsx:41-46 | an absent P50 stays absent. A numeric P50 is plotted as null if and only if a ceiling exists and the P50 exceeds it. Otherwise the raw P50 is kept unchanged, so it is never above the ceiling |
| `DailyLatencyChart.ClipP50AgreesWithClipP95` | apps/web/src/components/DailyLatencyChart.tsx:39-46 | a numeric P50 is clipped by the same rule, against the same ceiling, as a P95 |
| `DailyLatencyChart.PlotData` | apps/web/src/components/DailyLatencyChart.tsx:37-47 | `data` has the length and order of `rawData`, and each point keeps its day and raw P95/P50. With no ceiling, both plotted values equal the raw ones. With a ceiling, a numeric P95 or P50 is plotted as null exactly when it exceeds the ceiling and as itself otherwise. An absent P50 stays absent |
| `DailyLatencyChart.YAxisDomainProps` | apps/web/src/components/DailyLatencyChart.tsx:48-51 | there is no domain override if and only if there is no ceiling. A ceiling `c` gives the domain `[0, c]` with data overflow allowed |
| `DailyLatencyChart.PlottedWithinDomain` | apps/web/src/components/DailyLatencyChart.tsx:37-51 | when the axis is capped, no value that is still plotted lies above the cap |
| `DailyLatencyChart.Render` | apps/web/src/components/DailyLatencyChart.tsx:22-59 | the "no latency data" view is shown if and only if no day point has a numeric P95 |
| `DailyLatencyChart.RenderChartFaithful` | apps/web/src/components/DailyLatencyChart.tsx:22-59 | the chart is exactly the clipped `data` and the domain override derived from the one ceiling the heuristic returns for the kept points' samples. It plots one point per day point with a numeric P95, in order, with that point's day and raw latencies. Without a ceiling nothing is clipped and the axis is not capped. With a ceiling `c` the axis is `[0, c]` with overflow allowed; a numeric P95 or P50 is plotted as null exactly when it is above `c` and as itself otherwise, and an absent P50 stays absent |
| `DailyLatencyChart.TooltipFormat` | apps/web/src/components/DailyLatencyChart.tsx:82-91 | the label is 'P50' for series `p50_latency_plot` and 'P95' otherwise. The value is '-' exactly when there is no payload or the selected raw value is absent; otherwise it is the raw P50 for the P50 series and the raw P95 for any other series |
| `DailyLatencyChart.TooltipShowsRawLatency` | apps/web/src/components/DailyLatencyChart.tsx:82-91 | on a plotted point the tooltip reports the raw latency even when the plotted value was clipped to null. The P95 series never shows '-' |

## Left out

- `suggestLatencyAxisCeiling` (its median/multiplier policy, minimum sample count and order independence): its source is not part of this model. It is a parameter of `Render`, and nothing is assumed about what it returns.
- Rendering through Recharts (`ResponsiveContainer`, `LineChart`, axes, lines, `connectNulls`, colours, margins, height): a foreign UI library.
- Theme and internationalisation hooks (`useTheme`, `useI18n`, the translated "no latency data" text): React context plumbing. `NoLatencyData` stands for that view.
- Date and number formatting (`formatDay`, the tooltip `labelFormatter`, the `ms` suffix strings): these depend on locale-aware host APIs and on JavaScript's number-to-string conversion. The tooltip model returns the raw value it would print (`Ms`) or `Missing` for '-'.
- Fields of the analytics day point other than the day timestamp and the two latencies: the projection drops them, so they do not affect the pipeline.
- JavaScript number edge cases (`NaN`, `Infinity` pass `typeof === 'number'`): latencies are exact reals here.

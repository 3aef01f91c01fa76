/** The data-preparation pipeline of the daily latency chart: which day points
    are plotted, which latency samples the axis-ceiling heuristic sees, how
    each plotted value is clipped against that ceiling, what Y-axis domain the
    chart receives, when the "no data" view is shown, and which raw value the
    tooltip reports. Latencies are milliseconds, modelled as `real`. */
module DailyLatencyChart {
  import opened Wrappers

  // ---------------------------------------------------------------------
  // Data model
  // ---------------------------------------------------------------------

  /** One aggregated day of monitor analytics as handed to the chart.
      A latency that is not a number (null or undefined) is `None`. */
  datatype DayPoint = DayPoint(dayStartAt: int, p95LatencyMs: Option<real>, p50LatencyMs: Option<real>)

  /** A day point kept for plotting: its P95 is known to be a number. */
  datatype RawPoint = RawPoint(day: int, p95LatencyMs: real, p50LatencyMs: Option<real>)

  /** A raw point together with the values actually drawn; a plotted value
      of `None` is a null handed to the chart. */
  datatype PlotPoint = PlotPoint(
    day: int,
    p95LatencyMs: real,
    p50LatencyMs: Option<real>,
    p95LatencyPlot: Option<real>,
    p50LatencyPlot: Option<real>)

  /** The Y-axis domain override: `[lower, upper]` and Recharts' overflow flag. */
  datatype YAxisDomain = YAxisDomain(lower: real, upper: real, allowDataOverflow: bool)

  /** What the component shows: the "no latency data" message, or the chart
      with its plotted points and optional Y-axis domain override. */
  datatype View = NoLatencyData | Chart(data: seq<PlotPoint>, yAxis: Option<YAxisDomain>)

  /** The value cell of a tooltip line: '-' or a raw latency in milliseconds. */
  datatype TooltipValue = Missing | Ms(latency: real)

  /** A tooltip line: its value cell and its series label. */
  datatype TooltipLine = TooltipLine(value: TooltipValue, seriesLabel: string)

  /** The data key of the P50 line; every other series is read as P95. */
  const P50Series: string := "p50_latency_plot"

  // ---------------------------------------------------------------------
  // Step 1: keep the day points whose P95 is a number, in order
  // ---------------------------------------------------------------------

  predicate HasNumericP95(p: DayPoint) {
    p.p95LatencyMs.Some?
  }

  function Project(p: DayPoint): RawPoint
    requires HasNumericP95(p)
  {
    RawPoint(p.dayStartAt, p.p95LatencyMs.value, p.p50LatencyMs)
  }

  /** `rawData`: the filter on a numeric P95 followed by the projection. */
  function RawData(points: seq<DayPoint>): (r: seq<RawPoint>)
    ensures |r| <= |points|
  {
    if points == [] then []
    else if HasNumericP95(points[0]) then [Project(points[0])] + RawData(points[1..])
    else RawData(points[1..])
  }

  /** Reference for the filter: the indices, from `i` on, of the day points
      whose P95 is a number, in increasing order. */
  function KeptFrom(points: seq<DayPoint>, i: nat): (ks: seq<nat>)
    requires i <= |points|
    ensures forall k :: 0 <= k < |ks| ==> i <= ks[k] < |points| && HasNumericP95(points[ks[k]])
    ensures forall k, l :: 0 <= k < l < |ks| ==> ks[k] < ks[l]
    ensures forall j :: i <= j < |points| && HasNumericP95(points[j]) ==> j in ks
    decreases |points| - i
  {
    if i == |points| then []
    else if HasNumericP95(points[i]) then [i] + KeptFrom(points, i + 1)
    else KeptFrom(points, i + 1)
  }

  function KeptIndices(points: seq<DayPoint>): seq<nat> {
    KeptFrom(points, 0)
  }

  lemma {:induction false} RawDataSuffixAt(points: seq<DayPoint>, i: nat, k: nat)
    requires i <= |points|
    ensures |RawData(points[i..])| == |KeptFrom(points, i)|
    ensures k < |KeptFrom(points, i)| ==> RawData(points[i..])[k] == Project(points[KeptFrom(points, i)[k]])
    decreases |points| - i
  {
    if i < |points| {
      assert points[i..][0] == points[i];
      assert points[i..][1..] == points[i + 1..];
      if HasNumericP95(points[i]) {
        RawDataSuffixAt(points, i + 1, if k > 0 then k - 1 else 0);
      } else {
        RawDataSuffixAt(points, i + 1, k);
      }
    }
  }

  /** `rawData` holds exactly the day points with a numeric P95, in their
      original order, each carrying its day, P95 and P50 unchanged. */
  lemma {:induction false} RawDataIsSelection(points: seq<DayPoint>)
    ensures |RawData(points)| == |KeptIndices(points)|
    ensures forall k :: 0 <= k < |KeptIndices(points)| ==>
              && RawData(points)[k].day == points[KeptIndices(points)[k]].dayStartAt
              && Some(RawData(points)[k].p95LatencyMs) == points[KeptIndices(points)[k]].p95LatencyMs
              && RawData(points)[k].p50LatencyMs == points[KeptIndices(points)[k]].p50LatencyMs
  {
    assert points[0..] == points;
    RawDataSuffixAt(points, 0, 0);
    forall k | 0 <= k < |KeptIndices(points)|
      ensures RawData(points)[k] == Project(points[KeptIndices(points)[k]])
    {
      RawDataSuffixAt(points, 0, k);
    }
  }

  /** The filter distributes over concatenation of the input. */
  lemma {:induction false} RawDataConcat(a: seq<DayPoint>, b: seq<DayPoint>)
    ensures RawData(a + b) == RawData(a) + RawData(b)
  {
    if a != [] {
      assert (a + b)[0] == a[0];
      assert (a + b)[1..] == a[1..] + b;
      RawDataConcat(a[1..], b);
    } else {
      assert a + b == b;
    }
  }

  /** `rawData` is empty exactly when no day point has a numeric P95. */
  lemma {:induction false} RawDataEmptyIff(points: seq<DayPoint>)
    ensures RawData(points) == [] <==> forall i :: 0 <= i < |points| ==> !HasNumericP95(points[i])
  {
    RawDataIsSelection(points);
    var ks := KeptIndices(points);
    if |ks| > 0 {
      assert HasNumericP95(points[ks[0]]);
    }
    if exists i :: 0 <= i < |points| && HasNumericP95(points[i]) {
      var i :| 0 <= i < |points| && HasNumericP95(points[i]);
      assert i in ks;
    }
  }

  /** Nothing is dropped exactly when every day point has a numeric P95. */
  lemma {:induction false} RawDataKeepsAllIff(points: seq<DayPoint>)
    ensures |RawData(points)| == |points| <==> forall i :: 0 <= i < |points| ==> HasNumericP95(points[i])
  {
    if points != [] {
      RawDataKeepsAllIff(points[1..]);
      if forall i :: 0 <= i < |points| ==> HasNumericP95(points[i]) {
        assert forall i :: 0 <= i < |points[1..]| ==> HasNumericP95(points[1..][i]) by {
          forall i | 0 <= i < |points[1..]| ensures HasNumericP95(points[1..][i]) {
            assert points[1..][i] == points[i + 1];
          }
        }
      } else if HasNumericP95(points[0]) {
        var j :| 0 <= j < |points| && !HasNumericP95(points[j]);
        assert points[1..][j - 1] == points[j];
      }
    }
  }

  // ---------------------------------------------------------------------
  // Step 2: the samples handed to the axis-ceiling heuristic
  // ---------------------------------------------------------------------

  /** The `flatMap` step: each raw point contributes `[p95, p50]`. */
  function FlatLatencies(raw: seq<RawPoint>): (xs: seq<Option<real>>)
    ensures |xs| == 2 * |raw|
  {
    if raw == [] then []
    else [Some(raw[0].p95LatencyMs), raw[0].p50LatencyMs] + FlatLatencies(raw[1..])
  }

  /** The `filter` step: keeps the values that are numbers, in order. */
  function Numbers(xs: seq<Option<real>>): (ns: seq<real>)
    ensures |ns| <= |xs|
  {
    if xs == [] then []
    else (if xs[0].Some? then [xs[0].value] else []) + Numbers(xs[1..])
  }

  /** The samples passed to `suggestLatencyAxisCeiling`. */
  function Samples(raw: seq<RawPoint>): seq<real> {
    Numbers(FlatLatencies(raw))
  }

  /** Reference: the samples one raw point contributes, P95 then P50 if numeric. */
  function PointSamples(p: RawPoint): seq<real> {
    [p.p95LatencyMs] + (if p.p50LatencyMs.Some? then [p.p50LatencyMs.value] else [])
  }

  /** Reference: the in-order concatenation of every point's own samples. */
  function PerPointSamples(raw: seq<RawPoint>): seq<real> {
    if raw == [] then [] else PointSamples(raw[0]) + PerPointSamples(raw[1..])
  }

  function NumericP50Count(raw: seq<RawPoint>): (n: nat)
    ensures n <= |raw|
  {
    if raw == [] then 0
    else (if raw[0].p50LatencyMs.Some? then 1 else 0) + NumericP50Count(raw[1..])
  }

  lemma {:induction false} NumbersConcat(xs: seq<Option<real>>, ys: seq<Option<real>>)
    ensures Numbers(xs + ys) == Numbers(xs) + Numbers(ys)
  {
    if xs != [] {
      assert (xs + ys)[0] == xs[0];
      assert (xs + ys)[1..] == xs[1..] + ys;
      NumbersConcat(xs[1..], ys);
    } else {
      assert xs + ys == ys;
    }
  }

  /** Flattening and then dropping non-numbers is the same as dropping each
      point's non-numeric P50 and then concatenating. */
  lemma {:induction false} SamplesArePerPoint(raw: seq<RawPoint>)
    ensures Samples(raw) == PerPointSamples(raw)
  {
    if raw != [] {
      var head: seq<Option<real>> := [Some(raw[0].p95LatencyMs), raw[0].p50LatencyMs];
      NumbersConcat(head, FlatLatencies(raw[1..]));
      assert head[1..] == [raw[0].p50LatencyMs];
      assert Numbers(head) == PointSamples(raw[0]);
      SamplesArePerPoint(raw[1..]);
    }
  }

  lemma {:induction false} PerPointSamplesLength(raw: seq<RawPoint>)
    ensures |PerPointSamples(raw)| == |raw| + NumericP50Count(raw)
  {
    if raw != [] {
      PerPointSamplesLength(raw[1..]);
    }
  }

  /** One sample per P95 plus one per numeric P50, so between `|raw|` and `2·|raw|`. */
  lemma SamplesLength(raw: seq<RawPoint>)
    ensures |Samples(raw)| == |raw| + NumericP50Count(raw)
    ensures |raw| <= |Samples(raw)| <= 2 * |raw|
  {
    SamplesArePerPoint(raw);
    PerPointSamplesLength(raw);
  }

  lemma {:induction false} PerPointSamplesFromPoints(raw: seq<RawPoint>, x: real)
    requires x in PerPointSamples(raw)
    ensures exists k :: 0 <= k < |raw| && (raw[k].p95LatencyMs == x || raw[k].p50LatencyMs == Some(x))
  {
    if x !in PointSamples(raw[0]) {
      PerPointSamplesFromPoints(raw[1..], x);
      var k :| 0 <= k < |raw[1..]| && (raw[1..][k].p95LatencyMs == x || raw[1..][k].p50LatencyMs == Some(x));
      assert raw[k + 1] == raw[1..][k];
    }
  }

  lemma {:induction false} PointInPerPointSamples(raw: seq<RawPoint>, k: nat)
    requires k < |raw|
    ensures raw[k].p95LatencyMs in PerPointSamples(raw)
    ensures raw[k].p50LatencyMs.Some? ==> raw[k].p50LatencyMs.value in PerPointSamples(raw)
  {
    if k > 0 {
      PointInPerPointSamples(raw[1..], k - 1);
      assert raw[1..][k - 1] == raw[k];
    }
  }

  /** Every sample is some raw point's P95 or numeric P50. */
  lemma SampleComesFromPoint(raw: seq<RawPoint>, x: real)
    requires x in Samples(raw)
    ensures exists k :: 0 <= k < |raw| && (raw[k].p95LatencyMs == x || raw[k].p50LatencyMs == Some(x))
  {
    SamplesArePerPoint(raw);
    PerPointSamplesFromPoints(raw, x);
  }

  /** Every raw P95, and every numeric raw P50, is among the samples. */
  lemma PointContributesSamples(raw: seq<RawPoint>, k: nat)
    requires k < |raw|
    ensures raw[k].p95LatencyMs in Samples(raw)
    ensures raw[k].p50LatencyMs.Some? ==> raw[k].p50LatencyMs.value in Samples(raw)
  {
    SamplesArePerPoint(raw);
    PointInPerPointSamples(raw, k);
  }

  // ---------------------------------------------------------------------
  // Step 3: clipping each plotted value against the shared ceiling
  // ---------------------------------------------------------------------

  /** The plotted P95: null exactly when a ceiling exists and the raw value exceeds it. */
  function ClipP95(ceiling: Option<real>, v: real): (r: Option<real>)
    ensures r.None? <==> ceiling.Some? && v > ceiling.value
    ensures r.Some? ==> r.value == v
    ensures r.Some? && ceiling.Some? ==> r.value <= ceiling.value
  {
    if ceiling.Some? && v > ceiling.value then None else Some(v)
  }

  /** The plotted P50: an absent P50 stays absent; a numeric one is null
      exactly when a ceiling exists and the value exceeds it. */
  function ClipP50(ceiling: Option<real>, v: Option<real>): (r: Option<real>)
    ensures v.None? ==> r.None?
    ensures v.Some? ==> (r.None? <==> ceiling.Some? && v.value > ceiling.value)
    ensures r.Some? ==> r == v
    ensures r.Some? && ceiling.Some? ==> r.value <= ceiling.value
  {
    if ceiling.Some? && v.Some? && v.value > ceiling.value then None else v
  }

  /** P50 and P95 follow the same rule against the same ceiling. */
  lemma ClipP50AgreesWithClipP95(ceiling: Option<real>, v: real)
    ensures ClipP50(ceiling, Some(v)) == ClipP95(ceiling, v)
  {
  }

  function ClipPoint(ceiling: Option<real>, p: RawPoint): PlotPoint {
    PlotPoint(p.day, p.p95LatencyMs, p.p50LatencyMs,
              ClipP95(ceiling, p.p95LatencyMs), ClipP50(ceiling, p.p50LatencyMs))
  }

  /** The raw fields of a plotted point: what the spread copies over. */
  function RawOf(p: PlotPoint): RawPoint {
    RawPoint(p.day, p.p95LatencyMs, p.p50LatencyMs)
  }

  /** `data`: every raw point with its plotted values added. */
  function PlotData(ceiling: Option<real>, raw: seq<RawPoint>): (data: seq<PlotPoint>)
    ensures |data| == |raw|
    ensures forall i :: 0 <= i < |raw| ==> RawOf(data[i]) == raw[i]
    ensures ceiling.None? ==> forall i :: 0 <= i < |raw| ==>
              data[i].p95LatencyPlot == Some(raw[i].p95LatencyMs) && data[i].p50LatencyPlot == raw[i].p50LatencyMs
    ensures forall i :: 0 <= i < |raw| ==>
              (data[i].p95LatencyPlot.None? <==> ceiling.Some? && raw[i].p95LatencyMs > ceiling.value)
    ensures forall i :: 0 <= i < |raw| && data[i].p95LatencyPlot.Some? ==>
              data[i].p95LatencyPlot.value == raw[i].p95LatencyMs
    ensures forall i :: 0 <= i < |raw| && raw[i].p50LatencyMs.None? ==> data[i].p50LatencyPlot.None?
    ensures forall i :: 0 <= i < |raw| && raw[i].p50LatencyMs.Some? ==>
              (data[i].p50LatencyPlot.None? <==> ceiling.Some? && raw[i].p50LatencyMs.value > ceiling.value)
    ensures forall i :: 0 <= i < |raw| && data[i].p50LatencyPlot.Some? ==>
              data[i].p50LatencyPlot == raw[i].p50LatencyMs
  {
    seq(|raw|, i requires 0 <= i < |raw| => ClipPoint(ceiling, raw[i]))
  }

  // ---------------------------------------------------------------------
  // Step 4: the Y-axis domain and the empty-state branch
  // ---------------------------------------------------------------------

  /** `yAxisDomainProps`: no override without a ceiling, else `[0, c]` with overflow allowed. */
  function YAxisDomainProps(ceiling: Option<real>): (d: Option<YAxisDomain>)
    ensures d.None? <==> ceiling.None?
    ensures d.Some? ==> d.value.lower == 0.0 && d.value.upper == ceiling.value && d.value.allowDataOverflow
  {
    if ceiling.None? then None else Some(YAxisDomain(0.0, ceiling.value, true))
  }

  /** Whenever the axis is capped, no value that is still plotted lies above the cap. */
  lemma PlottedWithinDomain(ceiling: Option<real>, raw: seq<RawPoint>)
    ensures YAxisDomainProps(ceiling).Some? ==>
              forall i :: 0 <= i < |raw| ==>
                && (PlotData(ceiling, raw)[i].p95LatencyPlot.Some? ==>
                      PlotData(ceiling, raw)[i].p95LatencyPlot.value <= YAxisDomainProps(ceiling).value.upper)
                && (PlotData(ceiling, raw)[i].p50LatencyPlot.Some? ==>
                      PlotData(ceiling, raw)[i].p50LatencyPlot.value <= YAxisDomainProps(ceiling).value.upper)
  {
  }

  /** The whole component. `suggest` stands for `suggestLatencyAxisCeiling`,
      whose policy is not part of this model. */
  function Render(points: seq<DayPoint>, suggest: seq<real> -> Option<real>): (v: View)
    ensures v.NoLatencyData? <==> forall i :: 0 <= i < |points| ==> !HasNumericP95(points[i])
  {
    RawDataEmptyIff(points);
    var rawData := RawData(points);
    var axisCeiling := suggest(Samples(rawData));
    var data := PlotData(axisCeiling, rawData);
    var yAxisDomainProps := YAxisDomainProps(axisCeiling);
    if |rawData| == 0 then NoLatencyData else Chart(data, yAxisDomainProps)
  }

  /** The chart plots one point per day point with a numeric P95, in order,
      each carrying that day point's day and raw latencies. Its points and its
      Y-axis domain are those derived from the one ceiling the heuristic
      returns for exactly those points' samples: without a ceiling nothing is
      clipped and the axis is not capped; with a ceiling `c` the axis is
      `[0, c]` with overflow allowed, and each numeric value is plotted as null
      exactly when it is above `c` and as itself otherwise. */
  lemma RenderChartFaithful(points: seq<DayPoint>, suggest: seq<real> -> Option<real>)
    requires Render(points, suggest).Chart?
    ensures var c := suggest(Samples(RawData(points)));
            Render(points, suggest) == Chart(PlotData(c, RawData(points)), YAxisDomainProps(c))
    ensures var v := Render(points, suggest);
            && 0 < |v.data| == |KeptIndices(points)|
            && (forall k :: 0 <= k < |v.data| ==>
                  && v.data[k].day == points[KeptIndices(points)[k]].dayStartAt
                  && Some(v.data[k].p95LatencyMs) == points[KeptIndices(points)[k]].p95LatencyMs
                  && v.data[k].p50LatencyMs == points[KeptIndices(points)[k]].p50LatencyMs)
    ensures var c, v := suggest(Samples(RawData(points))), Render(points, suggest);
            && (c.None? ==> v.yAxis.None? && forall k :: 0 <= k < |v.data| ==>
                  v.data[k].p95LatencyPlot == Some(v.data[k].p95LatencyMs)
                  && v.data[k].p50LatencyPlot == v.data[k].p50LatencyMs)
            && (c.Some? ==> v.yAxis == Some(YAxisDomain(0.0, c.value, true)))
            && (c.Some? ==> forall k :: 0 <= k < |v.data| ==>
                  && (v.data[k].p95LatencyPlot.None? <==> v.data[k].p95LatencyMs > c.value)
                  && (v.data[k].p95LatencyPlot.Some? ==> v.data[k].p95LatencyPlot.value == v.data[k].p95LatencyMs)
                  && (v.data[k].p50LatencyMs.None? ==> v.data[k].p50LatencyPlot.None?)
                  && (v.data[k].p50LatencyMs.Some? ==>
                        (v.data[k].p50LatencyPlot.None? <==> v.data[k].p50LatencyMs.value > c.value))
                  && (v.data[k].p50LatencyPlot.Some? ==> v.data[k].p50LatencyPlot == v.data[k].p50LatencyMs))
  {
    RawDataIsSelection(points);
    var raw := RawData(points);
    var data := PlotData(suggest(Samples(raw)), raw);
    assert forall k :: 0 <= k < |data| ==> RawOf(data[k]) == raw[k];
  }

  // ---------------------------------------------------------------------
  // Tooltip: the raw latency behind the hovered series
  // ---------------------------------------------------------------------

  /** The tooltip `formatter`: for the P50 series the raw P50, for any other
      series the raw P95, of the hovered point (if the chart passes one). */
  function TooltipFormat(name: string, payload: Option<PlotPoint>): (t: TooltipLine)
    ensures t.seriesLabel == (if name == P50Series then "P50" else "P95")
    ensures t.value.Missing? <==> payload.None? || (name == P50Series && payload.value.p50LatencyMs.None?)
    ensures t.value.Ms? && name == P50Series ==> payload.value.p50LatencyMs == Some(t.value.latency)
    ensures t.value.Ms? && name != P50Series ==> payload.value.p95LatencyMs == t.value.latency
  {
    var rawLatency :=
      if payload.None? then None
      else if name == P50Series then payload.value.p50LatencyMs
      else Some(payload.value.p95LatencyMs);
    var seriesLabel := if name == P50Series then "P50" else "P95";
    if rawLatency.Some? then TooltipLine(Ms(rawLatency.value), seriesLabel) else TooltipLine(Missing, seriesLabel)
  }

  /** Hovering a plotted point reports its raw latency even where the plotted
      value was clipped to null; the P95 line never shows '-'. */
  lemma TooltipShowsRawLatency(ceiling: Option<real>, raw: seq<RawPoint>, i: nat, name: string)
    requires i < |raw|
    ensures var t := TooltipFormat(name, Some(PlotData(ceiling, raw)[i]));
            && (name != P50Series ==> t.value == Ms(raw[i].p95LatencyMs))
            && (name == P50Series ==> t.value == if raw[i].p50LatencyMs.Some? then Ms(raw[i].p50LatencyMs.value) else Missing)
  {
    assert RawOf(PlotData(ceiling, raw)[i]) == raw[i];
  }
}

/** The three dashboard charts as plain option records: the theme presets,
    the options each chart starts with, re-theming, and loading a frequency
    table into a chart. The charting library itself (drawing, option
    resolution, `update()`) is not part of this model. */
module Charts {
  import opened Records
  import opened Theme
  import opened FrequencyTable

  datatype ChartConfig = ChartConfig(color: string, borderColor: string, gridColor: string)

  const DarkText := "#F5F5F7"
  const LightText := "#1D1D1F"
  const DarkGrid := "rgba(255, 255, 255, 0.1)"
  const LightGrid := "rgba(0, 0, 0, 0.1)"

  /** `getChartConfig`: the dark preset for exactly the string "dark", the
      light preset for every other string. */
  function GetChartConfig(theme: string): (cfg: ChartConfig)
    ensures cfg.color == DarkText <==> theme == Dark
    ensures theme == Dark ==> cfg == ChartConfig(DarkText, DarkText, DarkGrid)
    ensures theme != Dark ==> cfg == ChartConfig(LightText, LightText, LightGrid)
  {
    if theme == Dark then ChartConfig(DarkText, DarkText, DarkGrid)
    else ChartConfig(LightText, LightText, LightGrid)
  }

  datatype ChartKind = Pie | Bar | Line

  /** One axis of a chart (`options.scales.x`, `options.scales.y`). */
  datatype Scale = Scale(axis: string, beginAtZero: bool, tickColor: string, gridColor: string)

  /** `options.plugins.legend`; `labelColor` is None while the options leave
      the label colour to the library's default. */
  datatype Legend = Legend(display: bool, position: Option<string>, labelColor: Option<string>)

  /** A chart's options as this page reads and writes them: the labels and
      the first dataset's values, the axes in declaration order, and the
      legend. */
  datatype Chart = Chart(kind: ChartKind, labels: seq<string>, values: seq<int>,
                         scales: seq<Scale>, legend: Option<Legend>)

  function Axes(cfg: ChartConfig): seq<Scale>
  {
    [Scale("y", true, cfg.color, cfg.gridColor), Scale("x", false, cfg.color, cfg.gridColor)]
  }

  /** Every axis has the preset's tick and grid colours. */
  predicate AxesThemedWith(c: Chart, cfg: ChartConfig)
  {
    forall i :: 0 <= i < |c.scales| ==>
      c.scales[i].tickColor == cfg.color && c.scales[i].gridColor == cfg.gridColor
  }

  /** The watch model pie chart as `initCharts` creates it: no data, no
      axes, the legend at the bottom with the preset's text colour. */
  function NewWatchChart(cfg: ChartConfig): (c: Chart)
    ensures c.kind == Pie && c.labels == [] && c.values == [] && c.scales == []
    ensures ThemedWith(c, cfg)
    ensures c.legend.Some? && c.legend.value.display && c.legend.value.position == Some("bottom")
  {
    Chart(Pie, [], [], [], Some(Legend(true, Some("bottom"), Some(cfg.color))))
  }

  /** The feature bar chart as `initCharts` creates it: no data, a y axis
      starting at zero and an x axis, both in the preset's colours, and a
      hidden legend. */
  function NewFeatureChart(cfg: ChartConfig): (c: Chart)
    ensures c.kind == Bar && c.labels == [] && c.values == []
    ensures |c.scales| == 2 && c.scales[0].axis == "y" && c.scales[0].beginAtZero && c.scales[1].axis == "x"
    ensures AxesThemedWith(c, cfg)
    ensures c.legend.Some? && !c.legend.value.display
  {
    Chart(Bar, [], [], Axes(cfg), Some(Legend(false, None, None)))
  }

  /** The timeline line chart as `initCharts` creates it: the same axes and
      hidden legend as the feature chart. */
  function NewTimelineChart(cfg: ChartConfig): (c: Chart)
    ensures c.kind == Line && c.labels == [] && c.values == []
    ensures |c.scales| == 2 && c.scales[0].axis == "y" && c.scales[0].beginAtZero && c.scales[1].axis == "x"
    ensures AxesThemedWith(c, cfg)
    ensures c.legend.Some? && !c.legend.value.display
  {
    Chart(Line, [], [], Axes(cfg), Some(Legend(false, None, None)))
  }

  /** Every axis and the legend (if any) carry the preset's colours. */
  predicate ThemedWith(c: Chart, cfg: ChartConfig)
  {
    && AxesThemedWith(c, cfg)
    && (c.legend.Some? ==> c.legend.value.labelColor == Some(cfg.color))
  }

  /** `after` is `before` with the colours of every axis and of the legend
      labels replaced by the preset's, and nothing else changed. */
  predicate Rethemed(before: Chart, after: Chart, cfg: ChartConfig)
  {
    && after.kind == before.kind
    && after.labels == before.labels
    && after.values == before.values
    && |after.scales| == |before.scales|
    && (forall i :: 0 <= i < |before.scales| ==>
          after.scales[i] == before.scales[i].(tickColor := cfg.color, gridColor := cfg.gridColor))
    && after.legend == (if before.legend.Some?
                        then Some(before.legend.value.(labelColor := Some(cfg.color)))
                        else None)
  }

  /** The body of `updateChartsTheme` for one chart: walk the axes,
      overwriting tick and grid colours, then the legend label colour. */
  method RethemeChart(c: Chart, cfg: ChartConfig) returns (r: Chart)
    ensures Rethemed(c, r, cfg)
    ensures ThemedWith(r, cfg)
  {
    var scales := c.scales;
    var i := 0;
    while i < |scales|
      invariant i <= |scales| == |c.scales|
      invariant forall k :: 0 <= k < i ==>
        scales[k] == c.scales[k].(tickColor := cfg.color, gridColor := cfg.gridColor)
      invariant forall k :: i <= k < |scales| ==> scales[k] == c.scales[k]
    {
      scales := scales[i := scales[i].(tickColor := cfg.color)];
      scales := scales[i := scales[i].(gridColor := cfg.gridColor)];
      i := i + 1;
    }
    var legend := c.legend;
    if legend.Some? {
      legend := Some(legend.value.(labelColor := Some(cfg.color)));
    }
    r := c.(scales := scales, legend := legend);
  }

  /** Re-theming is determined by the chart and the preset, and doing it
      again with the same preset changes nothing. */
  lemma RethemeIdempotent(c: Chart, r1: Chart, r2: Chart, cfg: ChartConfig)
    requires Rethemed(c, r1, cfg)
    ensures Rethemed(r1, r2, cfg) <==> r2 == r1
  {
    if Rethemed(r1, r2, cfg) {
      assert r2.scales == r1.scales;
    }
  }

  /** The chart with its labels and values replaced by a table's keys and
      counts, as `updateDashboard` assigns them. */
  function WithData(c: Chart, t: Table): (r: Chart)
    ensures |r.labels| == |r.values| == |t|
    ensures forall i :: 0 <= i < |t| ==> r.labels[i] == t[i].0 && r.values[i] == t[i].1
    ensures r.kind == c.kind && r.scales == c.scales && r.legend == c.legend
  {
    c.(labels := Keys(t), values := Counts(t))
  }

  /** A chart loaded with the tally of some values shows each distinct value
      once, in first-seen order, next to its number of occurrences, and its
      values add up to the number of values counted. */
  lemma ChartShowsTally(c: Chart, s: seq<string>)
    ensures var r := WithData(c, Tally(s));
      && r.labels == Distinct(s)
      && |r.values| == |r.labels|
      && (forall i :: 0 <= i < |r.labels| ==> r.values[i] == multiset(s)[r.labels[i]])
      && Total(Tally(s)) == |s|
  {
    TallySum(s);
  }
}

/** The analytics dashboard script. Its module-level chart handles, the
    theme state it shares with the landing page (storage, the root's
    `data-theme` attribute, the toggle icon) and the four summary texts are
    the state of one `Dashboard` object. */
module DashboardPage {
  import opened Records
  import opened Theme
  import opened Decimal
  import opened FrequencyTable
  import opened Aggregation
  import opened Charts

  const TotalField := "totalSubmissions"
  const Last24Field := "last24Hours"
  const TopWatchField := "topWatch"
  const TopFeatureField := "topFeature"
  const ErrorText := "Error"

  /** The store's answer to the query for all submissions, newest first: an
      error, a response without data, or the rows. */
  datatype FetchResult = StoreError | NoData | Rows(data: seq<Submission>)

  /** The ids of the four summary texts. */
  const SummaryFields: set<string> := {TotalField, Last24Field, TopWatchField, TopFeatureField}

  /** `after` has the same entries as `before` for every id outside `ids`. */
  ghost predicate AgreeOutside(after: map<string, string>, before: map<string, string>, ids: set<string>)
  {
    forall k :: k !in ids ==> (k in after <==> k in before) && (k in before ==> after[k] == before[k])
  }

  /** The two counts `updateDashboard` writes before it touches any chart:
      the total and the window count, as decimal texts that read back as
      those numbers; no other text changes. */
  function Counted(display: map<string, string>, data: seq<Submission>, now: int): (d: map<string, string>)
    ensures TotalField in d && IsDecimal(d[TotalField]) && ParseDecimal(d[TotalField]) == |data|
    ensures Last24Field in d && IsDecimal(d[Last24Field]) && ParseDecimal(d[Last24Field]) == |Recent(data, now)|
    ensures AgreeOutside(d, display, {TotalField, Last24Field})
  {
    DecimalRoundTrip(|data|);
    DecimalRoundTrip(|Recent(data, now)|);
    display[TotalField := DecimalString(|data|)][Last24Field := DecimalString(|Recent(data, now)|)]
  }

  /** All four summary texts after a complete refresh: the two counts of
      `Counted` and the two top labels; no other text changes. What the top
      labels mean is stated by `SummaryShows`. */
  function Summary(display: map<string, string>, data: seq<Submission>, now: int): (d: map<string, string>)
    ensures forall k :: k in SummaryFields ==> k in d
    ensures AgreeOutside(d, display, SummaryFields)
  {
    Counted(display, data, now)
      [TopWatchField := TopLabel(Tally(ModelKeys(data)))]
      [TopFeatureField := TopLabel(Tally(FeatureKeys(data)))]
  }

  /** The four summary texts after a failed refresh: each reads "Error";
      no other text changes. */
  function ErrorSummary(display: map<string, string>): (d: map<string, string>)
    ensures forall k :: k in SummaryFields ==> k in d && d[k] == ErrorText
    ensures AgreeOutside(d, display, SummaryFields)
  {
    display[TotalField := ErrorText][Last24Field := ErrorText]
      [TopWatchField := ErrorText][TopFeatureField := ErrorText]
  }

  /** A refresh that fails after writing the two counts shows the same
      texts as one that fails before. */
  lemma ErrorHidesCounts(display: map<string, string>, data: seq<Submission>, now: int)
    ensures ErrorSummary(Counted(display, data, now)) == ErrorSummary(display)
  {
  }

  /** What a complete refresh shows: the number of records, the number in the
      window (never more), and for each category the most frequent value,
      earliest-seen first among ties, or "-" when there are no records. */
  lemma SummaryShows(display: map<string, string>, data: seq<Submission>, now: int)
    ensures var d := Summary(display, data, now);
      && TotalField in d && IsDecimal(d[TotalField]) && ParseDecimal(d[TotalField]) == |data|
      && Last24Field in d && IsDecimal(d[Last24Field])
      && ParseDecimal(d[Last24Field]) == |Recent(data, now)| <= |data|
      && (data == [] ==> d[TopWatchField] == "-" && d[TopFeatureField] == "-")
      && (data != [] ==> MostFrequentFirst(d[TopWatchField], ModelKeys(data)))
      && (data != [] ==> MostFrequentFirst(d[TopFeatureField], FeatureKeys(data)))
      && (forall k :: k !in {TotalField, Last24Field, TopWatchField, TopFeatureField} ==>
            (k in d <==> k in display) && (k in display ==> d[k] == display[k]))
  {
    DecimalRoundTrip(|data|);
    DecimalRoundTrip(|Recent(data, now)|);
    if data != [] {
      TopOfTally(ModelKeys(data));
      TopOfTally(FeatureKeys(data));
    }
  }

  /** The scenario of three records with models A, B, A: the model table is
      {A: 2, B: 1} in that order and A is shown as the top model. */
  lemma ThreeRecordScenario(r1: Submission, r2: Submission, r3: Submission)
    requires r1.watchModel == Text("A") && r2.watchModel == Text("B") && r3.watchModel == Text("A")
    ensures Tally(ModelKeys([r1, r2, r3])) == [("A", 2), ("B", 1)]
    ensures TopLabel(Tally(ModelKeys([r1, r2, r3]))) == "A"
  {
    assert ModelKeys([r1, r2, r3]) == ["A", "B", "A"];
    TallyOfABA();
    var t: Table := [("A", 2), ("B", 1)];
    assert FirstMaxIndex(t) == 0;
  }

  lemma TallyOfABA()
    ensures Tally(["A", "B", "A"]) == [("A", 2), ("B", 1)]
  {
    var ks := ["A", "B", "A"];
    DistinctOfABA();
    var t := Tally(ks);
    assert |t| == 2;
    assert multiset(ks) == multiset{"A", "A", "B"};
    assert t[0] == ("A", 2);
    assert t[1] == ("B", 1);
  }

  lemma DistinctOfABA()
    ensures Distinct(["A", "B", "A"]) == ["A", "B"]
  {
    var ks := ["A", "B", "A"];
    assert ks[..2][..1] == ["A"];
    assert Distinct(["A"]) == ["A"];
    assert ks[..2] == ["A", "B"];
    assert Distinct(["A", "B"]) == ["A", "B"];
  }

  /** The chart's labels and values are the table's keys and counts. */
  predicate Shows(c: Chart, t: Table)
  {
    c.labels == Keys(t) && c.values == Counts(t)
  }

  /** Loading data into a chart changes nothing but its labels and values. */
  lemma LoadingKeepsStyle(initial: Chart, c: Chart, t: Table, cfg: ChartConfig)
    requires Rethemed(initial, c.(labels := [], values := []), cfg)
    ensures Rethemed(initial, WithData(c, t).(labels := [], values := []), cfg)
  {
    assert WithData(c, t).(labels := [], values := []) == c.(labels := [], values := []);
  }

  /** Re-theming a chart handle that may not exist: a missing chart stays
      missing, an existing one is re-themed. */
  predicate RethemedOpt(before: Option<Chart>, after: Option<Chart>, cfg: ChartConfig)
  {
    match before
    case None => after == None
    case Some(c) => after.Some? && Rethemed(c, after.value, cfg)
  }

  /** A chart handle after a table is loaded into it. */
  function Loaded(c: Option<Chart>, t: Table): Option<Chart>
  {
    match c
    case None => None
    case Some(chart) => Some(WithData(chart, t))
  }

  class Dashboard {
    var storage: map<string, string>
    var themeAttr: Option<string>
    var icon: Option<Icon>
    var watchChart: Option<Chart>
    var featureChart: Option<Chart>
    var timelineChart: Option<Chart>
    var display: map<string, string>

    /** The page before its load handler has run: no charts yet. */
    constructor (storage: map<string, string>)
      ensures this.storage == storage && themeAttr == None && icon == None
      ensures watchChart == None && featureChart == None && timelineChart == None
      ensures display == map[]
    {
      this.storage := storage;
      themeAttr := None;
      icon := None;
      watchChart := None;
      featureChart := None;
      timelineChart := None;
      display := map[];
    }

    /** `watchChart && featureChart && timelineChart`. */
    predicate ChartsReady()
      reads this
    {
      watchChart.Some? && featureChart.Some? && timelineChart.Some?
    }

    /** `initCharts`: the three charts, empty and styled for `theme`. */
    method InitCharts(theme: string)
      modifies this`watchChart, this`featureChart, this`timelineChart
      ensures watchChart == Some(NewWatchChart(GetChartConfig(theme)))
      ensures featureChart == Some(NewFeatureChart(GetChartConfig(theme)))
      ensures timelineChart == Some(NewTimelineChart(GetChartConfig(theme)))
    {
      var cfg := GetChartConfig(theme);
      watchChart := Some(NewWatchChart(cfg));
      featureChart := Some(NewFeatureChart(cfg));
      timelineChart := Some(NewTimelineChart(cfg));
    }

    /** `updateChartsTheme`: every chart that exists gets the preset's
        colours on its axes and legend; labels and data stay as they were. */
    method UpdateChartsTheme(theme: string)
      modifies this`watchChart, this`featureChart, this`timelineChart
      ensures RethemedOpt(old(watchChart), watchChart, GetChartConfig(theme))
      ensures RethemedOpt(old(featureChart), featureChart, GetChartConfig(theme))
      ensures RethemedOpt(old(timelineChart), timelineChart, GetChartConfig(theme))
    {
      var cfg := GetChartConfig(theme);
      if watchChart.Some? {
        var c := RethemeChart(watchChart.value, cfg);
        watchChart := Some(c);
      }
      if featureChart.Some? {
        var c := RethemeChart(featureChart.value, cfg);
        featureChart := Some(c);
      }
      if timelineChart.Some? {
        var c := RethemeChart(timelineChart.value, cfg);
        timelineChart := Some(c);
      }
    }

    /** `setTheme`: the attribute, the stored preference and the icon follow
        `theme`; the charts are re-themed only when all three exist. */
    method SetTheme(theme: string)
      modifies this`themeAttr, this`storage, this`icon
      modifies this`watchChart, this`featureChart, this`timelineChart
      ensures themeAttr == Some(theme)
      ensures storage == old(storage)[ThemeKey := theme]
      ensures icon == Some(IconFor(theme))
      ensures old(ChartsReady()) ==>
        && RethemedOpt(old(watchChart), watchChart, GetChartConfig(theme))
        && RethemedOpt(old(featureChart), featureChart, GetChartConfig(theme))
        && RethemedOpt(old(timelineChart), timelineChart, GetChartConfig(theme))
      ensures !old(ChartsReady()) ==>
        watchChart == old(watchChart) && featureChart == old(featureChart) && timelineChart == old(timelineChart)
    {
      themeAttr := Some(theme);
      storage := storage[ThemeKey := theme];
      icon := Some(IconFor(theme));
      if ChartsReady() {
        UpdateChartsTheme(theme);
      }
    }

    /** `initTheme`: apply the stored preference, light when there is none. */
    method InitTheme()
      modifies this`themeAttr, this`storage, this`icon
      modifies this`watchChart, this`featureChart, this`timelineChart
      ensures themeAttr == Some(SavedTheme(old(storage)))
      ensures storage == old(storage)[ThemeKey := SavedTheme(old(storage))]
      ensures icon == Some(IconFor(SavedTheme(old(storage))))
      ensures old(ChartsReady()) ==>
        && RethemedOpt(old(watchChart), watchChart, GetChartConfig(SavedTheme(old(storage))))
        && RethemedOpt(old(featureChart), featureChart, GetChartConfig(SavedTheme(old(storage))))
        && RethemedOpt(old(timelineChart), timelineChart, GetChartConfig(SavedTheme(old(storage))))
      ensures !old(ChartsReady()) ==>
        watchChart == old(watchChart) && featureChart == old(featureChart) && timelineChart == old(timelineChart)
    {
      SetTheme(SavedTheme(storage));
    }

    /** The toggle button's click handler. */
    method ClickToggle()
      modifies this`themeAttr, this`storage, this`icon
      modifies this`watchChart, this`featureChart, this`timelineChart
      ensures themeAttr == Some(Toggle(old(themeAttr)))
      ensures themeAttr != old(themeAttr)
      ensures storage == old(storage)[ThemeKey := Toggle(old(themeAttr))]
      ensures icon == Some(IconFor(Toggle(old(themeAttr))))
      ensures old(ChartsReady()) ==>
        && RethemedOpt(old(watchChart), watchChart, GetChartConfig(Toggle(old(themeAttr))))
        && RethemedOpt(old(featureChart), featureChart, GetChartConfig(Toggle(old(themeAttr))))
        && RethemedOpt(old(timelineChart), timelineChart, GetChartConfig(Toggle(old(themeAttr))))
      ensures !old(ChartsReady()) ==>
        watchChart == old(watchChart) && featureChart == old(featureChart) && timelineChart == old(timelineChart)
    {
      ToggleChanges(themeAttr);
      SetTheme(Toggle(themeAttr));
    }

    /** `updateDashboard`: write the two counts, count each table and load it
        into its chart, then write the two top labels. Dereferencing a
        chart that does not exist throws; the method then stops where the
        script would and reports `ok == false`. */
    method UpdateDashboard(data: seq<Submission>, now: int, dayKey: int -> string) returns (ok: bool)
      modifies this`display, this`watchChart, this`featureChart, this`timelineChart
      ensures ok == old(ChartsReady())
      ensures ok ==> display == Summary(old(display), data, now)
      ensures !ok ==> display == Counted(old(display), data, now)
      ensures watchChart == Loaded(old(watchChart), Tally(ModelKeys(data)))
      ensures featureChart == if old(watchChart).Some?
        then Loaded(old(featureChart), Tally(FeatureKeys(data))) else old(featureChart)
      ensures timelineChart == if old(watchChart).Some? && old(featureChart).Some?
        then Loaded(old(timelineChart), Tally(DayKeys(data, dayKey))) else old(timelineChart)
    {
      ghost var before := display;
      display := display[TotalField := DecimalString(|data|)];
      display := display[Last24Field := DecimalString(|Recent(data, now)|)];
      assert display == Counted(before, data, now);

      var watchCounts := CountBy(ModelKeys(data));
      if watchChart.None? {
        return false;
      }
      watchChart := Some(WithData(watchChart.value, watchCounts));

      var featureCounts := CountBy(FeatureKeys(data));
      if featureChart.None? {
        return false;
      }
      featureChart := Some(WithData(featureChart.value, featureCounts));

      var dayCounts := CountBy(DayKeys(data, dayKey));
      if timelineChart.None? {
        return false;
      }
      timelineChart := Some(WithData(timelineChart.value, dayCounts));

      display := display[TopWatchField := TopLabel(watchCounts)];
      display := display[TopFeatureField := TopLabel(featureCounts)];
      assert display == Summary(before, data, now);
      ok := true;
    }

    /** `fetchData`, given the store's answer: an error marks all four
        summary texts "Error" and leaves the charts alone, a response without
        data changes nothing, and rows refresh the dashboard (an exception
        inside the refresh is caught and also ends in "Error"). */
    method FetchData(result: FetchResult, now: int, dayKey: int -> string)
      modifies this`display, this`watchChart, this`featureChart, this`timelineChart
      ensures result == NoData ==>
        display == old(display) && watchChart == old(watchChart)
        && featureChart == old(featureChart) && timelineChart == old(timelineChart)
      ensures result == StoreError ==>
        display == ErrorSummary(old(display)) && watchChart == old(watchChart)
        && featureChart == old(featureChart) && timelineChart == old(timelineChart)
      ensures result.Rows? && old(ChartsReady()) ==>
        && display == Summary(old(display), result.data, now)
        && watchChart == Loaded(old(watchChart), Tally(ModelKeys(result.data)))
        && featureChart == Loaded(old(featureChart), Tally(FeatureKeys(result.data)))
        && timelineChart == Loaded(old(timelineChart), Tally(DayKeys(result.data, dayKey)))
      ensures result.Rows? && !old(ChartsReady()) ==>
        && display == ErrorSummary(old(display))
        && watchChart == Loaded(old(watchChart), Tally(ModelKeys(result.data)))
        && featureChart == (if old(watchChart).Some?
             then Loaded(old(featureChart), Tally(FeatureKeys(result.data))) else old(featureChart))
        && timelineChart == (if old(watchChart).Some? && old(featureChart).Some?
             then Loaded(old(timelineChart), Tally(DayKeys(result.data, dayKey))) else old(timelineChart))
    {
      match result
      case StoreError =>
        display := ErrorSummary(display);
      case NoData =>
      case Rows(data) =>
        ghost var before := display;
        var ok := UpdateDashboard(data, now, dayKey);
        if !ok {
          ErrorHidesCounts(before, data, now);
          display := ErrorSummary(display);
        }
    }

    /** The first part of the load handler: create the charts in the saved
        theme, then apply that theme. The charts are empty and styled for
        it, and the summary texts are untouched. */
    method Start()
      modifies this`themeAttr, this`storage, this`icon
      modifies this`watchChart, this`featureChart, this`timelineChart
      ensures themeAttr == Some(SavedTheme(old(storage)))
      ensures storage == old(storage)[ThemeKey := SavedTheme(old(storage))]
      ensures icon == Some(IconFor(SavedTheme(old(storage))))
      ensures ChartsReady()
      ensures watchChart.value.kind == Pie && featureChart.value.kind == Bar && timelineChart.value.kind == Line
      ensures ThemedWith(watchChart.value, GetChartConfig(SavedTheme(old(storage))))
      ensures ThemedWith(featureChart.value, GetChartConfig(SavedTheme(old(storage))))
      ensures ThemedWith(timelineChart.value, GetChartConfig(SavedTheme(old(storage))))
      ensures watchChart.value.labels == [] && watchChart.value.values == []
      ensures featureChart.value.labels == [] && featureChart.value.values == []
      ensures timelineChart.value.labels == [] && timelineChart.value.values == []
      ensures Rethemed(NewWatchChart(GetChartConfig(SavedTheme(old(storage)))), watchChart.value,
                       GetChartConfig(SavedTheme(old(storage))))
      ensures Rethemed(NewFeatureChart(GetChartConfig(SavedTheme(old(storage)))), featureChart.value,
                       GetChartConfig(SavedTheme(old(storage))))
      ensures Rethemed(NewTimelineChart(GetChartConfig(SavedTheme(old(storage)))), timelineChart.value,
                       GetChartConfig(SavedTheme(old(storage))))
    {
      var theme := SavedTheme(storage);
      InitCharts(theme);
      InitTheme();
    }

    /** The load handler: start, then fetch once. The periodic refresh
        repeats `FetchData`. */
    method Load(first: FetchResult, now: int, dayKey: int -> string)
      modifies this
      ensures ChartsReady()
      ensures themeAttr == Some(SavedTheme(old(storage)))
      ensures storage == old(storage)[ThemeKey := SavedTheme(old(storage))]
      ensures icon == Some(IconFor(SavedTheme(old(storage))))
      ensures watchChart.value.kind == Pie && featureChart.value.kind == Bar && timelineChart.value.kind == Line
      ensures ThemedWith(watchChart.value, GetChartConfig(SavedTheme(old(storage))))
      ensures ThemedWith(featureChart.value, GetChartConfig(SavedTheme(old(storage))))
      ensures ThemedWith(timelineChart.value, GetChartConfig(SavedTheme(old(storage))))
      ensures first.Rows? ==>
        && Shows(watchChart.value, Tally(ModelKeys(first.data)))
        && Shows(featureChart.value, Tally(FeatureKeys(first.data)))
        && Shows(timelineChart.value, Tally(DayKeys(first.data, dayKey)))
      ensures !first.Rows? ==>
        Shows(watchChart.value, []) && Shows(featureChart.value, []) && Shows(timelineChart.value, [])
      ensures first.Rows? ==> display == Summary(old(display), first.data, now)
      ensures first == StoreError ==> display == ErrorSummary(old(display))
      ensures first == NoData ==> display == old(display)
      ensures Rethemed(NewWatchChart(GetChartConfig(SavedTheme(old(storage)))),
                       watchChart.value.(labels := [], values := []), GetChartConfig(SavedTheme(old(storage))))
      ensures Rethemed(NewFeatureChart(GetChartConfig(SavedTheme(old(storage)))),
                       featureChart.value.(labels := [], values := []), GetChartConfig(SavedTheme(old(storage))))
      ensures Rethemed(NewTimelineChart(GetChartConfig(SavedTheme(old(storage)))),
                       timelineChart.value.(labels := [], values := []), GetChartConfig(SavedTheme(old(storage))))
    {
      Start();
      ghost var w, f, l := watchChart.value, featureChart.value, timelineChart.value;
      ghost var cfg := GetChartConfig(SavedTheme(old(storage)));
      assert w.(labels := [], values := []) == w && f.(labels := [], values := []) == f
        && l.(labels := [], values := []) == l;
      FetchData(first, now, dayKey);
      if first.Rows? {
        LoadingKeepsStyle(NewWatchChart(cfg), w, Tally(ModelKeys(first.data)), cfg);
        LoadingKeepsStyle(NewFeatureChart(cfg), f, Tally(FeatureKeys(first.data)), cfg);
        LoadingKeepsStyle(NewTimelineChart(cfg), l, Tally(DayKeys(first.data, dayKey)), cfg);
        assert watchChart == Some(WithData(w, Tally(ModelKeys(first.data))));
        assert featureChart == Some(WithData(f, Tally(FeatureKeys(first.data))));
        assert timelineChart == Some(WithData(l, Tally(DayKeys(first.data, dayKey))));
      }

    }
  }
}

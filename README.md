# Interest page and submissions dashboard — a Dafny model

This project models the client-side logic of a product landing page and of
its analytics dashboard.

- The landing page (`site/js/main.js`) keeps a light/dark theme preference.
  It shows a countdown to a launch date. Its interest form sends one
  submission record to a hosted data store.
- The dashboard (`site/js/dashboard.js`) fetches every submission and writes
  four summary texts: the total, the number of records from the last 24
  hours, the most frequent watch model and the most frequent top feature.
  It also fills three charts from frequency tables (by watch model, by
  feature, by day) and re-themes those charts when the theme changes.

The pure parts are functions with lemmas. The parts the scripts run by
mutating state are methods:

- the page state (storage, the `data-theme` attribute, the toggle icon,
  form controls, summary texts, chart handles) is the fields of the classes
  `LandingPage.Timer`, `LandingPage.Page` and `DashboardPage.Dashboard`;
- the counting `reduce` is a loop that updates an insertion-ordered table
  in place (`FrequencyTable.CountBy`);
- the re-theming is a loop over a chart's axes (`Charts.RethemeChart`).

Each frequency table is a sequence of (key, count) entries in the order the
keys were first added. Each counting method is proved against a reference
definition, `Tally`: every distinct value, in first-seen order, with its
number of occurrences.

Modules: `Records` (record types, property-key coercion), `Decimal`
(`String(n)` and `padStart`), `Theme`, `Countdown`, `LandingPage`,
`FrequencyTable`, `Aggregation`, `Charts`, `DashboardPage`.

The model keeps these behaviours of the code, which a reader might not
expect:

- A stored theme is used whatever its value. The stored value only falls
  back to `light` when it is missing or empty, because the code uses
  `getItem(...) || 'light'`. Values other than `light` and `dark` are
  possible, and `getChartConfig` gives every string other than `dark` the
  light preset.
- An empty summary shows the text `-` for the top entries. A category whose
  value is literally `-` shows the same text, so `-` does not mean "empty"
  in both directions. `TopLabel` states only the direction that holds.
- Missing and null category values go into buckets keyed `undefined` and
  `null`. These are the same buckets as the literal strings `"undefined"`
  and `"null"` (`Records.PropertyKey`).

## Model

| member | source | states |
|---|---|---|
| `Decimal.DecimalString` | site/js/main.js:40-43 | `String(n)` is well-formed decimal text; it starts with `-` exactly for negative `n`, and is then at least two characters long; its spelling is the shortest one (`DecimalStringCanonical`) |
| `Decimal.DecimalStringCanonical` | site/js/main.js:40-43 | `String(n)` has no leading zero, neither at the start nor after the minus sign, except for the text `0` itself |
| `Decimal.DecimalRoundTrip` | site/js/main.js:40-43 | parsing the text `String(n)` gives back `n`, for every integer |
| `Decimal.TwoDigit` | site/js/main.js:40-43 | `String(n).padStart(2, '0')` is at least two characters; a single digit gets one leading zero, and every other text is left as `String(n)` |
| `Decimal.PadStart` | site/js/main.js:40-43 | `padStart(width, fill)` returns a string at least `width` long unchanged; otherwise it returns exactly `width` characters made of `fill` copies followed by the original string |
| `Decimal.TwoDigitInRange` | site/js/main.js:41-43 | a value in [0, 100) renders as exactly two digits, which read back as the value |
| `Decimal.TwoDigitNonNegative` | site/js/main.js:40 | any non-negative value renders as at least two digits, which read back as the value |
| `Decimal.TwoDigitNegative` | site/js/main.js:40-43 | a negative value is never padded (`"-5"` stays `"-5"`) and reads back as itself |
| `Theme.IconFor` | site/js/main.js:10-13 | the toggle shows the sun icon exactly when the theme is `dark` |
| `Theme.SavedTheme` | site/js/main.js:15-18 | the theme applied at start is the stored value when it is present and non-empty, otherwise `light`; it is never empty |
| `Theme.Toggle` | site/js/main.js:20-23 | the click maps `dark` to `light` and every other attribute value, including none, to `dark` |
| `Theme.ToggleChanges` | site/js/main.js:20-23 | a click always lands on `light` or `dark` and always changes the attribute |
| `Theme.ToggleTwice` | site/js/main.js:20-23 | two clicks are the identity on {light, dark}; any other value ends on `light` after two clicks |
| `Countdown.JsRemainder` | site/js/main.js:36-38 | JavaScript `%` by a positive divisor lies strictly between minus and plus the divisor and has the sign of the dividend (its value is fixed by `JsRemainderQuotient`) |
| `Countdown.JsRemainderQuotient` | site/js/main.js:36-38 | the dividend is the quotient truncated toward zero times the divisor plus the remainder; with the range and sign of `JsRemainder` this determines the remainder |
| `Countdown.FloorDiv` | site/js/main.js:35-38 | `Math.floor(a / b)` is the greatest `q` with `q * b <= a`; it is non-negative exactly when `a` is |
| `Countdown.Split` | site/js/main.js:35-38 | before the launch no part is negative; after it the days are negative and no other part is positive |
| `Countdown.Render` | site/js/main.js:40-43 | every field is at least two characters long, and a negative part is shown as its own text, unpadded |
| `Countdown.Tick` | site/js/main.js:31-44 | until the launch a tick shows hours, minutes and seconds exactly two characters long |
| `Countdown.DaysShowMinus` | site/js/main.js:35-40 | after the launch the days text starts with a minus sign |
| `Countdown.SplitNonNegative` | site/js/main.js:33-38 | before the launch: days >= 0, 0 <= hours < 24, 0 <= minutes < 60, 0 <= seconds < 60, and days·86400000 + hours·3600000 + minutes·60000 + seconds·1000 is the distance less a remainder in [0, 1000) |
| `Countdown.SplitNegative` | site/js/main.js:35-38 | after the launch nothing fails: days <= -1, hours in [-24, 0], minutes and seconds in [-60, 0] |
| `Countdown.RenderNonNegative` | site/js/main.js:40-43 | before the launch, hours, minutes and seconds show exactly two digits and days at least two; each text reads back as its part |
| `Countdown.PastLaunchByOneMs` | site/js/main.js:31-43 | 1 ms after the launch every part is -1 and every field shows `-1` |
| `Countdown.PastLaunchByOneDay` | site/js/main.js:31-43 | a whole day after the launch the parts are -1, 0, 0, 0 and the fields show `-1`, `00`, `00`, `00` |
| `LandingPage.MakeSubmission` | site/js/main.js:55-62 | the record copies name, email and message, puts watchModel under `watch_model` and topFeature under `top_feature`, and stamps `created_at` with the submission time |
| `LandingPage.SubmissionKeepsForm` | site/js/main.js:55-62 | the form values can be recovered unchanged from the record sent |
| `LandingPage.Timer.constructor` | site/js/main.js:46-47 | loading the script draws the countdown for the current time at once |
| `LandingPage.Timer.UpdateCountdown` | site/js/main.js:31-44 | a tick shows the rendering of launch minus now |
| `LandingPage.Page.constructor` | site/js/main.js:15-26 | loading the script applies and stores the saved theme (light by default) and sets the icon to match |
| `LandingPage.Page.SetTheme` | site/js/main.js:4-8 | the attribute and the stored preference both become the argument; the icon follows it |
| `LandingPage.Page.InitTheme` | site/js/main.js:15-18 | the theme applied and stored is the saved one, `light` when none |
| `LandingPage.Page.ClickToggle` | site/js/main.js:20-23 | a click applies and stores the toggled theme, which differs from the current attribute, and the icon follows that theme |
| `LandingPage.Page.Submit` | site/js/main.js:52-77 | the record sent is built from the current form; the form is reset and thanks are shown only when the insert succeeded, and on failure the form is kept and a failure notice is shown |
| `Records.PropertyKey` | site/js/dashboard.js:215 | a text value is its own key; the key `null` comes exactly from a null value or the text `null`, and `undefined` exactly from a missing value or the text `undefined` |
| `FrequencyTable.Keys` | site/js/dashboard.js:220 | `Object.keys` lists the table's keys in entry order |
| `FrequencyTable.Counts` | site/js/dashboard.js:221 | `Object.values` lists the table's counts in entry order |
| `FrequencyTable.Distinct` | site/js/dashboard.js:214-217 | the table keys are exactly the values that occur, each once |
| `FrequencyTable.DistinctFirstSeenOrder` | site/js/dashboard.js:214-220 | the keys are in the order of each value's first occurrence |
| `FrequencyTable.TallyStep` | site/js/dashboard.js:215 | one counting step appends a new key with count 1, or adds one to a known key's count in place |
| `FrequencyTable.CountBy` | site/js/dashboard.js:214-217 | the counting loop's table has the distinct values in first-seen order as keys, and each value's number of occurrences as its count |
| `FrequencyTable.TallySum` | site/js/dashboard.js:214-217 | the counts of a table add up to the number of records counted |
| `FrequencyTable.InsertByCount` | site/js/dashboard.js:248 | inserting an entry into the sorted list keeps every entry and adds that one |
| `FrequencyTable.SortByCount` | site/js/dashboard.js:248-249 | the sort returns a permutation of the entries, ordered by descending count |
| `FrequencyTable.FirstMaxIndex` | site/js/dashboard.js:248-249 | the chosen entry's count is >= every count, and every earlier entry's count is strictly smaller |
| `FrequencyTable.SortHeadIsFirstMax` | site/js/dashboard.js:248-249 | because the sort is stable, the first sorted entry is the earliest entry with the largest count |
| `FrequencyTable.Top` | site/js/dashboard.js:248-249 | the top entry is absent exactly for an empty table, and otherwise is the earliest entry with the largest count |
| `FrequencyTable.TopLabel` | site/js/dashboard.js:248-252 | an empty table shows `-`; otherwise the key of the earliest entry with the largest count is shown |
| `FrequencyTable.TopOfTally` | site/js/dashboard.js:248-252 | for records, the top key is a value that occurs, occurs at least as often as any other, and wins ties by occurring first |
| `DashboardPage.LoadingKeepsStyle` | site/js/dashboard.js:220-244 | loading a table into a chart leaves its kind, axes and legend exactly as they were |
| `Aggregation.IsRecent` | site/js/dashboard.js:209 | a record is in the window exactly when it is less than 24 hours old |
| `Aggregation.ModelKeys` | site/js/dashboard.js:215 | one key per record, in record order: the property key of its watch model |
| `Aggregation.FeatureKeys` | site/js/dashboard.js:226 | one key per record, in record order: the property key of its top feature |
| `Aggregation.DayKeys` | site/js/dashboard.js:237-238 | one key per record, in record order: the day label of its creation time |
| `Aggregation.Recent` | site/js/dashboard.js:208-210 | the last-24h filter keeps every record with `created_at > now - 86400000`, as many times as it occurs, and no other record; it is never longer than the input |
| `Aggregation.RecentIsUpwardClosed` | site/js/dashboard.js:208-210 | any record at least as new as a record in the window is kept |
| `Charts.GetChartConfig` | site/js/dashboard.js:7-15 | the text colour is `#F5F5F7` exactly for the theme `dark`; `dark` gets the dark preset and every other string gets the light preset |
| `Charts.NewWatchChart` | site/js/dashboard.js:43-68 | the pie chart starts with no labels, data or axes, its legend shown at the bottom in the preset's text colour |
| `Charts.NewFeatureChart` | site/js/dashboard.js:72-108 | the bar chart starts with no labels or data, a y axis from zero and an x axis in the preset's colours, and a hidden legend |
| `Charts.NewTimelineChart` | site/js/dashboard.js:112-150 | the line chart starts with no labels or data, a y axis from zero and an x axis in the preset's colours, and a hidden legend |
| `Charts.RethemeChart` | site/js/dashboard.js:156-171 | every axis's tick and grid colour and the legend label colour become the preset's; kind, labels, data and the rest of each axis are unchanged |
| `Charts.RethemeIdempotent` | site/js/dashboard.js:153-172 | re-theming gives one result for a given chart and preset, and re-theming again with the same preset changes nothing |
| `Charts.WithData` | site/js/dashboard.js:220-221 | after loading a table, labels and data have the table's length and match its keys and counts index by index; the styling is unchanged |
| `Charts.ChartShowsTally` | site/js/dashboard.js:214-244 | a chart loaded from records shows each distinct value once, in first-seen order, next to its number of occurrences; the counts add up to the number of records |
| `DashboardPage.Counted` | site/js/dashboard.js:206-211 | the total and the window count are written as decimal texts that read back as those numbers; no other text changes |
| `DashboardPage.Summary` | site/js/dashboard.js:204-253 | a complete refresh sets all four summary texts and changes no other text |
| `DashboardPage.ErrorSummary` | site/js/dashboard.js:195-200 | after a failed fetch all four summary texts read `Error` and no other text changes |
| `DashboardPage.ErrorHidesCounts` | site/js/dashboard.js:195-211 | a refresh that throws after writing the two counts ends with the same texts as one that fails before |
| `DashboardPage.SummaryShows` | site/js/dashboard.js:204-253 | after a refresh the total reads back as the number of records and the last-24h text as the window count (never more than the total); the top texts are `-` for no records, and otherwise the value occurring most often, the earliest-seen one among ties; other fields are untouched |
| `DashboardPage.ThreeRecordScenario` | site/js/dashboard.js:214-252 | models A, B, A give the table {A: 2, B: 1} in that order, and A as the top model |
| `DashboardPage.Dashboard.constructor` | site/js/dashboard.js:4 | before the load handler no chart exists |
| `DashboardPage.Dashboard.InitCharts` | site/js/dashboard.js:38-151 | the three charts are created empty, styled with the preset of the given theme |
| `DashboardPage.Dashboard.UpdateChartsTheme` | site/js/dashboard.js:153-172 | every existing chart is re-themed to the preset, with its data unchanged; a missing chart stays missing |
| `DashboardPage.Dashboard.SetTheme` | site/js/dashboard.js:18-25 | the attribute, the stored preference and the icon follow the argument; the charts are re-themed when all three exist, and untouched otherwise |
| `DashboardPage.Dashboard.InitTheme` | site/js/dashboard.js:32-35 | the saved theme (light by default) is applied and stored and the icon follows it; the charts are re-themed to it when all three exist, and untouched otherwise |
| `DashboardPage.Dashboard.ClickToggle` | site/js/dashboard.js:264-267 | a click applies and stores the toggled theme, which differs from the current one, and the icon follows it; the charts are re-themed to it when all three exist, and untouched otherwise |
| `DashboardPage.Dashboard.UpdateDashboard` | site/js/dashboard.js:204-253 | with all charts present, the four texts become the summary and each chart holds its table (models, features, days); a missing chart stops the update where the script would throw |
| `DashboardPage.Dashboard.FetchData` | site/js/dashboard.js:175-202 | on an error all four summary texts become `Error` and the charts are untouched; a response without data changes nothing; rows refresh the dashboard; a refresh that throws ends in `Error`, with the charts before the missing one loaded |
| `DashboardPage.Dashboard.Start` | site/js/dashboard.js:256-262 | the three charts exist, empty, and each is its initial chart (kind, axes with the y axis from zero, legend) re-themed for the saved theme; that theme is applied and stored and the icon follows it |
| `DashboardPage.Dashboard.Load` | site/js/dashboard.js:256-270 | after loading, all three charts exist and, apart from their data, are their initial charts re-themed for the saved theme; that theme is applied and stored and the icon follows it; after rows each chart shows the tally of its keys (models, features, days), otherwise it stays empty; the summary texts show the first fetch's result |

## Left out

- Recent: the contract says which records the window filter keeps and how often, not in what order; only the number kept is shown (`site/js/dashboard.js:210`).
- Network I/O to the data store is not modelled: the select query in `fetchData` and the insert in the form handler. Their answers are inputs (`FetchResult`, `InsertOutcome`). The store's newest-first ordering is taken as given. The round trip "a submitted record appears in the next fetch" needs the store, so it is not modelled.
- The charting library is not modelled: chart construction, `chart.update()`, drawing, and its option resolution. Charts are plain option records. The `legend.labels` object on the bar and line charts is assumed to exist, as the library's defaults provide it. An unset label colour is `None`.
- The DOM and `localStorage` are not modelled as such. Storage is a `map<string, string>`. The dashboard's summary texts are a map from element id to text. The countdown texts, the `data-theme` attribute, the toggle icon (as `Sun`/`Moon`, not its markup), the form controls and the last alert are fields. Console logging is dropped.
- `site/js/config.js` (the store client) is not part of this model.
- The timers are not modelled: the 30-second refresh (`site/js/dashboard.js:273`) and the 1-second countdown tick (`site/js/main.js:46`). Each tick is one call of `FetchData` or `UpdateCountdown`. Overlapping in-flight fetches are not modelled, because the model has no interleaving.
- The smooth-scroll handlers (`site/js/main.js:80-87`) are not modelled; they are pure DOM behaviour.
- Dates are not parsed or formatted. `created_at` is an integer count of milliseconds. The clock is read once per refresh, as the parameter `now`; the filter in `updateDashboard` (`site/js/dashboard.js:209`) calls `Date.now()` again for every record, so in the code the window's edge can move during one filter, which the model does not capture. `toLocaleDateString` is the parameter `dayKey`, because it depends on locale and time zone. `toISOString` is the identity on that count. The launch time is a constructor parameter, because `new Date('April 15, 2025 00:00:00')` is read in the local time zone.
- Object key order is assumed to be insertion order. `Object.keys` lists array-index-like keys (such as `"12"`) first, in numeric order. The model assumes no category value and no day label is such a key.
- Keys that name inherited `Object.prototype` members are excluded. The model assumes no category value is `constructor`, `toString`, `__proto__` or a similar name. For such a key, `acc[key] || 0` would read the inherited member.
- Floating point is not modelled. `Math.floor(a / b)` on integer milliseconds is exact integer floor division, which is valid while the distance is below 2^53 in magnitude. JavaScript's `-0` from `%` is modelled as `0`; `String(-0)` is `"0"`, so the texts shown are the same.

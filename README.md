# vecc client core in Dafny

This project models the browser client of a viewer for climate-scenario data over Peruvian
subcatchments. The client draws a choropleth map of the subcatchments, coloured by a value for
the chosen year, scenario and variable. It also shows a time-series chart for the subcatchment the
user clicks. The repository holds two versions of the client script: the current one
(`static/js/scripts.js`) and an older one (`static/js/scripts_funciona.js`, called "legacy" below).
Both are modelled. The `Version` datatype (`Current | Legacy`) picks between the tables and texts
where the two versions differ.

Modules, one per component of the client:

- `Js`: the JavaScript values the script handles after `response.json()` (undefined, null,
  booleans, numbers, strings), truthiness, `a || b`, numeric coercion in `>` comparisons, and ASCII
  `toUpperCase`.
- `ColorScale`: `getColor` of both versions, written as the source's chain of strict `>` tests. It
  is proved equal to a reference definition: a value's band is the number of band boundaries
  strictly below it, and its colour is that band's palette entry.
- `Csv`: `parseCSV` (the same code in both versions, `scripts_funciona.js:123-141`) as a method
  that pushes onto four sequences in a loop. It is specified by `Records`, the field lists of the
  non-header lines that have exactly four comma-separated fields. JavaScript `split` is modelled as
  `Split`, proved inverse to `Join`. `parseFloat` is a function parameter.
- `Dropdown`: the three loaders (`loadYears`, `loadScenarios`, `loadVariables`; the legacy ones at
  `scripts_funciona.js:324-438` are the same) as a method on a `Selector` class. Elements keep their
  JSON type, because `includes` compares by SameValueZero, without type conversion.
- `MapColors`: the restyle pass of `updateColors` over an `array` of region records, specified by
  `Restyled`. The legacy pass at `scripts_funciona.js:256-267` differs only in its colour scale.
- `Legend`: the legend loop of both versions, plus the corrected legend described under Findings.
- `Chart`: the chart panel and selection state as a class. Its fields are the history of chart
  instances, the set of destroyed ones, the global `chart` handle, the canvas count, the
  container's visibility, `selectedSubcatchment` and the open popup's text. It also holds the
  legacy way of getting an SC_ID back from the popup text (the first run of digits).

Two behaviours of the code a reader may not expect:
- The legend does not show one row per colour band. Each row shows the colour of the band above
  its label (see Findings), and the legacy legend has five rows for six bands.
- `loadYears` does not end up on 2025 with the years the backend serves. The backend sends the
  years as strings (`app.py:124`), so the number 2025 is never found and the first year is
  selected (see Findings). `initializeApp` then sets the selector to "2025" directly; that
  ordering is not modelled.

## Model

| member | source | states |
|---|---|---|
| `ColorScale.Thresholds` | static/js/scripts.js:140-158 | the band boundaries (100, 200, ..., 1900; legacy 800, ..., 1200) are strictly increasing |
| `ColorScale.Palette` | static/js/scripts.js:140-159 | one colour per band, one more than there are boundaries |
| `ColorScale.CountBelowIsBand` | static/js/scripts.js:140-159 | on increasing boundaries, the number of boundaries strictly below v names the half-open band (ts[k-1], ts[k]] that holds v |
| `ColorScale.BandIsUnique` | static/js/scripts.js:140-159 | every value lies in exactly one band, and `Band` is that band: the bands cover all values and do not overlap |
| `ColorScale.BandMonotone` | static/js/scripts.js:140-159 | a larger value never falls in a lower band |
| `ColorScale.GetColor` | static/js/scripts.js:139-160 | the current chain of strict `>` tests, over a number or NaN (None), where NaN fails every test; its meaning is stated by `GetColorIsBandColor` |
| `ColorScale.LegacyGetColor` | static/js/scripts_funciona.js:274-281 | the legacy chain of strict `>` tests, NaN failing every test; its meaning is stated by `LegacyGetColorIsBandColor` |
| `ColorScale.GetColorIsBandColor` | static/js/scripts.js:139-160 | current `getColor` is the palette colour of the value's band, for every real; NaN gets the lowest band's colour |
| `ColorScale.LegacyGetColorIsBandColor` | static/js/scripts_funciona.js:274-281 | legacy `getColor` is the palette colour of the value's band, for every real; NaN gets the lowest band's colour |
| `ColorScale.ColorForIsBandColor` | static/js/scripts.js:139-160 | either version's colour is the palette entry of the value's band |
| `ColorScale.PaletteDistinct` | static/js/scripts.js:140-159 | the colours of either palette are pairwise distinct |
| `ColorScale.SameColorIffSameBand` | static/js/scripts.js:140-159 | two values get the same colour if and only if they lie in the same band, so a value on a boundary shares the colour of the band below |
| `ColorScale.GetColorBands` | static/js/scripts.js:141-158 | for k in 1..18, every v with 100k < v <= 100(k+1) gets palette colour k |
| `ColorScale.GetColorEnds` | static/js/scripts.js:140-159 | v <= 100 gives '#990808' and v > 1900 gives '#3B0066' |
| `ColorScale.LegacyGetColorBands` | static/js/scripts_funciona.js:275-280 | legacy colours: '#fed976' up to 800, then '#ffffb2', '#a6d6eb', '#67a9cf', '#2879b9' per 100 up to 1200, '#08306b' above |
| `Csv.Split` | static/js/scripts.js:376 | `split` of a one-character separator yields at least one piece, no piece holds the separator, and text without the separator is one piece |
| `Csv.JoinSplit` | static/js/scripts.js:376 | joining the pieces of a split gives back the text |
| `Csv.SplitJoin` | static/js/scripts.js:383 | splitting a join of separator-free pieces gives back the pieces |
| `Csv.Records` | static/js/scripts.js:382-390 | no more records than rows, and every record has exactly four fields |
| `Csv.ParseCsv` | static/js/scripts.js:375-393 | dates, medians, lowerCIs and upperCIs have the same length, the number of kept records. Position j holds the date and the three `parseFloat` results of record j |
| `Csv.RecordsAppend` | static/js/scripts.js:382-390 | the records of two row lists concatenated are the records of each, concatenated: source order is kept and each row is judged on its own |
| `Csv.RecordsSingle` | static/js/scripts.js:383-389 | a single row is kept, as its field list, exactly when it has four fields |
| `Csv.RecordsSkipRow` | static/js/scripts.js:384 | a row with other than four fields (three, five, a blank trailing line) contributes nothing wherever it stands |
| `Csv.RecordsMembers` | static/js/scripts.js:382-390 | a field list is a record if and only if some row splits into it and it has four fields |
| `Csv.HeaderOnlyHasNoRows` | static/js/scripts.js:376 | text with no newline, including empty text, has no rows after the header, so all four arrays are empty |
| `Js.Truthy` | static/js/scripts.js:96 | ToBoolean as the `if` tests use it: undefined, null, false, 0 and "" are falsy, all else truthy |
| `Js.ToNumber` | static/js/scripts.js:140 | the number a JSON value compares as in `value > 1900`: null is 0, booleans are 0 and 1, numbers are themselves, undefined and (in this model) every string are NaN |
| `Dropdown.DefaultChoice` | static/js/scripts.js:214 | the default is one of the fetched values. It is the preferred value if and only if the list contains it (SameValueZero, which on these values is structural equality), otherwise the first element |
| `Dropdown.Selector.constructor` | static/js/scripts.js:198-199 | a selector starts with no option and no value |
| `Dropdown.Selector.Load` | static/js/scripts.js:187-224 | a failed fetch leaves the options and value untouched and skips `updateColors`. An empty list clears the selector and skips `updateColors`. Otherwise the options equal the list in order, the default is selected and passed to `updateColors`. The selected value is always one of the options |
| `Dropdown.BackendYearsDefaultToFirst` | static/js/scripts.js:214 | with the backend's year list of strings, the number 2025 is not found and "1995" is chosen |
| `Dropdown.CorrectedYearDefault` | static/js/scripts.js:213-214 | corrected: the default is one of the years; it is 2025 (as a number or a string) if and only if the list holds 2025 in either form, otherwise the first year |
| `Dropdown.CorrectedYearDefaultOnBackendYears` | static/js/scripts.js:213-214 | with the backend's year list, the corrected default is "2025" |
| `Dropdown.NumericYearsDefaultTo2025` | static/js/scripts.js:214 | a list of numeric years containing 2025 would give the default 2025 |
| `Dropdown.BackendScenarioAndVariableDefaults` | static/js/scripts.js:254 | the backend's scenario and variable lists give the defaults "ssp585" and "pr" |
| `MapColors.HasError` | static/js/scripts.js:121 | the payload makes `updateColors` stop when it has an `error` entry that is truthy |
| `MapColors.ValueFor` | static/js/scripts.js:128 | `mapData[id] \|\| 0` is a truthy entry unchanged, and 0 for a falsy or absent one |
| `MapColors.ColorOfValue` | static/js/scripts.js:130 | `getColor` of a JSON value, compared as its ToNumber conversion |
| `MapColors.ColorOfValueIsBandColor` | static/js/scripts.js:130 | a value that converts to a number gets its band's colour; one that does not (NaN) gets the lowest band's colour |
| `MapColors.Restyled` | static/js/scripts.js:126-132 | a pass yields one layer per layer |
| `MapColors.UpdateColors` | static/js/scripts.js:112-136 | the pass runs if and only if the payload decoded and has no truthy `error`. If it does not run, no layer changes. If it runs, every layer is restyled from the payload |
| `MapColors.RestyledColors` | static/js/scripts.js:126-132 | a pass keeps each layer's SC_ID and colours it from its own payload entry (`getColor(mapData[id] \|\| 0)`) |
| `MapColors.RestyledForgetsOldColors` | static/js/scripts.js:126-132 | the result depends only on the SC_IDs, not on the colours before the pass |
| `MapColors.RestyledIdempotent` | static/js/scripts.js:126-132 | applying the same payload twice gives the same styles as applying it once |
| `MapColors.MissingValueGetsLowestColor` | static/js/scripts.js:128 | a region absent from the payload, or with a falsy entry, gets the lowest band's colour |
| `MapColors.ExampleTwoRegions` | static/js/scripts.js:126-132 | regions A and B with payload {"A": 950}: A gets the 900-1000 colour '#5FEB9C', B gets '#990808' |
| `Legend.Labels` | static/js/scripts.js:26 | there is one label per colour band in both versions |
| `Legend.LegendRows` | static/js/scripts.js:28-31 | the loop yields one row per grade, in order, row i being (`getColor(grades[i] + 1)`, `labels[i]`) |
| `Legend.BuildLegend` | static/js/scripts.js:18-36 | the title is the uppercased variable plus " (mm)", there is one row per grade, and row i is (`getColor(grades[i] + 1)`, `labels[i]`) |
| `Legend.SwatchIsBandAbove` | static/js/scripts.js:28-31 | row i's swatch is the colour of band i + 1, the band just above `grades[i]`; the last current row repeats the top band |
| `Legend.RowCounts` | static/js/scripts_funciona.js:15-21 | 20 current rows and 5 legacy rows; the legacy label "> 1200" appears in no row |
| `Legend.SwatchMismatchesLabel` | static/js/scripts.js:30 | as written, each row below the top band shows a colour other than that of the band its label names |
| `Legend.LowestColorNotInLegend` | static/js/scripts.js:30 | as written, the lowest band's colour (the colour of missing data) is in no row |
| `Legend.BuildLegendCorrected` | static/js/scripts.js:25-31 | one row per label, in order, each swatch the `getColor` of every value in that label's band |
| `Chart.ChartPanel.AtMostOneLive` | static/js/scripts.js:412-421 | in every valid state at most one chart instance is live: the one the handle names, or none |
| `Chart.ChartPanel.constructor` | static/js/scripts.js:5-8 | at page load there is no chart, no canvas, no selection, no popup, and the container is hidden |
| `Chart.ChartPanel.ShowChart` | static/js/scripts.js:332-355 | the container is shown; no chart is created or revived |
| `Chart.ChartPanel.CloseChart` | static/js/scripts.js:358-366 | the container is hidden, the handle's chart is destroyed, nothing is live, and the handle still names the destroyed instance |
| `Chart.ChartPanel.RenderChart` | static/js/scripts.js:396-501 | the previous chart is destroyed and one new instance is appended with its title, y-axis label and series. The handle names the new instance, it is the only live one, and the container holds one canvas |
| `Chart.ChartPanel.LoadTimeSeries` | static/js/scripts.js:307-329 | a chart is rendered if and only if the response arrived and has a kept record. Then the previous chart is destroyed, one canvas remains, and the new chart, the only live one, has the title, the y-axis label and exactly `parseCSV`'s result. Otherwise charts, handle, destroyed set and canvas are untouched |
| `Chart.ChartPanel.Click` | static/js/scripts.js:94-103 | the current version stores the SC_ID whatever it is. For a truthy SC_ID both versions request its series, open its popup and show the container; otherwise nothing else changes |
| `Chart.ChartPanel.ClosePopup` | static/js/scripts.js:98 | closing the popup Leaflet opened leaves no popup and changes nothing else |
| `Chart.ChartPanel.UpdateVisualization` | static/js/scripts.js:73-82 | the map is refreshed with the selected year, and the series is reloaded if and only if the stored SC_ID is truthy, for that SC_ID |
| `Chart.ChartTitle` | static/js/scripts.js:461 | "Escenario: " + the scenario uppercased + "  -  Subcuenca: " + the SC_ID, "Unknown" for an empty one; legacy "Subcatchment: " + the SC_ID (scripts_funciona.js:208) |
| `Chart.PopupText` | static/js/scripts.js:98 | the popup text is "Subcuenca: " + SC_ID + " " (current) or the legacy text |
| `Chart.LegacyPopupText` | static/js/scripts_funciona.js:85 | the legacy popup text is "Subcatchment ID: " + SC_ID + " " |
| `Chart.FirstDigitFrom` | static/js/scripts_funciona.js:312 | the first digit at or after a position: a digit with no digit before it, or none at all |
| `Chart.DigitRunEnd` | static/js/scripts_funciona.js:312 | the end of the maximal run of digits from a position |
| `Chart.FirstDigitRun` | static/js/scripts_funciona.js:312 | `match(/\d+/)` yields nothing if and only if the text has no digit. Otherwise it yields a non-empty run of digits in the text, with no digit before it and none right after it |
| `Chart.LegacyUpdateVisualization` | static/js/scripts_funciona.js:304-321 | the map is always refreshed with the selected year. With no popup, no reload and the legend is redrawn. With a popup, the reload is the popup's first digit run, and the legend is redrawn only when there is one (otherwise `[0]` throws) |
| `Chart.LegacyPopupRoundTrip` | static/js/scripts_funciona.js:310-316 | for an all-digit SC_ID, the digit run of the legacy popup text is that SC_ID |
| `Chart.LegacyPopupWithoutDigit` | static/js/scripts_funciona.js:312 | a popup for an SC_ID without digits makes the handler throw before the legend is redrawn |

## Left out

- The Flask backend `app.py` (routing, file reads, `csv.DictReader`): it is I/O. Only its fixed lists of years, scenarios and variables (`app.py:124-136`) appear, as lemma inputs.
- `fetch`, `async`/`await` and ordering between requests (`initializeApp`, the duplicate top-level `loadGeometry`/`loadYears` calls, the `DOMContentLoaded` listener): this is event-loop scheduling. Each handler is modelled from the moment its response has arrived (`Selector.Load`, `UpdateColors`, `LoadTimeSeries`), and "last response wins" races are not modelled.
- The value a loader passes to `updateColors` (the scenario or the variable, passed as the "year") is returned as an opaque `refresh` output. The request it triggers is not modelled.
- `parseFloat` and all floating point: the numeric CSV fields go through a `parseFloat` parameter with no properties, and map values are exact reals.
- `MapColors.ColorOfValue` compares every string payload value as NaN. JavaScript would convert a numeric string such as "950" to 950. The backend sends numbers.
- Property lookups that reach `Object.prototype` (an SC_ID such as "constructor") are not modelled: the payload is a plain map.
- SC_IDs are strings. A numeric SC_ID, its conversion to a property key, and the falsy number 0 are not modelled.
- `<option>` values are strings in the DOM. The model keeps the fetched JSON values as options and selects the default value itself, which is always one of them.
- Leaflet (map, tiles, geometry loading and its initial style, popup binding), DOM lookups and their missing-element branches in `showChart`, `console` logging.
- The legend control's attachment to the map (`legend.addTo` / `legend.remove`) and the wiring of the `change` listeners. Only the legend contents and the handlers' effects are modelled. So `Chart.LegacyUpdateVisualization`'s `legendRedrawn` is only that handler's own redraw: on a variable change the listener at `scripts_funciona.js:284-287` runs first and its `legend.addTo(map)` redraws the legend even when `[0]` then throws.
- Chart.js configuration (line colours, fonts, legend, time axis, dataset order and labels): only the title, the y-axis label and the series are kept.
- `toUpperCase` beyond ASCII letters.
- `updateTimeSeries` (`scripts.js:163-184`): nothing calls it, and it calls `parseCSVData` and `updateChart`, which the script does not define.
- The page's HTML and CSS are not part of this model. At page load the chart container is taken to be hidden and to hold no canvas (`ChartPanel` constructor), and each `<select>` to have no option (`Selector` constructor); a first `Load` whose fetch fails keeps that empty state.
- The exception thrown by the legacy `updateVisualization` is modelled only as "the legend is not redrawn".

## Findings

| source | as written | input that shows it | evidently intended | confidence | as-written member | corrected member |
|---|---|---|---|---|---|---|
| static/js/scripts.js:28-31 | row i shows `getColor(grades[i] + 1)`, the colour of band i + 1, beside `labels[i]`, the name of band i | row 0 reads "<100" beside '#BB1818', while a region at 50 mm is drawn '#990808', a colour no row shows | each label beside the colour of its own band (e.g. `getColor(grades[i])`) | not executed | `Legend.SwatchMismatchesLabel` | `Legend.BuildLegendCorrected` |
| static/js/scripts_funciona.js:15-21 | five rows for six bands, each with the colour of the band above its label | row 0 reads "< 800" beside '#ffffb2' (800-900); '#fed976' and the label "> 1200" appear in no row | six rows, each label beside its own band's colour | not executed | `Legend.LowestColorNotInLegend` | `Legend.BuildLegendCorrected` |
| static/js/scripts.js:213-214 | `years.includes(2025)` looks for the number 2025 | the backend's list `["1995", "2025", "2055", "2085"]` (`app.py:124`) holds strings, so the default is "1995" and `updateColors("1995")` runs first; `initializeApp` later sets "2025" by hand | 2025 chosen when the list has it in either form, as the comment at line 213 says | not executed | `Dropdown.BackendYearsDefaultToFirst` | `Dropdown.CorrectedYearDefault` |

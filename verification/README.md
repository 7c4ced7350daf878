# Plant monitor screens: data shaping and alert rules

A Dafny model of the logic inside the two screens of the plant-monitor app.
The UI itself is not modelled.

- **History screen** (`src/screens/HistoryScreen.js`).
  - It fetches the reading history and sorts it newest first, in place.
  - It keeps the readings inside the selected time range (1h, 24h, Week, Month).
  - It samples up to 30 of them for the line chart and labels every `step`-th point.
  - It summarises the window as min, max and mean of the configured field.
  - It maps a sensor name to its configuration, falling back to temperature.
- **Home screen** (`src/screens/HomeScreen.js`).
  - It replaces the latest sensor record only when the payload carries no error.
  - It classifies each value into a status word and formats values for display.
  - It polls an alert feed. It remembers the last alert signature (the alert types joined with `,`) and pops a notification only when that signature changes.

Modules and files:

| file | module | contents |
|---|---|---|
| values.dfy | `Values` | `Option`; `JsNumber` = `Null` \| `Undefined` \| `Num(real)` |
| readings.dfy | `Readings` | `Reading`, `Field`, `SensorConfig` table and lookup, `Ranges`, the newest-first order |
| range_filter.dfy | `RangeFilter` | the time-window filter and its lemmas |
| chart_sampler.dfy | `ChartSampler` | chart points, label kinds, `step`, the label count |
| stats.dfy | `Stats` | min, max, mean |
| history_screen.dfy | `History` | in-place sort on an `array`; class `HistoryScreen` with the screen's state |
| status.dfy | `Status` | the four status classifiers and `formatValue` |
| alerts.dfy | `Alerts` | the alert signature and the alert check as a function of its state, with lemmas |
| home_screen.dfy | `Home` | class `HomeScreen` with `sensorData`, `alerts` and `lastAlertState` |

Modelling choices:

- A numeric field distinguishes JavaScript `null` from `undefined`, because the code treats them differently.
  - The status ternaries test only `!== null`. A field missing from the `/api/latest` payload therefore yields `'Bad'` for light, `'Good'` for temperature and humidity, and `'Dry'` for moisture.
  - `formatValue`, the chart and the stats drop both `null` and `undefined`.
- A history timestamp is `Option<int>` milliseconds. `None` is a date that does not parse. `new Date(NaN) >= cutoff` is false, so the filter drops such a reading.
- Comparing readings with an unparsable date makes the sort comparator return `NaN`. The order JavaScript then produces is implementation-defined. The model uses a total preorder that ranks unparsable dates below every parsable one, which is one admissible outcome.
- `now` (the clock), every HTTP payload and every thrown exception are parameters. A failed `fetch` or `response.json()` is a payload case (`FetchFailed`, `PollFailed`).
- The popup is not a UI effect. `CheckForAlerts` returns the message that `Alert.alert` would show.
- The alert check has two forms. `Alerts.CheckAlerts` is a function of the remembered signature, the displayed alerts and the feed. `Home.HomeScreen.CheckForAlerts` updates the fields as the source does and is proved to agree with that function.
- The alert feed can report `alert_count > 0` with an empty `alerts` list while the remembered signature is not `''`. Reading `alerts[0].message` then throws, and the catch block leaves the signature as it was. The alert list is still replaced by `[]`. The model keeps this behaviour.
- The signature returns to `''` in two ways. A non-positive or absent count clears it. A raised feed whose types join to `''` also sets it to `''`, and pops a notification if the remembered signature was not `''`. For example, one alert whose type is `''` does this, and so does one whose type is `undefined`, which `join` renders as `''`.
- Chart labels are a `LabelKind` (hour:minute, weekday+hour, month+day) plus the point's date, or `Blank`. Locale text is not modelled. The `<= 1` and `<= 24` branches of `formatLabel` are identical, and the model keeps them so.
- The mean is exact `real` arithmetic.

## Model

| member | source | states |
|---|---|---|
| `Readings.ConfigFor` | src/screens/HistoryScreen.js:34-42 | each of the five sensor names maps to its own field and unit; any other name gets the temperature entry |
| `Readings.ConfigFieldsDistinct` | src/screens/HistoryScreen.js:34-40 | two different sensors of the table never read the same field |
| `RangeFilter.Cutoff` | src/screens/HistoryScreen.js:66-67 | the cutoff lies exactly `hours * 3600000` ms before `now`, and not after `now` iff the range is non-negative |
| `RangeFilter.Keep` | src/screens/HistoryScreen.js:68 | a reading is kept iff its date parses and is at or after the cutoff (`InWindow`); each kept reading keeps all its copies; the result is an order-preserving subsequence of the input |
| `RangeFilter.FilterByRange` | src/screens/HistoryScreen.js:65-70 | every reading in the window has a parsable timestamp at or after `now - hours*3600000`; every such input reading is in it, as many times as in the input; and the window is a subsequence of the input |
| `RangeFilter.KeepAll` | src/screens/HistoryScreen.js:68 | when every reading lies in the window, the filter returns the input unchanged |
| `RangeFilter.WiderRangeKeepsMore` | src/screens/HistoryScreen.js:65-70 | at the same instant, a longer range keeps every reading a shorter one keeps, copy for copy |
| `RangeFilter.KeepIdempotent` | src/screens/HistoryScreen.js:68 | filtering a filtered list with the same cutoff changes nothing |
| `RangeFilter.FilterIdempotent` | src/screens/HistoryScreen.js:65-70 | re-filtering a window with the same range and instant returns it unchanged |
| `RangeFilter.WindowIsPrefix` | src/screens/HistoryScreen.js:50-52 | on history sorted newest first, the window is a prefix (a contiguous slice) of the history |
| `ChartSampler.Recent` | src/screens/HistoryScreen.js:88 | `slice(0, 30)` is the first min(30, n) readings: all of a shorter window, exactly 30 of a longer one |
| `ChartSampler.Reverse` | src/screens/HistoryScreen.js:88 | entry k of the reversed list is entry n-1-k of the input |
| `ChartSampler.PointsOf` | src/screens/HistoryScreen.js:88-91 | the point list is empty iff no reading has a present value for the field |
| `ChartSampler.PointsOfContent` | src/screens/HistoryScreen.js:88-91 | every point carries the date and numeric value of some reading, and every reading with a numeric value gives a point |
| `ChartSampler.PointsOfReverse` | src/screens/HistoryScreen.js:88-91 | dropping absent values commutes with reversing into chronological order |
| `ChartSampler.LabelKindFor` | src/screens/HistoryScreen.js:95-105 | hour:minute iff hours <= 24, weekday+hour iff 24 < hours <= 168, month+day iff hours > 168 |
| `ChartSampler.LabelsFor` | src/screens/HistoryScreen.js:107-108 | one label per point; label i is non-empty iff i % step == 0, and a non-empty label is the date of point i in the given style |
| `ChartSampler.Step` | src/screens/HistoryScreen.js:107 | step is at least 1; it is 1 below 12 points and floor(n/6) from 12 points on |
| `ChartSampler.PrepareChartData` | src/screens/HistoryScreen.js:87-117 | null iff none of the first 30 readings has a value; otherwise 1 <= n <= 30 points, as many labels as values, the values are the present values of the first 30 readings in reversed (chronological) order, label i is non-empty iff i % step == 0, and a non-empty label i has the range's kind and the date of chart point i |
| `ChartSampler.MultiplesCount` | src/screens/HistoryScreen.js:107-108 | exactly ceil(n/step) indices below n are multiples of step |
| `ChartSampler.StampedLabelCount` | src/screens/HistoryScreen.js:107-108 | a chart of n points has exactly ceil(n/step) non-empty labels |
| `ChartSampler.FewPointsAllLabelled` | src/screens/HistoryScreen.js:107-108 | a chart of fewer than 6 points labels every point |
| `ChartSampler.FullChartSixLabels` | src/screens/HistoryScreen.js:88-108 | a chart of 30 points has exactly 6 non-empty labels |
| `Stats.MinOf` | src/screens/HistoryScreen.js:125 | the minimum is one of the values and no value is smaller |
| `Stats.MaxOf` | src/screens/HistoryScreen.js:126 | the maximum is one of the values and no value is larger |
| `Stats.SumSnoc` | src/screens/HistoryScreen.js:127 | `Sum` agrees with a left-to-right reduction from 0: appending a value adds it to the total |
| `Stats.SumBounds` | src/screens/HistoryScreen.js:127 | the sum of n values lies between n times a lower bound and n times an upper bound |
| `Stats.MeanBetween` | src/screens/HistoryScreen.js:127 | a real-arithmetic step used by `Summarize`, not a model of the line itself: sum / n lies between the bounds and times n gives back the sum |
| `Stats.Summarize` | src/screens/HistoryScreen.js:124-127 | no data iff the value list is empty; otherwise min and max are members bounding every value, avg * count == sum, and min <= avg <= max |
| `Stats.WindowStats` | src/screens/HistoryScreen.js:120-127 | the summary of the whole window (not capped at 30) is "no data" iff no reading has a present value; otherwise min <= avg <= max and avg is the total of the present values over their count |
| `Stats.WindowValues` | src/screens/HistoryScreen.js:121-123 | the present values of the window are exactly the numbers its readings hold in the field |
| `Stats.WindowStatsBounds` | src/screens/HistoryScreen.js:120-127 | min and max are numbers some reading of the window holds, and every reading of the window, past the thirtieth included, lies between them |
| `Stats.ThreeReadingExample` | src/screens/HistoryScreen.js:65-70 | readings at 09:00 (20), 08:00 (22) and 06:00 (null) seen at 09:30 with 24h: all three are in the window and the summary is min 20, max 22, avg 21 |
| `History.SortedCopy` | src/screens/HistoryScreen.js:49-50 | the fetched array comes back newest first and as a permutation of the payload |
| `History.SortNewestFirst` | src/screens/HistoryScreen.js:50 | the array ends newest first and is a permutation of what it held |
| `History.InsertNewest` | src/screens/HistoryScreen.js:50 | one insertion step extends the sorted prefix by one cell, keeps the multiset and leaves later cells alone |
| `History.HistoryScreen.constructor` | src/screens/HistoryScreen.js:26-42 | the screen opens loading, with no error, empty history and window, the 24h range and the looked-up configuration |
| `History.HistoryScreen.FetchAllData` | src/screens/HistoryScreen.js:44-63 | an array payload clears the error and stores a newest-first permutation of it plus its window; a non-array payload sets 'Invalid data format' and a failure sets 'Failed to load history', both leaving history and window alone; loading and refreshing end false |
| `History.HistoryScreen.Mount` | src/screens/HistoryScreen.js:72-74 | the first fetch: an array payload clears the error and stores a newest-first permutation and its window for the default 24h range, the range the first render's effect holds; a non-array payload sets 'Invalid data format' and a failure sets 'Failed to load history', both keeping history and window; loading and refreshing end false |
| `History.HistoryScreen.SelectRange` | src/screens/HistoryScreen.js:76-80 | the range is selected; the window is refiltered with it only when the range differs from the one selected and there is history, otherwise the window is kept |
| `History.HistoryScreen.OnRefreshAsWritten` | src/screens/HistoryScreen.js:82-85 | pull-to-refresh as written: the fetch's outcome for each payload, with the window always filtered with the default 24h range whatever range is selected |
| `History.HistoryScreen.OnRefresh` | src/screens/HistoryScreen.js:82-85 | pull-to-refresh corrected: the fetch's outcome for each payload (both error texts, history kept on failure), with the window filtered with the selected range |
| `History.HistoryScreen.View` | src/screens/HistoryScreen.js:140-215 | a spinner iff loading; iff there is an error, the error's own text instead of chart and stats; otherwise the chart and summary of the window |
| `History.StaleRefreshDropsReading` | src/screens/HistoryScreen.js:82-85 | a reading 30 hours old is in the Week window but not in the 24h window a refresh computes |
| `Status.MoistureStatus` | src/screens/HomeScreen.js:98-101 | '--' iff null, 'Wet' iff a number above 500 (so 500 is 'Dry'), 'Dry' for other numbers and for undefined |
| `Status.LightStatus` | src/screens/HomeScreen.js:148-154 | '--' iff null, 'Great' iff above 70, 'Good' iff in (30, 70], 'Bad' iff at most 30 or undefined |
| `Status.TemperatureStatus` | src/screens/HomeScreen.js:168-174 | '--' iff null, 'High' iff above 28, 'Low' iff below 18, 'Good' iff in [18, 28] or undefined |
| `Status.HumidityStatus` | src/screens/HomeScreen.js:188-194 | '--' iff null, 'High' iff above 70, 'Low' iff below 30, 'Good' iff in [30, 70] or undefined |
| `Status.LightMonotone` | src/screens/HomeScreen.js:148-154 | more light never gives a worse light status |
| `Status.FormatValue` | src/screens/HomeScreen.js:91-96 | '--' iff null or undefined; a fixed-decimals number with the unit appended iff the unit is '°C' or '%'; the plain number otherwise |
| `Alerts.Join` | src/screens/HomeScreen.js:58 | no parts join to ''; the first part begins the joined text, and no part is longer than it |
| `Alerts.Signature` | src/screens/HomeScreen.js:58 | no alerts give ''; one alert gives its own type; the first alert's type begins the signature |
| `Alerts.Kinds` | src/screens/HomeScreen.js:58 | the i-th entry is the type of the i-th alert |
| `Alerts.CheckAlerts` | src/screens/HomeScreen.js:52-70 | a failed poll changes nothing; a non-positive or absent count clears the alerts and resets the signature to ''; a positive count displays the feed; with a non-empty feed the signature becomes the types joined by ','; a popup with the first alert's message fires iff the count is positive, the feed is non-empty and its signature differs from the remembered one |
| `Alerts.SecondCheckSilent` | src/screens/HomeScreen.js:58-61 | checking the same feed twice in a row never notifies on the second check |
| `Alerts.ClearRearms` | src/screens/HomeScreen.js:63-66 | after a clear, the next non-empty feed with a non-empty signature notifies, whatever the earlier signature was |
| `Alerts.FirstCommaAfter` | src/screens/HomeScreen.js:58 | a comma-free prefix followed by ',' or by the end of the text is exactly the text before the first comma |
| `Alerts.HeadOfJoin` | src/screens/HomeScreen.js:58 | the first type of a comma-free join is the text before the first comma; it is the whole join exactly when there is one type |
| `Alerts.JoinInjective` | src/screens/HomeScreen.js:58 | when no type contains a comma, two non-empty type lists with equal joins are equal |
| `Alerts.NotifiesIffTypesChange` | src/screens/HomeScreen.js:56-62 | with comma-free types, after a non-empty feed the next non-empty feed notifies iff its list of types differs |
| `Alerts.CommaTypesCollide` | src/screens/HomeScreen.js:58 | the single type 'a,b' and the two types 'a', 'b' give the same signature |
| `Home.Accepts` | src/screens/HomeScreen.js:35 | a payload is taken iff it is an object whose error is absent or the empty string |
| `Home.HomeScreen.constructor` | src/screens/HomeScreen.js:19-29 | the screen opens loading, with every field null, no alerts and signature '' |
| `Home.HomeScreen.FetchLatestData` | src/screens/HomeScreen.js:31-50 | a non-null payload with no truthy `error` replaces all five fields and the timestamp together; any other outcome keeps the record; loading ends false |
| `Home.HomeScreen.CheckForAlerts` | src/screens/HomeScreen.js:52-70 | the new alerts, remembered signature and returned popup are those of `Alerts.CheckAlerts` applied to the old state |
| `Home.HomeScreen.CardStatuses` | src/screens/HomeScreen.js:147-209 | four card statuses; all are '--' while the record is still empty |
| `Home.NoDataScenario` | src/screens/HomeScreen.js:31-50 | a fresh screen answered with an `error` payload stops loading and keeps all four cards on '--' |

## Left out

- HTTP (`fetch`, `response.json()`, the base address, the `hours=720` query) is not modelled. Each response is a payload parameter.
- The 10-second `setInterval` polling and its cleanup (src/screens/HomeScreen.js:72-81) are left out because they are timers.
- Overlapping refreshes racing each other (src/screens/HistoryScreen.js:82-85) are left out because they are concurrency.
- Date parsing is left out: a timestamp arrives already parsed. Locale label text (`toLocaleTimeString`, `toLocaleDateString`, `toLocaleString`) and `toFixed` rendering are left out too; the model keeps only the label kind and the '--'/unit structure.
- IEEE-754 arithmetic is left out: the mean uses exact reals, and `NaN` or non-numeric field values are not modelled.
- JSX layout, styles, the camera preview, navigation (`handleCardPress`), the help popup and `App.js` are UI and are left out.
- The moisture card's `?? '--'` value (src/screens/HomeScreen.js:211), the soil-temperature row (217) and the "Last reading" text (232-234) are display-only and are left out.
- A sensor name that is an inherited object key (such as `toString`) is not modelled. The lookup treats every unknown name as missing.
- A feed whose `alerts` key is missing while `alert_count > 0` is not modelled. A non-string `error` value in `/api/latest` is not modelled either.
- A history entry that is not an object (such as `null`) is not modelled. Reading its `timestamp` throws inside the sort comparator or the filter (src/screens/HistoryScreen.js:50, 68), so the catch sets 'Failed to load history'. With a one-element array the comparator never runs, so `setAllData` has already stored the entry when the filter throws. `HistoryPayload.Items` holds only readings and cannot express this.
- `History.SortNewestFirst`: does not state stability (equal timestamps keeping payload order), which `Array.prototype.sort` guarantees. Where timestamps do not parse, it fixes one of the orders JavaScript allows.

## Findings

| source | as written | input that shows it | evidently intended | confidence | as-written member | corrected member |
|---|---|---|---|---|---|---|
| src/screens/HistoryScreen.js:82-85 | `onRefresh` is memoised with `useCallback(..., [])`, so it keeps the first render's `fetchAllData`. That closure filters with `RANGES[1]` (24h), whatever range is selected. | Week selected, a reading 30 hours old, pull to refresh: the reading leaves the chart and stats while the Week button stays highlighted. Tapping Week again does not bring it back, because the range does not change and the effect does not run. | a refresh filters with the selected range | high, not executed | `History.HistoryScreen.OnRefreshAsWritten` (exhibited by `History.StaleRefreshDropsReading`) | `History.HistoryScreen.OnRefresh` |

# Smart hive dashboard — a Dafny model

The system watches a beehive. A sensor board posts readings (weight, temperature, humidity,
sound level) to a small Node server. A browser dashboard shows the latest reading, classifies
it into alerts and an overall status (`ok`, `warning`, `danger`), and draws the stored history
as line charts. The history can be filtered by a date and time window.

This project models the decision logic of that system:

- `telemetry.dfy` (`Telemetry`): readings, metrics and severities, shared by everything else.
- `status.dfy` (`HiveStatus`): the modular status evaluator `checkHiveStatus` and the alert
  panel `updateAlertVisuals`.
- `legacy_status.dfy` (`LegacyStatus`): the older evaluator of the single-file script. It has
  its own thresholds and check order, and its status is the most severe alert.
- `charts.dfy` (`Charts`): `prepareChartData`, the chart of each canvas, and the view
  transition `showHistoryChart`. The transition is a class over the eight module-level chart
  handles.
- `filters.dfy` (`Filters`): the hour grid of the time selects and the default window of
  `setInitialFilterTimes`, and the filter form as a class.
- `api.dfy` (`Api`): the dashboard's client of the server.
  - `/latest` outcomes and how they are classified.
  - `/data-limits`, as a class holding the limits.
  - The `/history` request, the history cache and the redraw.
- `filter_events.dfy` (`FilterEvents`): the submit and reset handlers of the filter form.
- `legacy_app.dfy` (`LegacyApp`): the single-file script's own versions of those operations.
  The copy of `prepareChartData`/`showHistoryChart` in that script is identical to the module
  up to an unused y-axis-id argument of its `drawIndividualChart`, and is modelled once, in
  `Charts`.
- `server.dfy` (`Server`): the `POST /data` guard and the two read endpoints.

Network responses, the wall clock and the page's elements are inputs to the operations.
A response is an outcome datatype, and "now" is a parameter. Each page element that may be
missing is a constant flag of the class that owns it.

## Model

| member | source | states |
|---|---|---|
| Telemetry.Max | public/js/modules/status.js:74 | the more severe of two severities, ranked at least as high as both |
| Telemetry.MaxOf | public/app.js:122-140 | the most severe of a list, never below any element, and `ok` or an element of the list |
| Telemetry.MaxOfAppend | public/app.js:122-140 | appending a severity takes the max of the old maximum and the new one |
| HiveStatus.TemperatureAlert | public/js/modules/status.js:67-79 | a temperature alert is never `ok` and comes from the temperature check |
| HiveStatus.HumidityAlert | public/js/modules/status.js:82-94 | a humidity alert is never `ok` and comes from the humidity check |
| HiveStatus.AudioAlert | public/js/modules/status.js:97-109 | a noise alert is never `ok` and comes from the noise check |
| HiveStatus.WeightAlert | public/js/modules/status.js:113-119 | a weight alert is a warning from the weight check |
| HiveStatus.ThresholdAlerts | public/js/modules/status.js:66-119 | at most four alerts, none of them a connection failure |
| HiveStatus.SummaryOf | public/js/modules/status.js:126-132 | critical heading iff `danger`, warning heading iff `warning`, OK heading iff `ok`; each carries the alert count |
| HiveStatus.CheckTemperature | public/js/modules/status.js:67-79 | appends the temperature alert; a critical value sets `danger`, an abnormal one raises to at most `warning` |
| HiveStatus.CheckHumidity | public/js/modules/status.js:82-94 | appends the humidity alert; the status changes only if it was still `ok` |
| HiveStatus.CheckAudio | public/js/modules/status.js:97-109 | appends the noise alert; the status changes only if it was still `ok` |
| HiveStatus.CheckWeight | public/js/modules/status.js:113-119 | appends the weight warning; the status changes only if it was still `ok` |
| HiveStatus.RaiseFromOkIsFirst | public/js/modules/status.js:83-114 | raising a status only from `ok` keeps it equal to the first alert's severity, and never lowers it |
| HiveStatus.RunChecks | public/js/modules/status.js:66-119 | the four checks leave the threshold alerts and the first alert's severity; the status after the first k checks is that of their alerts, and it never decreases from one check to the next |
| HiveStatus.CheckHiveStatus | public/js/modules/status.js:37-138 | the step-by-step evaluation equals `Evaluate`; an error gives the trace `ok`, `danger`; with a reading the trace holds the status after each check, never decreases and ends at the result |
| HiveStatus.CounterFor | public/js/modules/status.js:154-156 | the counter says "Ninguna" iff there is no alert, else the alert count |
| HiveStatus.ItemsOf | public/js/modules/status.js:166-170 | one list item per alert |
| HiveStatus.ItemsOfAt | public/js/modules/status.js:166-170 | item k shows alert k's severity and kind |
| HiveStatus.ListItemsMatchAlerts | public/js/modules/status.js:158-172 | the refilled list is the placeholder alone when there is no alert, else one item per alert in order |
| HiveStatus.AlertPanel.UpdateAlertVisuals | public/js/modules/status.js:144-173 | sets status class and heading; sets counter and list only where their elements exist |
| HiveStatus.ConnectionFailureShortCircuits | public/js/modules/status.js:50-60 | an error or missing data gives `danger`, the error heading and exactly one connection alert |
| HiveStatus.OkIffNoAlerts | public/js/modules/status.js:38-132 | with a reading, the status is `ok` exactly when no check fired |
| HiveStatus.StatusBounds | public/js/modules/status.js:67-119 | once a check fires the status is between `warning` and the most severe alert; a critical temperature always gives `danger` |
| HiveStatus.FourChecksInOrder | public/js/modules/status.js:66-119 | four at-most-one-alert checks concatenated are in strictly increasing check order |
| HiveStatus.AlertsInCheckOrder | public/js/modules/status.js:66-119 | alerts are listed temperature, humidity, noise, weight, at most one each |
| HiveStatus.TemperatureBands | public/js/modules/status.js:67-79 | the temperature check's bands: outside 30..38 is `danger`, else outside 33..36 is `warning` |
| HiveStatus.HumidityBands | public/js/modules/status.js:82-94 | above 85 is `danger`, above 75 is `warning`, else no alert |
| HiveStatus.AudioBands | public/js/modules/status.js:97-109 | above 3000 is `danger`, above 2000 is `warning`, else no alert |
| HiveStatus.WeightBand | public/js/modules/status.js:113-119 | missing, zero or below 1 g is a weight warning, else no alert |
| HiveStatus.WarningBesideDangerAlert | public/js/modules/status.js:73-89 | a temperature warning followed by critical humidity leaves the status `warning` with a `danger` alert listed |
| HiveStatus.HeavyHotHiveExample | public/js/modules/status.js:67-132 | 14000 g, 39 °C, 60 %, 500: one critical-temperature alert, status `danger` |
| LegacyStatus.ThresholdAlerts | public/app.js:117-140 | at most four alerts, in strictly increasing check order (weight, temperature, humidity, noise) |
| LegacyStatus.PushRaisesMax | public/app.js:122-140 | pushing an alert makes the overall status the max of the old status and the alert's severity |
| LegacyStatus.CheckWeight | public/app.js:122-125 | appends the low-weight warning and keeps the status equal to the most severe alert |
| LegacyStatus.CheckTemperature | public/app.js:126-132 | appends the temperature alert and keeps the status equal to the most severe alert |
| LegacyStatus.CheckHumidity | public/app.js:133-136 | appends the humidity warning and keeps the status equal to the most severe alert |
| LegacyStatus.CheckAudio | public/app.js:137-140 | appends the noise danger and keeps the status equal to the most severe alert |
| LegacyStatus.CheckThresholds | public/app.js:116-141 | the four checks give the threshold alerts and their most severe severity |
| LegacyStatus.CheckHiveStatus | public/app.js:84-178 | the step-by-step evaluation, with its message and list, equals `Evaluate` |
| LegacyStatus.ErrorIsOneDanger | public/app.js:106-109 | an error gives exactly one connection-error alert and `danger` |
| LegacyStatus.NoDataIsOneWarning | public/app.js:111-114 | no reading gives exactly one no-recent-data alert and `warning` |
| LegacyStatus.MissingWeightWarns | public/app.js:117-125 | a missing weight counts as 0 g, so the first alert is low weight |
| LegacyStatus.StatusIsMostSevereAlert | public/app.js:84-178 | `ok` iff no alert; otherwise the status is an alert's severity and no alert is more severe |
| LegacyStatus.MessageIsAllGoodOrCount | public/app.js:144-161 | the message is "all good" when nothing fired, else the alert count; the error and no-data texts are never reached |
| LegacyStatus.ItemsMatchAlerts | public/app.js:146-168 | the list is one item per alert in order, or the single no-problems item |
| LegacyStatus.HeavyHotHiveExample | public/app.js:117-161 | 14000 g, 39 °C, 60 %, 500: low weight then high temperature, status `danger`, count 2 |
| Charts.Series | public/js/modules/charts.js:26-29 | one point per reading |
| Charts.Labels | public/js/modules/charts.js:19-24 | one label per reading |
| Charts.PrepareChartData | public/js/modules/charts.js:18-32 | labels and the four series all have one entry per reading |
| Charts.SeriesAt | public/js/modules/charts.js:26-29 | point i is reading i's value of that metric, null exactly where it is missing |
| Charts.LabelsAt | public/js/modules/charts.js:19-24 | label i is reading i's timestamp |
| Charts.ChartDataRoundTrip | public/js/modules/charts.js:18-32 | zipping labels and series back together gives the history |
| Charts.SeriesAppend | public/js/modules/charts.js:26-29 | the series of a joined history is the join of the series |
| Charts.CanvasesOfView | public/js/modules/charts.js:119-160 | a view's container holds exactly the canvases of that view |
| Charts.LiveOf | public/js/modules/charts.js:93-95 | no more handles are destroyed than there are variables |
| Charts.LiveOfMembers | public/js/modules/charts.js:93-95 | a handle is destroyed exactly when it was live |
| Charts.ChartPanel.DestroyAll | public/js/modules/charts.js:93-96 | destroys the live handles in variable order and nulls all eight |
| Charts.ChartPanel.HideAll | public/js/modules/charts.js:100-103 | hides every container and blanks it |
| Charts.ChartPanel.DrawView | public/js/modules/charts.js:114-160 | draws the target's canvases from the cache; every other handle stays null |
| Charts.ChartPanel.ShowHistoryChart | public/js/modules/charts.js:90-165 | destroys the old charts; shows only the target container titled "📈 " + title; each canvas holds a chart iff it belongs to the target and the cache is non-empty; an empty cache shows the no-data message |
| Charts.LiveCountByView | public/js/modules/charts.js:114-164 | a transition leaves four charts for the general view, one for a single metric, none with an empty cache or a missing container |
| Charts.LiveOfStep | public/js/modules/charts.js:93-95 | visiting one more variable destroys one more handle exactly when it is live |
| Charts.ExpectedSlot | public/js/modules/charts.js:119-160 | which teardown slots each view draws into |
| Charts.OnlyTargetLive | public/js/modules/charts.js:107-160 | only the target view's canvases hold a chart, so two views are never live at once |
| Charts.DrawnChartsPlotCache | public/js/modules/charts.js:38-83 | a drawn chart plots its own metric's cached series against the cached labels; only humidity is bounded, to 0..100 |
| Filters.HourLabel | public/js/modules/filters.js:81-91 | an hour label has five characters ending in ":00" |
| Filters.HourGrid | public/js/modules/filters.js:81-91 | the grid has 24 entries |
| Filters.HourLabelRoundTrip | public/js/modules/filters.js:81-91 | every label parses back to its hour, and only that label parses to it |
| Filters.HourGridAscending | public/js/modules/filters.js:81-91 | zero padding makes the labels' text order the order of the hours |
| Filters.HourGridShape | public/js/modules/filters.js:81-91 | the grid runs from "00:00" to "23:00" with no repeated value |
| Filters.DefaultWindowBounds | public/js/modules/filters.js:98-119 | the window ends at the last data date (else today) and starts seven days earlier, never before the first data date |
| Filters.DefaultTimesOnGrid | public/js/modules/filters.js:127-142 | both default times are grid values; the end time is the current hour on today's date and "23:00" otherwise |
| Filters.SelectValue | public/js/modules/filters.js:129-142 | a select takes the assigned value iff it is an option (or empty); a value that is no option leaves it with no selection ("") |
| Filters.FilterForm.PopulateHourSelectors | public/js/modules/filters.js:70-92 | with both selects, both hold the 24-hour grid and select "00:00"; otherwise nothing changes |
| Filters.FilterForm.SetInitialFilterTimes | public/js/modules/filters.js:98-143 | the form holds the default dates and, when both selects exist, the default times on a fresh grid |
| Filters.FilterForm.Reset | public/js/modules/filters.js:56-62 | the date inputs are emptied and each select returns to its first option |
| Api.UpdateLatestData | public/js/modules/api.js:18-85 | a record is shown and evaluated; an empty body evaluates as no data; a failure or non-ok status evaluates as an error and leaves the cards |
| Api.LatestWithoutRecordIsDanger | public/js/modules/api.js:22-47 | every outcome without a record ends in `danger` with the one connection alert |
| Api.DatePrefix | public/js/modules/api.js:107-108 | the text before the first 'T': a prefix of the input without any 'T' |
| Api.DatePrefixOfInstant | public/js/modules/api.js:107-108 | splitting `date + "T" + time` gives back the date, which is why the limits are taken as the instants' date fields |
| Api.ParamIn | public/js/modules/api.js:164 | a parameter is found iff the query has one of that name, and its value is that of the first parameter with the name |
| Api.HistoryRequestRoundTrip | public/js/modules/api.js:160-164 | the request carries both dates as given and both times with ":00" appended |
| Api.HistoryClient.FetchAndSetDateLimits | public/js/modules/api.js:95-133 | with both limits, stores their dates, sets the inputs' bounds and enables them; otherwise clears both limits and disables the inputs |
| Api.HistoryClient.FetchAndDrawHistory | public/js/modules/api.js:145-190 | no request and no change on a page without both hour selects (reading their values fails first) or while filtering with a date missing; otherwise the request goes out, the cache is replaced (emptied on failure) and the chosen view is shown: its charts, or the no-data message for an empty cache, every other container blank |
| Api.FailedFetchDrawsNothing | public/js/modules/api.js:185-188 | after a failed history request no canvas holds a chart |
| FilterEvents.Submit | public/js/modules/filters.js:42-53 | the filtered fetch goes out iff both hour selects exist and both dates are set, carrying the form's values; otherwise cache and panel are unchanged |
| FilterEvents.ResetFilters | public/js/modules/filters.js:56-62 | the default dates are written; the fetch goes out iff both hour selects exist, with the default window, and shows the general view of the new cache; otherwise cache and panel are unchanged |
| LegacyApp.UpdateLatestData | public/app.js:36-78 | the same outcome classification handed to the legacy evaluator |
| LegacyApp.LatestSeverities | public/app.js:36-78 | a failure is `danger`, an empty database only `warning`, each with one alert |
| LegacyApp.ClockLabel | public/app.js:289-291 | the current time as five characters "HH:MM" whose hour digits are those of the hour label |
| LegacyApp.ClockLabelRoundTrip | public/app.js:289-291 | a clock label reads back as its hour and minute, and no other text reads back as them |
| LegacyApp.LegacyWindowAgainstModular | public/app.js:260-293 | same dates and start time as the modular window; the end time agrees only on today's date at minute 0; "23:59" is not a grid hour |
| LegacyApp.HistoryRequestRoundTrip | public/app.js:313-326 | `start` and `end` carry date and time with ":00" appended; there is no `startDate`/`endDate` parameter |
| LegacyApp.Dashboard.FetchAndSetDateLimits | public/app.js:232-257 | both limits are stored and set on the inputs; a missing limit only disables the inputs; a failure changes nothing |
| LegacyApp.Dashboard.SetInitialFilterTimes | public/app.js:260-293 | the form holds the legacy default window |
| LegacyApp.Dashboard.CompleteHistoryFetch | public/app.js:327-346 | the cache is replaced (emptied on failure) and the view is shown under its title: its charts, or the no-data message for an empty cache |
| LegacyApp.Dashboard.FetchAndDrawHistory | public/app.js:296-347 | no request iff filters are on and a date is missing; otherwise the space-joined request, the new cache and the view |
| LegacyApp.Dashboard.CardClick | public/app.js:186-211 | no request iff the cache is non-empty or the card is the general one; otherwise request, redraw from the empty cache, then draw the response |
| LegacyApp.Dashboard.ResetFilters | public/app.js:214-229 | the fetch always goes out with the legacy default window |
| Server.HandlePostData | server.js:6-14 | 200 and saved iff weight and temperature are both truthy, else 400 and nothing saved |
| Server.FalsyMetricRejected | server.js:8 | a missing, null, zero, empty or false weight or temperature is rejected |
| Server.OtherFieldsIgnored | server.js:8 | changing any other field does not change the decision |
| Server.HandleLatest | server.js:17-20 | the store's latest record is the reply |
| Server.HandleHistory | server.js:23-26 | the store's history is the reply |
| Server.HistoryIgnoresQuery | server.js:23-26 | the reply is the same whatever the query string holds |

## Left out

- The DOM itself: class names, text contents, Chart.js options, colors and animation.
  The model keeps only which element holds what.
- Message texts, `toFixed` formatting and the locale formatting of chart labels. A label is the
  reading's timestamp.
- Dates are day numbers (`Day`). A date limit's `split('T')[0]` is taken as the instant's date
  field; `Api.DatePrefixOfInstant` shows that on the text form the split gives exactly that date. The text form of dates, the UTC/local conversions of `Date`
  and `toISOString`, and `encodeURIComponent` are not modelled.
- The JavaScript comparison of `null` (as 0) in `public/js/modules/status.js`: a missing metric
  fails every `>`/`<` comparison in the model. `NaN` is not modelled either. `toFixed` on a
  missing value, which throws, is not modelled.
- `public/js/main.js`: start-up, the polling timer, the mobile menu toggle and the card click
  wiring of the modular client.
- The persistence layer behind `saveData`, `getLatestData` and `getHistory`. Their results are
  inputs to the server handlers.
- Thresholds the code declares but never reads, such as the weight-drift and minimum-humidity
  entries.
- Concurrency: every request completes before the next event. The legacy card click is
  modelled as request, immediate redraw, then completion in that order.
- `LegacyApp.Dashboard.ResetFilters`: `form.reset()` is modelled as emptying the dates and free
  time inputs (their default values on the page).
- `Charts.ChartPanel.ShowHistoryChart`: a container id that is not one of the five chart
  containers is not modelled.
- The date inputs are assumed present, since every operation reads them.
- `LegacyApp.Dashboard.CardClick`: the redraw when the response arrives is stated through
  `Charts.Expected`. The panel's title and visibility after it are not restated.
- The legacy script's guard on a missing summary element and its `DOMContentLoaded` start-up
  are not modelled.

## Status rule

A reader might expect the overall status to be the most severe alert, as the single-file script computes it. The modular evaluator works differently, and the model follows its code:

- The modular evaluator's overall status is not the most severe alert. It is the severity of
  the first check that fired, because only the temperature check overwrites the status and the
  later checks change it only while it is still `ok` (public/js/modules/status.js:74-114).
  `HiveStatus.WarningBesideDangerAlert` shows a `warning` status beside a `danger` alert. The
  legacy evaluator does take the most severe alert (`LegacyStatus.StatusIsMostSevereAlert`).
- For the reading 14000 g, 39 °C, 60 %, 500, the modular code raises only the
  critical-temperature alert, since its weight check fires only below 1 g
  (`HiveStatus.HeavyHotHiveExample`). The legacy code lists low weight before high temperature
  (`LegacyStatus.HeavyHotHiveExample`).

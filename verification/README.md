# Greenhouse dashboard core, modelled in Dafny

The Elysium greenhouse dashboard is a React application. Most of it renders
hardcoded data. Three pieces of it hold logic that can be stated and proved.
This project models those three:

- **The live chart of the control panel** (`chart_window.dfy`, `control_panel.dfy`).
  The chart has three series: temperature, humidity and light intensity. Each
  holds 60 samples over the fixed x-axis labels 0..59. On every timer tick,
  each series drops its oldest sample and appends one newly generated sample.
  All three series change in the same state update. The panel also holds the
  ventilation and water switches and the lighting schedule. Module
  `ChartWindow` models the chart as values: the generator, shift-then-push, a
  tick, and any number of ticks. Class `ControlPanel.Panel` models the
  component's state cells. Its fields are overwritten by `Tick`, the two
  toggles and the two schedule setters.
- **Alert acknowledgement** (`alerts.dfy`). Alerts are records keyed by id.
  Acknowledging an id marks that alert as handled and changes nothing else.
  "Take Action" logs a line chosen by the alert's type, then acknowledges.
  The recommended action depends only on the alert's type, and it is shown
  only while the alert is unhandled.
- **Report statistics** (`performance_reports.dfy`). These are the rounded
  average, the maximum and the minimum of the seven monthly readings of each
  series.

Randomness is a parameter. A *draw* is a real in [0, 1) and stands for one
value of `Math.random()`. A generated sample is `u * (hi - lo) + lo`, the
source's expression evaluated over exact reals. Samples are Dafny `real`s.

The chart has exactly three series of 60 samples and no error paths, so
the model has none. Its state is a value that each tick replaces.

## Model

| member | source | states |
|---|---|---|
| `ChartWindow.Draw` | src/components/ControlPanel.jsx:105-111 | a generated sample `u * (hi - lo) + lo` with `u` in [0, 1) lies in [lo, hi) |
| `ChartWindow.ShiftPush` | src/components/ControlPanel.jsx:104-111 | `shift()` then `push(v)` on a copy: a non-empty series keeps its length, element k is the old element k+1, and the last is `v`; on an empty array, shift removes nothing and the result is `[v]` |
| `ChartWindow.Labels` | src/components/ControlPanel.jsx:28 | the labels are exactly 0..59 |
| `ChartWindow.Style` | src/components/ControlPanel.jsx:30-53 | each dataset is created with border width 2, no fill and tension 0.2, around its samples |
| `ChartWindow.Fill` | src/components/ControlPanel.jsx:32 | `Array.from` with one generator call per draw yields one sample per draw, each in the range |
| `ChartWindow.Mount` | src/components/ControlPanel.jsx:27-55 | the mount-time chart has labels 0..59 and three 60-sample datasets in their styles, and every sample lies in its series' fill range |
| `ChartWindow.InitialChartDataAsWritten` | src/components/ControlPanel.jsx:27-55 | as written: temperature and humidity samples lie in [24, 30), light samples in [850, 1200) |
| `ChartWindow.InitialChartData` | src/components/ControlPanel.jsx:27-55 | corrected mount, with humidity filled from [65, 80): shaped, and every sample within its series' display range |
| `ChartWindow.Advance` | src/components/ControlPanel.jsx:99-121 | one tick keeps the labels and every dataset's name, colour, width, fill and tension, replaces each series' data by its shift-then-push with a tick sample, and returns exactly three datasets |
| `ChartWindow.AdvanceMany` | src/components/ControlPanel.jsx:97-125 | repeated ticks never change the labels and always leave three datasets |
| `ChartWindow.TickSample` | src/components/ControlPanel.jsx:105-111 | each tick sample lies in its series' tick range: [24, 30), [65, 80) or [850, 900) |
| `ChartWindow.WindowStep` | src/components/ControlPanel.jsx:104-111 | one more tick moves a series' window over its history along by exactly one sample |
| `ChartWindow.AdvanceManyWindow` | src/components/ControlPanel.jsx:99-121 | after n ticks, each series is the 60 samples that follow offset n of its mount-time samples and its tick samples; the offset n is the same for all three series (no series is ever a tick ahead); shape and styles are kept |
| `ChartWindow.OldestFromMount` | src/components/ControlPanel.jsx:104-111 | before 60 ticks, the oldest sample shown is still the mount-time sample at the tick count |
| `ChartWindow.TurnedOverInTickRange` | src/components/ControlPanel.jsx:105-111 | after 60 or more ticks, every sample of every series lies in that series' tick range, whatever the mount produced |
| `ChartWindow.AdvanceInDisplayRange` | src/components/ControlPanel.jsx:99-121 | a tick preserves the shape and keeps every sample within its series' display range, because each tick range lies inside its fill range |
| `ChartWindow.AlwaysInDisplayRange` | src/components/ControlPanel.jsx:27-125 | with the corrected mount, every reachable chart is shaped and in display range after any number of ticks |
| `ChartWindow.AsWrittenHumidityBelowTickRange` | src/components/ControlPanel.jsx:40 | as written, for the first 60 ticks the oldest humidity sample shown lies below 65, the lowest value a tick produces |
| `ControlPanel.Panel.constructor` | src/components/ControlPanel.jsx:9-55 | mount: both switches off, schedule 06:00 AM to 06:00 PM, chart as `InitialChartDataAsWritten` (humidity filled from [24, 30) as at line 40), no ticks yet |
| `ControlPanel.Panel.Tick` | src/components/ControlPanel.jsx:97-125 | a tick sets each series to its old data without its first sample plus one tick sample, keeps labels, styles and every other state cell, and keeps the panel invariant |
| `ControlPanel.Panel.ToggleVentilation` | src/components/ControlPanel.jsx:163 | the ventilation switch flips; nothing else changes |
| `ControlPanel.Panel.ToggleWater` | src/components/ControlPanel.jsx:169 | the water switch flips; nothing else changes |
| `ControlPanel.Panel.SetLightsOn` | src/components/ControlPanel.jsx:186 | the "on" time is set and the "off" time is unchanged |
| `ControlPanel.Panel.SetLightsOff` | src/components/ControlPanel.jsx:195 | the "off" time is set and the "on" time is unchanged |
| `ControlPanel.ToggleTwice` | src/components/ControlPanel.jsx:162-173 | pressing each switch twice restores the panel |
| `ControlPanel.TurnOver` | src/components/ControlPanel.jsx:97-125 | from any panel, the as-written mount included, after sixty timer firings every sample on the chart lies in its series' tick range |
| `Alerts.InitialAlertsShape` | src/components/Alerts.jsx:4-8 | three alerts with the distinct ids 1, 2, 3, none acknowledged |
| `Alerts.Acknowledge` | src/components/Alerts.jsx:13-17 | length and order are kept; ids, types, messages and timestamps are kept; afterwards `actionTaken` holds exactly where it held before or where the id matches |
| `Alerts.AcknowledgeEffect` | src/components/Alerts.jsx:14-16 | the matching alert becomes itself with `actionTaken` true, every other alert is unchanged, and no flag is cleared |
| `Alerts.AcknowledgeOne` | src/components/Alerts.jsx:14-16 | with unique ids, acknowledging alert j's id updates alert j alone |
| `Alerts.AcknowledgeAbsent` | src/components/Alerts.jsx:13-17 | acknowledging an id no alert has returns an equal list |
| `Alerts.AcknowledgeIdempotent` | src/components/Alerts.jsx:13-17 | acknowledging twice equals acknowledging once |
| `Alerts.AcknowledgeKeepsUniqueIds` | src/components/Alerts.jsx:14-16 | unique ids stay unique |
| `Alerts.KindOf` | src/components/Alerts.jsx:20-26 | a type string is Critical, Warning or Alert exactly when it equals that name, and any other string is an unknown type carrying that string |
| `Alerts.KindOfRoundTrip` | src/components/Alerts.jsx:47 | the displayed type string reads back as the same type, and the string read from a record is displayed unchanged |
| `Alerts.ActionLog` | src/components/Alerts.jsx:20-26 | a console line is written exactly for the types Critical, Warning and Alert |
| `Alerts.HandleAction` | src/components/Alerts.jsx:19-28 | "Take Action" has the same effect on the list as acknowledging the alert's id, whatever its type; it logs exactly for the three known types |
| `Alerts.Recommended` | src/components/Alerts.jsx:54-61 | an unhandled alert recommends ventilation if Critical, temperature if Warning and humidity if Alert; a handled alert, or one of an unknown type, recommends nothing |
| `Alerts.AcknowledgeHidesRecommendation` | src/components/Alerts.jsx:54-87 | once an id is acknowledged, its alert shows no recommendation, and every other alert's recommendation is unchanged |
| `PerformanceReports.Average` | src/components/PerformanceReports.jsx:73 | `Math.round(sum / n)`: the result r satisfies r - 1/2 <= sum/n < r + 1/2, so it is the nearest integer with halves rounded up |
| `PerformanceReports.Max` | src/components/PerformanceReports.jsx:74 | `Math.max(...arr)` is an element of the array and no element exceeds it |
| `PerformanceReports.Min` | src/components/PerformanceReports.jsx:75 | `Math.min(...arr)` is an element of the array and no element is below it |
| `PerformanceReports.SumAtLeast` | src/components/PerformanceReports.jsx:73 | a series bounded below by lo sums to at least n * lo |
| `PerformanceReports.SumAtMost` | src/components/PerformanceReports.jsx:73 | a series bounded above by hi sums to at most n * hi |
| `PerformanceReports.AverageBetweenMinAndMax` | src/components/PerformanceReports.jsx:73-75 | for any non-empty series, min <= rounded average <= max |
| `PerformanceReports.ConstantAverage` | src/components/PerformanceReports.jsx:73-75 | a constant series has that constant as its average, max and min |
| `PerformanceReports.Statistics` | src/components/PerformanceReports.jsx:132-149 | each column of the statistics table (one series) has min <= average <= max |
| `PerformanceReports.TemperatureStatistics` | src/components/PerformanceReports.jsx:24 | temperature: average 28, max 31, min 25 |
| `PerformanceReports.HumidityStatistics` | src/components/PerformanceReports.jsx:30 | humidity: average 73 (508/7 rounded), max 80, min 65 |
| `PerformanceReports.LightStatistics` | src/components/PerformanceReports.jsx:36 | light: average 884 (6190/7 rounded), max 1000, min 800 |
| `PerformanceReports.MonthlyStatistics` | src/components/PerformanceReports.jsx:19-41 | the report has three series of exactly one reading per month label (7), so the table is rectangular, and its statistics are those above |

## Left out

- The 500 ms `setInterval` and its `clearInterval` on unmount are not modelled. One firing is one call of `Tick`. `TurnOver` is sixty firings in a row.
- `Math.random()` is not modelled. Each generator call is a draw parameter in [0, 1).
- Floating point is not modelled. Samples are exact reals, and the report average assumes that `sum / n` rounds as exact division does. That holds for the small integers in the report.
- Rendering is not modelled: JSX, the chart, colours, grid and tick options, dark mode. The `createGradient` callback used as `borderColor` is kept only as its two colour stops.
- The temperature, humidity and light sliders (`onSettingChange`) are not modelled. Their state belongs to the dashboard, which is not part of this model, and they never feed the chart.
- The toggles read the rendered value (`setVentilationOn(!ventilationOn)`). Two clicks handled before a re-render are not modelled. Each toggle call sees the current state.
- The copy each tick makes before `shift()` (ControlPanel.jsx:100-102) is not modelled as a copy. Series are values here, so a chart handed out before a tick cannot be altered by it, and the model cannot express the aliasing that the copy avoids.
- ChartWindow.Draw: the result is proved to lie in [lo, hi) over exact reals. In IEEE doubles, the largest `Math.random()` values make `u * (hi - lo) + lo` round to hi itself, so the program's samples lie in [lo, hi].
- ChartWindow.TickSample: the strict upper bound of its tick range holds only for exact reals, as for `Draw`.
- ChartWindow.TurnedOverInTickRange: the strict upper bound of each tick range holds only for exact reals, as for `Draw`.
- `console.log` in "Take Action" is returned as the line it would print. The "No alerts" message is rendering.
- PerformanceReports.Average: requires a non-empty series. The source would return `NaN` for an empty array, and every caller passes a 7-element constant.
- PerformanceReports.Max: requires a non-empty series. The source would return `-Infinity` for an empty array.
- PerformanceReports.Min: requires a non-empty series. The source would return `Infinity` for an empty array.
- ChartWindow.Advance: requires at least three datasets. The source would throw on fewer, and the chart always has three.
- The PDF and print buttons, login, local storage, and the dashboard's tab switching and radar percentages are not part of this model.

## Findings

| source | as written | input that shows it | evidently intended | confidence | as-written member | corrected member |
|---|---|---|---|---|---|---|
| src/components/ControlPanel.jsx:40 | the humidity series is filled at mount with `Math.random() * (30 - 24) + 24`, the temperature range, while every tick appends humidity from [65, 80) (line 108) | any mount; e.g. all humidity draws 0 give 60 samples of 24.0, and the chart then shows values near 24 % beside tick samples of 65 % or more, until 60 ticks have passed | fill humidity from [65, 80), as the ticks do | medium, not executed | `ChartWindow.AsWrittenHumidityBelowTickRange` | `ChartWindow.AlwaysInDisplayRange` |

`ControlPanel.Panel` mounts the chart as written, so its ticks start from
the chart the component builds. The corrected mount is
`ChartWindow.InitialChartData`, and `ChartWindow.AlwaysInDisplayRange` is
proved about it. `ChartWindow.TurnedOverInTickRange` holds for either mount:
after 60 ticks, nothing from the mount is left on screen, and
`ControlPanel.TurnOver` proves that of the panel.

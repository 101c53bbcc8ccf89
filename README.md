# Air-quality dashboard: classification rules, mock forecasts and the map's token gate

This project models the deterministic logic of an air-quality dashboard front end and
proves properties about it. The front end's numbers are fixtures or are drawn from
`Math.random()`. The logic around them is a set of colour and label rules, three mock
forecast generators and one small state machine. The modules are:

- `AqiScale` (`aqi_scale.dfy`) is the six-band AQI category table of the US EPA
  *Technical Assistance Document for the Reporting of Daily Air Quality*
  (EPA-454/B-18-007). It lists the inclusive upper breakpoints 50/100/150/200/300, the
  band names and the band colours. The screens' rules are proved against it: each band
  is the half-open interval `(bp[k-1], bp[k]]`, and the band index is monotone.
- `MapWidget` (`map_widget.dfy`) is the map component. It contains `getAQIColor`, which
  is proved to be the EPA colour of the EPA band for every integer AQI. It also has the
  five sample cities, the style choice and the marker list. The component's state is a
  class, `MapView`, with three fields: the typed token, the selected layer and the
  prompt flag. It also records the map most recently created and how many have been
  created. Its methods are typing, submitting, "Change Token", choosing a layer,
  `initializeMap` and the effect. Each keeps the invariant that the map view is shown
  only after a token with visible characters was submitted.
- `Forecasts` (`forecasts.dfy`) holds the hourly, weekly and monthly generators. Each
  `Math.random()` call is an explicit real in [0, 1). `Math.floor(r*n)` is `ScaledDraw`,
  and the comparisons `r > 0.7`, `r > 0.6` and `r > 0.5` keep the source's constants.
  The module also has the four-band text colour and its relation to the EPA bands and
  to the status badge.
- `StatusBadge` (`status_badge.dfy`) is `getStatusColor`. The forecast and real-time
  screens define it identically, so it is defined once here. It is proved equal to "the
  badge of the EPA band whose name matches the label case-insensitively, else gray".
- `RealTimeData` (`real_time_data.dfy`) holds the pollutant fixture and the stored
  percentages checked against `value / limit * 100`. It also has the progress colour,
  which uses strict bounds, and the bar-width clamp.
- `Alerts` (`alerts.dfy`) holds the threshold fixture and the quiet-hours pickers. An
  option's value is the unpadded hour and its label is the padded `HH:00`.
- `Hours` (`hours.dfy`) is the `HH:00` label shared by the hourly forecast and both
  pickers. `JsString` (`js_string.dfy`) models the JavaScript built-ins used:
  `toString` on non-negative integers, with its inverse; `padStart` with a one-character
  pad; `trim` over the ECMAScript whitespace and line-terminator set; and
  `toLowerCase`. `Options` (`option.dfy`) is an `Option` datatype.

Four behaviours of the source are worth stating explicitly:
- Negative AQI values are not clamped. They are simply green (`AqiColorBoundaries`).
- New Delhi's status is "Unhealthy". That is also its EPA band (`MockStatusesAreBandNames`).
- Every layer other than "satellite" gets the light style.
- The first map is always created with the satellite style. The layer selector only
  appears after the prompt is gone (`TokenSession`).

## Model

| member | source | states |
|---|---|---|
| `JsString.NatToString` | src/pages/Alerts.tsx:197 | `i.toString()` is a non-empty string of decimal digits with no leading zero (a leading '0' only in "0"); it has one digit exactly when i < 10 |
| `JsString.ParseNatToString` | src/pages/Alerts.tsx:212 | reading the decimal string of n back gives n (round trip with `ParseDigits`) |
| `JsString.NatToStringInjective` | src/pages/Alerts.tsx:212 | different hours have different option values |
| `JsString.PadStart` | src/pages/Forecasts.tsx:21 | `padStart(width, fill)`: the length is max(len, width), the original string is the suffix, and every position in front of it is the fill character |
| `JsString.ParsePadStart` | src/pages/Forecasts.tsx:21 | `padStart(width, '0')` on a digit string keeps it a digit string and does not change its value |
| `JsString.TrimStart` | src/components/Map.tsx:88 | the result is a suffix of the input, everything dropped is whitespace, and it does not begin with whitespace |
| `JsString.TrimEnd` | src/components/Map.tsx:88 | the result is a prefix of the input, everything dropped is whitespace, and it does not end with whitespace |
| `JsString.Trim` | src/components/Map.tsx:88 | `token.trim()` is falsy (empty) exactly when the token consists only of whitespace, both directions; `TrimIsInnerSlice` says which slice it is |
| `JsString.TrimEmptyIffAllWhitespace` | src/components/Map.tsx:88 | stripping the leading and then the trailing whitespace leaves nothing exactly when the string is all whitespace |
| `JsString.TrimIsInnerSlice` | src/components/Map.tsx:88 | `trim()` returns a contiguous slice of its input that neither begins nor ends with whitespace |
| `JsString.ToLower` | src/pages/Forecasts.tsx:47 | the model's `toLowerCase()`, ASCII only: it keeps the length and maps A-Z to a-z character by character, leaving every other character as it is |
| `JsString.ToLowerAppend` | src/pages/RealTimeData.tsx:44 | the model's ASCII lowering works character by character, so lowering a concatenation is concatenating the lowered parts |
| `JsString.ToLowerIdempotent` | src/pages/RealTimeData.tsx:44 | lower-casing twice equals lower-casing once |
| `AqiScale.CountBelowInterval` | src/components/Map.tsx:26-33 | for increasing breakpoints, band k is exactly the values above breakpoint k-1 and at most breakpoint k (inclusive upper bounds) |
| `AqiScale.CountBelowMonotone` | src/components/Map.tsx:27-32 | a larger value is never in an earlier band |
| `AqiScale.BandOf` | src/components/Map.tsx:26-33 | the EPA band of an AQI is its position among the breakpoints 50/100/150/200/300 |
| `AqiScale.BandOfInterval` | src/components/Map.tsx:27-32 | an AQI is in band k iff it lies in (bp[k-1], bp[k]] of the EPA table |
| `AqiScale.BandOfMonotone` | src/components/Map.tsx:27-32 | the EPA band index is non-decreasing in the AQI |
| `Hours.HourLabel` | src/pages/Forecasts.tsx:21 | `${i.toString().padStart(2, '0')}:00` is at least five characters: digits that read back as i, then ":00" (`HourLabelShape` and `HourLabelDigits` pin it for hours 0..23) |
| `Hours.HourLabelShape` | src/pages/Forecasts.tsx:21 | for hours 0..23 the label is tens digit, units digit, ":00" |
| `Hours.HourLabelDigits` | src/pages/Alerts.tsx:198 | every hour label has length 5, ends in ":00", and its two digits read back as the hour |
| `Hours.HourLabelInjective` | src/pages/Alerts.tsx:213 | different hours have different labels |
| `StatusBadge.StatusColor` | src/pages/Forecasts.tsx:46-54 | the badge of a label is the badge of the EPA band whose name matches the label ignoring case, and gray when no band name matches |
| `StatusBadge.NamedBand` | src/pages/RealTimeData.tsx:44-48 | finds the band whose lower-case name equals the lower-cased label; None exactly when no band's lower-case name matches |
| `StatusBadge.LowerBandNames` | src/pages/RealTimeData.tsx:45-48 | lower-casing each EPA band name gives the four switch cases ("good", "moderate", "unhealthy for sensitive groups", "unhealthy"), plus "very unhealthy" and "hazardous" |
| `StatusBadge.NamedBandIffName` | src/pages/RealTimeData.tsx:44-48 | a label selects band b exactly when it equals b's EPA name ignoring case (both directions) |
| `StatusBadge.StatusColorIgnoresCase` | src/pages/RealTimeData.tsx:44 | `getStatusColor(s) == getStatusColor(s.toLowerCase())` for every string |
| `StatusBadge.StatusColorOfBandName` | src/pages/RealTimeData.tsx:43-51 | each EPA band name gets its band's badge: "Good" green, "Moderate" yellow, USG orange, "Unhealthy" red; gray exactly for "Very Unhealthy" and "Hazardous" |
| `StatusBadge.StatusColorExamples` | src/pages/RealTimeData.tsx:44-50 | "GOOD" is green like "Good"; a label naming no band ("Unknown") takes the gray default |
| `MapWidget.AqiColor` | src/components/Map.tsx:26-33 | `getAQIColor(aqi)` is the EPA colour of the EPA band of aqi, for every integer (negative values included) |
| `MapWidget.PaletteIndex` | src/components/Map.tsx:27-32 | the position of a colour in the EPA palette is the index of its band |
| `MapWidget.AqiColorMonotone` | src/components/Map.tsx:27-32 | a higher AQI never gets a colour earlier in the palette |
| `MapWidget.AqiColorBoundaries` | src/components/Map.tsx:26-33 | -10, 0, 50 green; 51, 100 yellow; 101, 150 orange; 151, 200 red; 201, 300 purple; 301 maroon |
| `MapWidget.MockStatusesAreBandNames` | src/components/Map.tsx:18-24 | each sample city's status is the EPA name of its AQI's band (156 Unhealthy, 134 USG, 89/65/78 Moderate) |
| `MapWidget.StyleFor` | src/components/Map.tsx:42 | satellite-v9 iff the layer is "satellite", light-v11 for every other layer |
| `MapWidget.Markers` | src/components/Map.tsx:51-73 | one marker per location, in order, at its coordinates, with its name, AQI and status, coloured by its EPA band |
| `MapWidget.NewMap` | src/components/Map.tsx:40-73 | the map `initializeMap` builds carries the token, the layer's style, centre (77.2090, 20.5937), zoom 5 and one marker per sample city |
| `MapWidget.MockMarkerColors` | src/components/Map.tsx:51-54 | the five markers are red, yellow, yellow, yellow, orange |
| `MapWidget.MapView.constructor` | src/components/Map.tsx:13-16 | initial state: empty token, "satellite", prompt shown, no map |
| `MapWidget.MapView.SetToken` | src/components/Map.tsx:106-111 | typing (only possible while the prompt shows) replaces the token and changes nothing else |
| `MapWidget.MapView.SubmitToken` | src/components/Map.tsx:87-91 | the prompt is hidden iff the trimmed token is non-empty; a blank token leaves all state unchanged |
| `MapWidget.MapView.ChangeToken` | src/components/Map.tsx:150 | shows the prompt again without clearing the token or the layer |
| `MapWidget.MapView.SelectLayer` | src/components/Map.tsx:131 | sets the layer; nothing else changes |
| `MapWidget.MapView.ContainerMounted` | src/components/Map.tsx:157 | the map container's ref is attached exactly while the token prompt is hidden, and in a valid state that means a non-blank token was submitted |
| `MapWidget.MapView.InitializeMap` | src/components/Map.tsx:35-75 | a no-op without a mounted container or with an empty token; otherwise creates one map with the token, the layer's style, centre (77.2090, 20.5937), zoom 5 and the five markers |
| `MapWidget.MapView.RunEffect` | src/components/Map.tsx:77-81 | creates a map exactly when the token is non-empty and the prompt is hidden |
| `MapWidget.EmptyTokenSession` | src/components/Map.tsx:87-91 | submitting an empty token keeps the prompt, and no map is created |
| `MapWidget.BlankTokenSession` | src/components/Map.tsx:87-91 | any token made only of whitespace is refused like an empty one: the prompt stays and no map is created |
| `MapWidget.OpenMap` | src/components/Map.tsx:77-91 | typing a token with a visible character and submitting it leaves the prompt hidden, the layer "satellite", and exactly one map, `NewMap(token, "satellite")` |
| `MapWidget.TokenSession` | src/components/Map.tsx:77-91 | with a usable token the first map is satellite; choosing "street" creates a second, light map with the same five markers |
| `MapWidget.ChangeTokenSession` | src/components/Map.tsx:150 | after "Change Token" the prompt shows with the old token kept, and resubmitting brings the map back in the chosen layer |
| `Forecasts.ScaledDraw` | src/pages/Forecasts.tsx:22 | `Math.floor(r*n)` for `r` in [0,1) lies in [0, n) |
| `Forecasts.ScaledDrawReachable` | src/pages/Forecasts.tsx:22 | every k in [0, n) is drawn by some random value, so the generator ranges are tight |
| `Forecasts.HourlyForecast` | src/pages/Forecasts.tsx:20-24 | 24 points labelled `HourLabel(i)`, aqi = floor(draw*100)+20, so in [20,119]; hours 0-5 and 21-23 are "Good", hours 6-20 are "Moderate" iff their draw > 0.7; no other status |
| `Forecasts.HourlyLabels` | src/pages/Forecasts.tsx:21 | the labels run "00:00", …, "09:00", "10:00", …, "23:00" |
| `Forecasts.HourlyLabelsDistinct` | src/pages/Forecasts.tsx:21 | no two hours share a label |
| `Forecasts.HourlyStatusIgnoresAqi` | src/pages/Forecasts.tsx:22-23 | the status ignores the AQI: hour 3 with aqi 119 is still "Good" |
| `Forecasts.ShownHours` | src/pages/Forecasts.tsx:110 | the screen shows 12 hours, "00:00" to "11:00", and the first six are always "Good" |
| `Forecasts.WeeklyForecast` | src/pages/Forecasts.tsx:26-37 | 7 days at offsets 0..6, high = floor(draw*80)+40 in [40,119], low = floor(draw*40)+20 in [20,59]; "Moderate" iff draw > 0.6, "up" iff draw > 0.5 |
| `Forecasts.WeeklyLowMayExceedHigh` | src/pages/Forecasts.tsx:32-33 | low ≤ high is not guaranteed: high 40 with low 59 is produced |
| `Forecasts.MonthlyForecast` | src/pages/Forecasts.tsx:39-44 | 4 weeks labelled "Week 1".."Week 4", avgAqi = floor(draw*60)+30 in [30,89], confidence = floor(draw*20)+75 in [75,94], "Moderate" iff draw > 0.7 |
| `Forecasts.TextAqiColor` | src/pages/Forecasts.tsx:56-61 | the text colour is the EPA band's colour (green/yellow/orange) for bands up to USG and red for every higher band |
| `Forecasts.TextAqiColorCollapsesAbove150` | src/pages/Forecasts.tsx:56-61 | red iff aqi > 150 iff the EPA band is Unhealthy or above; agrees band for band with the six-band rule up to 150 |
| `Forecasts.TextColorBeginsBadge` | src/pages/Forecasts.tsx:46-61 | for the four lower bands the text colour of the figure is the first class of the badge |
| `Forecasts.BadgeMatchesTextColor` | src/pages/Forecasts.tsx:46-61 | up to 200 the badge of a band's name starts with the same text colour as the figure; above 200 the badge is gray while the figure is red |
| `Forecasts.GeneratedHourColors` | src/pages/Forecasts.tsx:110-116 | on generated hours the red text is never used and every badge is green or yellow (the gray default is never reached) |
| `Forecasts.GeneratedDayColors` | src/pages/Forecasts.tsx:142-166 | on generated days the high is never red and every badge is green or yellow |
| `Forecasts.GeneratedWeekColors` | src/pages/Forecasts.tsx:193-201 | on generated weeks the average is green or yellow and so is every badge |
| `RealTimeData.PercentOfLimit` | src/pages/RealTimeData.tsx:28-33 | the percentage p of a limit satisfies p × limit = value × 100 |
| `RealTimeData.FixturePercentagesMatch` | src/pages/RealTimeData.tsx:28-33 | every stored percentage is within 0.05 of value/limit×100, and exact for PM2.5, PM10, NO2 and SO2 |
| `RealTimeData.ProgressColor` | src/pages/RealTimeData.tsx:53-57 | green iff p < 50, yellow iff 50 ≤ p < 75, red iff p ≥ 75 (exclusive bounds: 50 is yellow, 75 red) |
| `RealTimeData.ProgressColorMonotone` | src/pages/RealTimeData.tsx:53-57 | a larger percentage never gets a milder colour |
| `RealTimeData.BarWidth` | src/pages/RealTimeData.tsx:123 | `min(p, 100)` is at most 100, equals p when p ≤ 100 and 100 above |
| `RealTimeData.BarWidthIdempotent` | src/pages/RealTimeData.tsx:123 | clamping twice equals clamping once |
| `RealTimeData.FixtureBars` | src/pages/RealTimeData.tsx:28-33 | every stored percentage is below 100, so each bar is drawn at its stored width; the colours are green, yellow, green, yellow, green, green |
| `RealTimeData.CurrentStatusIsBandName` | src/pages/RealTimeData.tsx:20-21 | the current reading's status "Good" is the EPA band name of its AQI 42 |
| `RealTimeData.FixtureBadges` | src/pages/RealTimeData.tsx:19-33 | the current status and every pollutant status is "Good" or "Moderate", so no badge is gray |
| `Alerts.ThresholdsWellFormed` | src/pages/Alerts.tsx:29-36 | six pollutants, distinct names, positive thresholds, each equal (with its unit) to that pollutant's limit on the real-time screen |
| `Alerts.QuietHourOptions` | src/pages/Alerts.tsx:196-200 | 24 options; option i has value `i.toString()` and label `HourLabel(i)` |
| `Alerts.QuietHourOptionsShape` | src/pages/Alerts.tsx:211-215 | values read back as their hour and have no leading zero, labels are 5 characters ending in ":00", and both are pairwise distinct |
| `Alerts.Selected` | src/pages/Alerts.tsx:191 | the option a picker shows for a stored value is an option with that value; None exactly when no option has it |
| `Alerts.SelectedDistinct` | src/pages/Alerts.tsx:196-200 | among options with distinct values, a value selects the one option carrying it |
| `Alerts.SelectedHour` | src/pages/Alerts.tsx:211-215 | the value `h.toString()` selects hour h's option |
| `Alerts.FromDefaultSelects2200` | src/pages/Alerts.tsx:191 | the "From" default "22" selects the option labelled "22:00" |
| `Alerts.ToDefaultMatchesNoOption` | src/pages/Alerts.tsx:206 | the "To" default "07" matches no option value |
| `Alerts.IntendedToDefaultSelects0700` | src/pages/Alerts.tsx:206 | the intended default "7" selects the option labelled "07:00" |

## Findings

| source | as written | input that shows it | evidently intended | confidence | as-written member | corrected member |
|---|---|---|---|---|---|---|
| src/pages/Alerts.tsx:206 | the "To" quiet-hours picker has `defaultValue="07"`, but its option values are `i.toString()`, "0" to "23" | the default "07" itself: no option has that value, so the picker starts with nothing selected | `defaultValue="7"`, which selects the option labelled "07:00" | not executed; high that nothing is selected, medium that 07:00 was meant | `Alerts.ToDefaultMatchesNoOption` | `Alerts.IntendedToDefaultSelects0700` |

## Left out

- mapbox-gl and the DOM (src/components/Map.tsx:38-73) are a foreign library. The map
  object, its navigation control, the marker elements and the popups become one
  `MapInstance` record. It holds the token, style, centre, zoom and the `Marker` list,
  and the markers carry exactly what each element and popup show. The markers are added
  on the map's asynchronous 'load' event. That timing is not modelled: the markers are
  part of the record from the start.
- React's effect scheduling and cleanup (src/components/Map.tsx:77-85) are framework
  lifecycle. `RunEffect` is called explicitly after the state changes that would
  trigger it. The cleanup `map.current?.remove()` is not modelled. `current` keeps the
  last map created, as the ref does.
- `MapWidget.MapView.SetToken`: requires the prompt to be shown, and `SelectLayer`
  requires it to be hidden. The input and the selector are rendered only in those
  states (src/components/Map.tsx:93-124, 126-153).
- `Math.random()` itself is not modelled. Each call is a parameter in [0, 1), and
  probabilities are not reasoned about. Each hourly point is given its own status draw
  even for night hours, where the source skips the call. This changes nothing, since
  the draws are independent.
- The day and date labels (`Date`, `toLocaleDateString`, src/pages/Forecasts.tsx:27-31)
  are locale formatting. A day is represented by its offset from today. The `toFixed(1)`
  display (src/pages/RealTimeData.tsx:118) and the confidence bar width are presentation.
- Numbers: AQI values are integers. The fixtures and generators produce nothing else,
  and NaN or fractional AQIs are not modelled. Percentages, values and limits are exact
  reals rather than IEEE doubles.
- `JsString.ToLower`: lower-cases only the ASCII letters A-Z. The only other code point
  whose lower-case form is entirely ASCII is the Kelvin sign (to 'k'). No badge label contains 'k', so
  `StatusColor` is exact for every input.
- `JsString.ToLowerAppend`: holds for the model's ASCII lowering only. JavaScript's
  `toLowerCase()` can lengthen a string (U+0130 becomes "i" followed by U+0307) and
  lowers capital sigma by context (the Final_Sigma rule), so it does not distribute
  over concatenation. Such inputs lower to non-ASCII text both in JavaScript and in the
  model, and no non-ASCII text equals a switch case, so `StatusColor` stays exact.
- `Alerts.Selected`: models how the external select component finds the option for a
  stored value. The component itself is not part of this model.
- Layout, styling, tabs, cards and navigation are left out. So are the Alerts text
  inputs, channel toggles, threshold switches and inputs, the message template (no
  substitution is implemented), the alert history, the weather fixture and the selected
  date. src/pages/Index.tsx and src/pages/About.tsx hold only static content.

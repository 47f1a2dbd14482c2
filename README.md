# Greenhouse dashboard logic in Dafny

A model of the logic inside the React components of a greenhouse dashboard. The model covers:

- the light and soil-moisture controls, which simulate sensor readings and keep a capped history;
- the water-supply control, with manual dispensing and a scheduled dispense armed by sending a time to the controller;
- the alerts widget;
- the recent-activity feed;
- the weather widget's code table and forecast windows;
- the validation in the login and registration forms.

Each component becomes one module. The JavaScript built-ins the components rely on get a module of their own (`JsText`):

- `String.prototype.includes`;
- `String.prototype.split` on one character;
- `parseInt` without a radix;
- the `\s` class of regular expressions;
- number-to-string conversion.

`TwelveHour` holds the "hh:mm AM" reading that the alerts and the activity feed share. `Sensor` holds the clamp and the 20-point history buffer that the light and soil controls share. `Validators` gives the e-mail and password patterns twice: once as the language its regular expression matches, and once as a plain check, with a lemma that the two agree.

Components whose state changes step by step are classes: `LightControl`, `SoilMonitor`, `WaterSupplyControl`, `AlertsWidget`, `LoginForm` and `RegistrationForm`. Each state change is a method. The method's contract ties the new state to a pure function of the old one, and the lemmas are proved about those functions.

Randomness and time are parameters:

- the jitter of a sensor tick is passed as `variation`, bounded by the same range `Math.random` would give;
- the current time is passed in as an hour, as an hour and minute, or as milliseconds since midnight.

Readings are modelled as exact reals. A string is a sequence of `char`, which in Dafny is a Unicode scalar value. Every keyword, separator and character class the components use lies in the Basic Multilingual Plane, where one `char` is one UTF-16 code unit of the JavaScript string.

Two points of the code the model follows closely:

- The activity feed's time difference is computed in milliseconds, with `Math.floor` on the hours and JavaScript's truncating `%` for the leftover minutes. The model does the same (`RecentActivity.AgoLabel`).
- A dispense that has started and not yet finished is kept in a queue (`pending`), so the timeout logs the method of the oldest outstanding dispense.

## Model

| member | source | states |
|---|---|---|
| Wrappers.At | frontend/src/Components/Dashboard/WeatherWidget.tsx:158 | indexing a JavaScript array: a value exactly when the index is in range, and then the element at that index |
| JsText.Includes | frontend/src/Components/Dashboard/AlertsWidget.tsx:80-81 | `String.prototype.includes`; specified by `IncludesIff`: true exactly when the substring occurs at some position |
| JsText.IncludesIff | frontend/src/Components/Dashboard/AlertsWidget.tsx:80-81 | `includes` holds exactly when the substring occurs at some position |
| JsText.IncludesAt | frontend/src/Components/Dashboard/RecentActivity.tsx:14 | an occurrence at any position makes `includes` true |
| JsText.IncludesPrefix | frontend/src/Components/Dashboard/RecentActivity.tsx:14 | a string includes each of its prefixes |
| JsText.Split | frontend/src/Components/Dashboard/AlertsWidget.tsx:85-86 | `split` on one character; at least one piece; specified by `SplitJoin`, `SplitNoSeparator` and `SplitAtFirst`: the pieces joined with the separator give back the string, and no piece holds the separator |
| JsText.SplitJoin | frontend/src/Components/Dashboard/AlertsWidget.tsx:85-86 | splitting loses nothing: the pieces joined with the separator give back the string, and no piece contains the separator |
| JsText.SplitNoSeparator | frontend/src/Components/Dashboard/AlertsWidget.tsx:85-86 | a string without the separator splits into itself alone |
| JsText.SplitAtFirst | frontend/src/Components/Dashboard/AlertsWidget.tsx:85-86 | a string whose first separator follows a given prefix splits into that prefix, then the pieces of the rest |
| JsText.DigitPrefix | frontend/src/Components/Dashboard/AlertsWidget.tsx:87 | the digits `parseInt` reads: a prefix made of digits, followed by a non-digit or by the end |
| JsText.TrimStart | frontend/src/Components/Dashboard/AlertsWidget.tsx:87 | the whitespace `parseInt` skips: the removed prefix is all whitespace, and what is left is empty or starts with a non-whitespace character |
| JsText.ParseInt | frontend/src/Components/Dashboard/AlertsWidget.tsx:87 | `parseInt` without a radix; specified by `ParseIntOfDigits`, `ParseIntOfNatToString` and `ParseIntOfTwoDigits`: a decimal string reads as its value |
| JsText.ParseIntOfDigits | frontend/src/Components/Dashboard/AlertsWidget.tsx:87 | `parseInt` of a non-empty decimal string is its decimal value |
| JsText.NatToString | frontend/src/Components/Dashboard/AlertsWidget.tsx:94 | a number's rendering is a non-empty string of digits with no leading zero, and it is "0" exactly for zero |
| JsText.NatToStringValue | frontend/src/Components/Dashboard/AlertsWidget.tsx:94 | the digits of a number's rendering have that number as their value |
| JsText.ParseIntOfNatToString | frontend/src/Components/Dashboard/RecentActivity.tsx:56 | `parseInt` reads back the number in an "Nh ago" label |
| JsText.TwoDigits | frontend/src/Components/Controls/WaterSupplyControl.tsx:39 | a zero-padded field is two digits whose value is the number |
| JsText.TwoDigitsInjective | frontend/src/Components/Controls/WaterSupplyControl.tsx:39 | different numbers get different two-digit fields |
| JsText.ParseIntOfTwoDigits | frontend/src/Components/Dashboard/AlertsWidget.tsx:87 | `parseInt` reads back a two-digit field |
| TwelveHour.ReadClock | frontend/src/Components/Dashboard/AlertsWidget.tsx:85-86 | splits "hh:mm period" at the space and the colon and parses the hour and minutes; specified by `ReadFormattedClock`: it reads back every formatted time |
| TwelveHour.To24HourCases | frontend/src/Components/Dashboard/AlertsWidget.tsx:87-90 | 12 AM is 0; 12 PM is 12; any other PM hour gains 12; any other AM hour is kept; a missing period keeps the hour |
| TwelveHour.To24Hour | frontend/src/Components/Dashboard/AlertsWidget.tsx:87-90 | the 12-hour to 24-hour conversion; specified by `To24HourCases` and `To24HourBijective` |
| TwelveHour.From24Hour | frontend/src/Components/Dashboard/RecentActivity.tsx:45-46 | every hour of the day has a twelve-hour form with hour 1 to 12 and period AM or PM |
| TwelveHour.To24HourBijective | frontend/src/Components/Dashboard/RecentActivity.tsx:45-46 | the conversion is a bijection between 1-12 AM/PM and the hours 0-23, with `From24Hour` as its inverse |
| TwelveHour.ReadFormattedClock | frontend/src/Components/Dashboard/RecentActivity.tsx:41-43 | reading "hh:mm period" back recovers the hour, the minutes and the period |
| Sensor.Clamp | frontend/src/Components/Controls/LightingControl.tsx:31 | the result lies in [lo, hi] and is the point of [lo, hi] nearest to the input |
| Sensor.ClampNonExpansive | frontend/src/Components/Controls/SoilMoistureControl.tsx:19 | clamping never moves two values further apart, and leaves in-range values alone |
| Sensor.StepBounded | frontend/src/Components/Controls/LightingControl.tsx:30-31 | from an in-range value, a step of at most `bound` followed by a clamp moves the value at most `bound` |
| Sensor.Push | frontend/src/Components/Controls/LightingControl.tsx:39-42 | after a push the history has length min(old + 1, 20); the new point is last; the kept points are the most recent earlier ones, in order |
| Sensor.PushAllKeepsLatest | frontend/src/Components/Controls/SoilMoistureControl.tsx:35-39 | any run of ticks leaves exactly the latest 20 points of everything pushed |
| Sensor.TwentyFiveTicks | frontend/src/Components/Controls/LightingControl.tsx:41 | after 25 ticks from empty the chart holds 20 points, starting with the sixth |
| Lighting.Round | frontend/src/Components/Controls/LightingControl.tsx:35 | `Math.round` gives the integer within half of the input, with halves rounded up |
| Lighting.NextLux | frontend/src/Components/Controls/LightingControl.tsx:31 | the new lux lies in [0, 40000] whatever the jitter, and is the old lux plus the jitter when that sum is in range |
| Lighting.TickStaysClose | frontend/src/Components/Controls/LightingControl.tsx:30-31 | with jitter in [-2000, 2000) a tick moves an in-range lux by at most 2000; from the initial 26000 it lands in [24000, 28000] |
| Lighting.RoundInRange | frontend/src/Components/Controls/LightingControl.tsx:35 | a stored chart value lies in [0, 40000] |
| Lighting.Percentage | frontend/src/Components/Controls/LightingControl.tsx:59 | for lux in [0, 40000] the percentage is in [0, 100] |
| Lighting.StatusOf | frontend/src/Components/Controls/LightingControl.tsx:61-84 | the light status; specified by `StatusBands`: each status holds exactly on its lux band |
| Lighting.StatusBands | frontend/src/Components/Controls/LightingControl.tsx:61-84 | Too Low iff lux < 20000; Moderate iff 20000 <= lux < 25000; Optimal iff 25000 <= lux <= 35000; Too High iff lux > 35000 |
| Lighting.LabelsDistinct | frontend/src/Components/Controls/LightingControl.tsx:61-84 | the four labels differ, so each names one band |
| Lighting.LightControl.constructor | frontend/src/Components/Controls/LightingControl.tsx:23-25 | starts at 26000 lux, with an empty chart and the roof open |
| Lighting.LightControl.Tick | frontend/src/Components/Controls/LightingControl.tsx:27-46 | the lux becomes the clamped jittered value, within 2000 of the old one; the chart gains the rounded point through `Push`; the roof is unchanged |
| Lighting.LightControl.SetFromSlider | frontend/src/Components/Controls/LightingControl.tsx:48-50 | the slider sets the lux to its whole-number value and changes nothing else |
| Lighting.LightControl.ToggleRoof | frontend/src/Components/Controls/LightingControl.tsx:52 | the roof flag flips and nothing else changes, so two toggles restore it |
| Lighting.LightControl.Percent | frontend/src/Components/Controls/LightingControl.tsx:59 | the gauge shows a percentage in [0, 100] |
| SoilMoisture.NextMoisture | frontend/src/Components/Controls/SoilMoistureControl.tsx:18-19 | the new moisture lies in [0, 100], and is the old value plus the jitter when that sum is in range |
| SoilMoisture.MoistureStaysClose | frontend/src/Components/Controls/SoilMoistureControl.tsx:18-19 | with jitter in [-5, 5) an in-range moisture moves by at most 5 |
| SoilMoisture.StatusOf | frontend/src/Components/Controls/SoilMoistureControl.tsx:48-52 | the soil status; specified by `StatusBands`: Dry, Optimal and Wet each hold exactly on their moisture band |
| SoilMoisture.StatusBands | frontend/src/Components/Controls/SoilMoistureControl.tsx:48-52 | Dry iff moisture < 30; Wet iff moisture > 70; Optimal iff 30 <= moisture <= 70, both ends included |
| SoilMoisture.TickPlant | frontend/src/Components/Controls/SoilMoistureControl.tsx:33-41 | a plant keeps its id and name, and its moisture stays in [0, 100] |
| SoilMoisture.TickPlants | frontend/src/Components/Controls/SoilMoistureControl.tsx:32-42 | the tick keeps the number and order of plants and ticks each plant with its own jitter |
| SoilMoisture.TickKeepsPlants | frontend/src/Components/Controls/SoilMoistureControl.tsx:32-42 | each plant keeps its id and name and gets the new moisture; its history has length min(old + 1, 20), ends with the new reading and keeps the most recent earlier readings in order |
| SoilMoisture.SoilMonitor.constructor | frontend/src/Components/Controls/SoilMoistureControl.tsx:22-26 | three plants, Tomato 1 to 3, at 50, 60 and 40, with empty histories |
| SoilMoisture.SoilMonitor.Tick | frontend/src/Components/Controls/SoilMoistureControl.tsx:28-46 | the plant list becomes `TickPlants` of the old one, and every plant's moisture moves by at most 5 |
| WaterSupply.MethodsOldestFirst | frontend/src/Components/Controls/WaterSupplyControl.tsx:26 | the log read back oldest first has one method per entry |
| WaterSupply.StartDispense | frontend/src/Components/Controls/WaterSupplyControl.tsx:17-18 | the start of a dispense; specified by `StartRecordsRequest` |
| WaterSupply.StartRecordsRequest | frontend/src/Components/Controls/WaterSupplyControl.tsx:17-18 | starting a dispense adds exactly one request, with its method, and disables the manual button |
| WaterSupply.FinishDispense | frontend/src/Components/Controls/WaterSupplyControl.tsx:19-28 | the end of a dispense; specified by `FinishKeepsRequests` and `MethodsOldestFirst` |
| WaterSupply.FinishKeepsRequests | frontend/src/Components/Controls/WaterSupplyControl.tsx:19-28 | completing a dispense prepends exactly one entry, with the method of the oldest outstanding dispense; older entries stay unchanged and in order; no request is lost or invented; the manual button is enabled again |
| WaterSupply.Send | frontend/src/Components/Controls/WaterSupplyControl.tsx:52-58 | sending the target to the controller; specified by `SendArms` |
| WaterSupply.SendArms | frontend/src/Components/Controls/WaterSupplyControl.tsx:52-58 | sending with no target changes nothing; otherwise it arms exactly by setting `timeSent`; with the send button disabled it changes nothing |
| WaterSupply.EditTime | frontend/src/Components/Controls/WaterSupplyControl.tsx:86-89 | editing the target time; specified by `EditDisarms` |
| WaterSupply.EditDisarms | frontend/src/Components/Controls/WaterSupplyControl.tsx:86-89 | editing sets the target to the typed value, always disarms, and touches no request |
| WaterSupply.ClockString | frontend/src/Components/Controls/WaterSupplyControl.tsx:39-41 | the "HH:MM" clock text; specified by `ClockStringInjective`: one string per minute of the day |
| WaterSupply.ClockStringInjective | frontend/src/Components/Controls/WaterSupplyControl.tsx:39-41 | different times of day give different "HH:MM" strings, so a target matches at most one minute |
| WaterSupply.ClockTick | frontend/src/Components/Controls/WaterSupplyControl.tsx:33-46 | one poll of the clock; specified by `TickCases`, `SingleFire` and `SameMinuteIdempotent` |
| WaterSupply.TickCases | frontend/src/Components/Controls/WaterSupplyControl.tsx:33-46 | disarmed, or armed with a different clock, a poll changes nothing; armed with a matching clock it adds exactly one Scheduled request, clears the target and disarms |
| WaterSupply.SingleFire | frontend/src/Components/Controls/WaterSupplyControl.tsx:33-46 | any sequence of polls from a disarmed state changes nothing; from an armed state it either changes nothing or fires exactly one Scheduled dispense and ends disarmed |
| WaterSupply.SameMinuteIdempotent | frontend/src/Components/Controls/WaterSupplyControl.tsx:41-46 | a second poll at the same minute changes nothing |
| WaterSupply.ScheduleAtFourteenThirty | frontend/src/Components/Controls/WaterSupplyControl.tsx:17-58 | setting 14:30, sending it, polling at 14:30 and letting the timeout run logs one Scheduled entry and returns to idle |
| WaterSupply.WaterSupplyControl.constructor | frontend/src/Components/Controls/WaterSupplyControl.tsx:10-13 | an empty log, no target, not watering, not sent |
| WaterSupply.WaterSupplyControl.DispenseWater | frontend/src/Components/Controls/WaterSupplyControl.tsx:17-18 | the state becomes `StartDispense`: watering, with the method queued |
| WaterSupply.WaterSupplyControl.CompleteDispense | frontend/src/Components/Controls/WaterSupplyControl.tsx:19-28 | the state becomes `FinishDispense`: one entry prepended with the queued method, and watering cleared |
| WaterSupply.WaterSupplyControl.EditScheduledTime | frontend/src/Components/Controls/WaterSupplyControl.tsx:86-89 | the state becomes `EditTime`: target set, disarmed |
| WaterSupply.WaterSupplyControl.SendToController | frontend/src/Components/Controls/WaterSupplyControl.tsx:52-58 | the state becomes `Send`: armed iff a target is set |
| WaterSupply.WaterSupplyControl.PollClock | frontend/src/Components/Controls/WaterSupplyControl.tsx:37-47 | the state becomes `ClockTick` of the old state at the clock's minute |
| Alerts.Keep | frontend/src/Components/Dashboard/AlertsWidget.tsx:28 | filtering keeps exactly the elements that pass the test, and never lengthens the list |
| Alerts.KeepAppend | frontend/src/Components/Dashboard/AlertsWidget.tsx:28 | filtering distributes over concatenation, so it keeps the original order |
| Alerts.KeepAllPass | frontend/src/Components/Dashboard/AlertsWidget.tsx:28 | filtering a list whose elements all pass returns it unchanged |
| Alerts.KeepIdempotent | frontend/src/Components/Dashboard/AlertsWidget.tsx:28 | filtering twice by the same test is filtering once |
| Alerts.DismissRemovesExactly | frontend/src/Components/Dashboard/AlertsWidget.tsx:28 | dismissal removes exactly the alerts with that id, keeps every other alert in order, changes nothing when the id is absent, and is idempotent |
| Alerts.Shown | frontend/src/Components/Dashboard/AlertsWidget.tsx:99 | filter 'all' shows the whole list; a type filter shows exactly the alerts of that type |
| Alerts.CountsSum | frontend/src/Components/Dashboard/AlertsWidget.tsx:100-104 | the warning, info and success counts add up to the number of alerts |
| Alerts.PriorityIndicator | frontend/src/Components/Dashboard/AlertsWidget.tsx:66-77 | no dot exactly when the priority is undefined |
| Alerts.IndicatorsDistinct | frontend/src/Components/Dashboard/AlertsWidget.tsx:66-77 | high, medium and low each get their own dot |
| Alerts.TimeAgoVerbatim | frontend/src/Components/Dashboard/AlertsWidget.tsx:80-81 | a time mentioning "Today" or "Yesterday" is shown unchanged |
| Alerts.NotIncludesWithoutFirst | frontend/src/Components/Dashboard/AlertsWidget.tsx:80-81 | a string that lacks the first character of the substring does not include it |
| Alerts.TimeAgo | frontend/src/Components/Dashboard/AlertsWidget.tsx:79-97 | the alert's age label; specified by `TimeAgoVerbatim` and `TimeAgoOfClock` |
| Alerts.TimeAgoOfClock | frontend/src/Components/Dashboard/AlertsWidget.tsx:84-96 | for "hh:mm AM/PM" the label is "Nh ago", with N the current hour minus the 24-hour hour, when N is positive, and "Just now" otherwise |
| Alerts.AlertsWidget.constructor | frontend/src/Components/Dashboard/AlertsWidget.tsx:14-23 | exactly the five initial alerts (ids, messages, types, times and priorities as listed, none dismissed), filter 'all', nothing animating |
| Alerts.AlertsWidget.StartDismiss | frontend/src/Components/Dashboard/AlertsWidget.tsx:25-26 | the alert is marked as animating and the list is unchanged |
| Alerts.AlertsWidget.FinishDismiss | frontend/src/Components/Dashboard/AlertsWidget.tsx:27-30 | the list loses exactly the dismissed id, and nothing is animating |
| Alerts.AlertsWidget.SetFilter | frontend/src/Components/Dashboard/AlertsWidget.tsx:22 | only the filter changes |
| Alerts.AlertsWidget.Counts | frontend/src/Components/Dashboard/AlertsWidget.tsx:100-104 | the three counts add up to the number of alerts |
| RecentActivity.Classify | frontend/src/Components/Dashboard/RecentActivity.tsx:13-24 | first match wins, as an iff for each category: watering iff "Watered" or "water" occurs; sensor iff not that and "Temperature" or "sensor" occurs; manual iff neither of those and "Manual" occurs; scheduled iff none of those and "Scheduled" occurs; other iff no keyword occurs |
| RecentActivity.ActivityIcon | frontend/src/Components/Dashboard/RecentActivity.tsx:13-24 | the icon chain; specified by `IconAndColorFollowCategory`: it picks the icon of `Classify`'s category |
| RecentActivity.IconAndColorFollowCategory | frontend/src/Components/Dashboard/RecentActivity.tsx:13-37 | the icon chain and the colour chain pick the category `Classify` picks, and the icon identifies the category |
| RecentActivity.ActivityColor | frontend/src/Components/Dashboard/RecentActivity.tsx:26-37 | the colour chain; specified by `IconAndColorFollowCategory`: it picks the colour of `Classify`'s category |
| RecentActivity.FirstActivityIsWatering | frontend/src/Components/Dashboard/RecentActivity.tsx:65 | "Watered Tomato 2 (Scheduled)" mentions "Scheduled" but is classified as watering |
| RecentActivity.ManualWaterIsWatering | frontend/src/Components/Dashboard/RecentActivity.tsx:66 | "Manual water for Lettuce" mentions "Manual" but is classified as watering |
| RecentActivity.TruncRem | frontend/src/Components/Dashboard/RecentActivity.tsx:53 | JavaScript's `%` is smaller in magnitude than the divisor, takes the dividend's sign, and agrees with Euclidean `%` on non-negative dividends |
| RecentActivity.TruncRemOdd | frontend/src/Components/Dashboard/RecentActivity.tsx:53 | negating the dividend negates the remainder |
| RecentActivity.AgoLabelBands | frontend/src/Components/Dashboard/RecentActivity.tsx:51-61 | under a minute, and any negative difference, gives "Just now"; under an hour gives whole minutes "m ago"; otherwise whole hours "h ago" |
| RecentActivity.AgoLabel | frontend/src/Components/Dashboard/RecentActivity.tsx:51-61 | the label for a difference in milliseconds; specified by `AgoLabelBands` |
| RecentActivity.TimeAgoOfClock | frontend/src/Components/Dashboard/RecentActivity.tsx:39-62 | for "hh:mm AM/PM" the label is that of now minus the time of day in milliseconds |
| RecentActivity.AgoOfClock | frontend/src/Components/Dashboard/RecentActivity.tsx:45-61 | the label for a parsed reading; specified by `TimeAgoOfClock` and `TimeAgoUnreadable` |
| RecentActivity.TimeAgoUnreadable | frontend/src/Components/Dashboard/RecentActivity.tsx:43-49 | a text whose hour or minutes do not parse gives "Just now" |
| RecentActivity.TimeAgo | frontend/src/Components/Dashboard/RecentActivity.tsx:39-62 | the activity's age label; specified by `TimeAgoOfClock` and `TimeAgoUnreadable` |
| Weather.DescriptionFollowsTable | frontend/src/Components/Dashboard/WeatherWidget.tsx:69-83 | each known code gets its WMO description, and "Unknown" is given exactly to the other codes |
| Weather.Description | frontend/src/Components/Dashboard/WeatherWidget.tsx:69-83 | the WMO code description; specified by `DescriptionFollowsTable` |
| Weather.IconTitleAgreesWithDescription | frontend/src/Components/Dashboard/WeatherWidget.tsx:34-66 | the icon title equals the description except for codes 1 and 3, which are titled "Partly cloudy"; the title is "Unknown" exactly for unknown codes |
| Weather.CodeToIcon | frontend/src/Components/Dashboard/WeatherWidget.tsx:31-66 | the weather icon; specified by `IconTitleAgreesWithDescription` and `PictureByTitle` |
| Weather.PictureByTitle | frontend/src/Components/Dashboard/WeatherWidget.tsx:34-66 | among known codes, two get the same glyph and colour iff they have the same title, or are drizzle and rain showers |
| Weather.Next24Hours | frontend/src/Components/Dashboard/WeatherWidget.tsx:155-161 | min(24, number of hourly times) entries, entry i built from index i |
| Weather.HoursMarkNowAndCode | frontend/src/Components/Dashboard/WeatherWidget.tsx:155-161 | only the first hour is marked now; without a code array every hour has code 0; otherwise each hour has the code at its index; a temperature is present iff the array reaches that index |
| Weather.Next7Days | frontend/src/Components/Dashboard/WeatherWidget.tsx:164-171 | min(7, number of daily times) entries, entry i built from index i |
| Weather.DaysMarkToday | frontend/src/Components/Dashboard/WeatherWidget.tsx:164-171 | only the first day is marked today, and each day takes its code from its own index |
| Validators.EmailRule | frontend/src/Components/Forms/LoginForm.tsx:29 | the check "one '@', something before it, no whitespace, a dot strictly inside the domain" accepts exactly the strings the e-mail pattern matches |
| Validators.IsValidEmail | frontend/src/Components/Forms/LoginForm.tsx:29 | the plain e-mail check; specified by `EmailRule`: it accepts exactly the matches of the pattern |
| Validators.ValidEmailMatches | frontend/src/Components/Forms/LoginForm.tsx:29 | every string the check accepts matches the pattern |
| Validators.MatchIsValidEmail | frontend/src/Components/Forms/LoginForm.tsx:29 | every match of the pattern passes the check |
| Validators.IsValidPassword | frontend/src/Components/Forms/LoginForm.tsx:30 | the plain password check; specified by `PasswordRule`: it accepts exactly the matches of the pattern |
| Validators.HasIff | frontend/src/Components/Forms/LoginForm.tsx:30 | the scan finds a character of a class iff one occurs |
| Validators.PasswordCharNotLineTerminator | frontend/src/Components/Forms/LoginForm.tsx:30 | no allowed password character ends a line |
| Validators.LookaheadOverAllowed | frontend/src/Components/Forms/LoginForm.tsx:30 | over allowed characters, each lookahead holds iff the class occurs somewhere |
| Validators.PasswordRule | frontend/src/Components/Forms/LoginForm.tsx:30 | the check "length at least 8, only allowed characters, one each of lower, upper, digit and symbol" accepts exactly the strings the password pattern matches |
| Validators.IsValidUsername | frontend/src/Components/Forms/RegisterForm.tsx:35 | 3 to 15 ASCII letters and digits; specified through `RegisterForm.ErrorsFor`, whose user-name error is empty exactly when it holds |
| LoginForm.Set | frontend/src/Components/Forms/LoginForm.tsx:45-48 | updating a field changes that field and no other |
| LoginForm.ErrorsFor | frontend/src/Components/Forms/LoginForm.tsx:27-40 | each field's error is non-empty exactly when its value fails its pattern, and is then that field's message |
| LoginForm.ValidExactly | frontend/src/Components/Forms/LoginForm.tsx:41-42 | no errors iff the e-mail and the password both match their patterns |
| LoginForm.ErrorsAreFieldwise | frontend/src/Components/Forms/LoginForm.tsx:27-43 | changing one field's value never changes the other field's error |
| LoginForm.LoginForm.constructor | frontend/src/Components/Forms/LoginForm.tsx:6-7 | empty values, no errors, no navigation |
| LoginForm.LoginForm.Validate | frontend/src/Components/Forms/LoginForm.tsx:27-43 | the errors become `ErrorsFor` of the values, and the result is true iff both fields match |
| LoginForm.LoginForm.HandleChange | frontend/src/Components/Forms/LoginForm.tsx:45-48 | only the edited field's value changes, and only its error is cleared |
| LoginForm.LoginForm.HandleSubmit | frontend/src/Components/Forms/LoginForm.tsx:50-57 | navigates to /dashboard, once, iff both fields match |
| RegisterForm.Set | frontend/src/Components/Forms/RegisterForm.tsx:57-60 | updating a field changes that field and no other |
| RegisterForm.ErrorsFor | frontend/src/Components/Forms/RegisterForm.tsx:33-52 | each field's error is non-empty exactly when its value fails its pattern, and is then that field's message |
| RegisterForm.ValidExactly | frontend/src/Components/Forms/RegisterForm.tsx:53-54 | no errors iff user name, e-mail and password all match |
| RegisterForm.RegistrationForm.constructor | frontend/src/Components/Forms/RegisterForm.tsx:4-14 | empty values, no errors, nothing submitted |
| RegisterForm.RegistrationForm.Validate | frontend/src/Components/Forms/RegisterForm.tsx:33-55 | the errors become `ErrorsFor` of the values, and the result is true iff all three fields match |
| RegisterForm.RegistrationForm.HandleChange | frontend/src/Components/Forms/RegisterForm.tsx:57-60 | only the edited field's value changes, and only its error is cleared |
| RegisterForm.RegistrationForm.HandleSubmit | frontend/src/Components/Forms/RegisterForm.tsx:62-67 | accepts, and records the data once, iff all three fields match |

## Left out

- Rendering: JSX, Tailwind classes and the light gauge's SVG geometry, which uses `Math.PI`. These are presentation, not logic. `getAlertConfig` is styling only, and the icon choice in the activity feed is modelled as a glyph without its classes.
- Timers: the intervals and timeouts (500 ms tick and dispense delay, 300 ms dismissal, 1 s clocks, 8 s soil tick) and the re-creation of intervals when their dependencies change. Each callback is one atomic method call.
- Alerts.AlertsWidget.FinishDismiss: filters the current list. The source's timeout closes over the list as it was at the click, so two dismissals within 300 ms can bring back the first one. That is a timing artefact and is not modelled.
- Randomness: `Math.random` is replaced by the `variation` parameters, whose bounds are preconditions.
- Dates and locale formatting: `Date`, `toLocaleTimeString`, `toLocaleDateString` and `toTimeString`. The current time is a parameter. The log's date and time strings are parameters. In the weather rows, the hour and day name derived from a time stamp are left out, and the row keeps the raw time stamp.
- RecentActivity.TimeAgo: assumes the activity time and now fall on the same local day, without a daylight-saving shift in between, since `setHours` is applied to a copy of now.
- SoilMoisture.TickPlant: stores the raw moisture in the history. The source stores it rounded to one decimal through `toFixed(1)`, which sits on floating-point formatting.
- Floating point: readings, percentages and temperatures are exact reals, not IEEE doubles. `Math.round` is exact on them.
- JsText.ParseInt: digits are read exactly. It does not model the precision loss of very long digit strings.
- The forecast `fetch` from Open-Meteo, with its loading and error states, is I/O. The forecast data enters as the `HourlyData` and `DailyData` values.
- Side effects: `console.log` (the login and registration payloads, the message to the ESP32 controller) and the router's `navigate` are not modelled. The login form records only the route it navigates to, and the registration form records the submitted data.
- Characters outside the Basic Multilingual Plane: JavaScript stores them as two UTF-16 code units (a surrogate pair), a Dafny `char` as one. Offsets and `split` pieces inside such text are not modelled unit for unit.
- Components without logic: Header (dropdown flags and a click-outside listener), UserProfileForm (a field update and a log line), LandingPage, Footer, App, DashboardGrid and the Tailwind configuration.

# Weather station, file-system composite, generics and configuration: a Dafny model

This project models the core of a set of Java teaching demos:

- **Observer pattern.** A `WeatherStation` is an `AbstractSubject`. It keeps an ordered, duplicate-free list of observers. It notifies them with string events (`TEMPERATURE_CHANGED`, `HUMIDITY_CHANGED`, `PRESSURE_CHANGED`, `WEATHER_CHANGED`, `MEASUREMENTS_CHANGED`, `EXTREME_WEATHER`) and a data object.
  - The three displays keep their own state:
    - `WeatherDisplay` keeps the last snapshot and a comfort level.
    - `StatisticsDisplay` keeps histories, running minima and maxima, averages, a trend and a summary.
    - `ForecastDisplay` keeps the last two pressures, a forecast text, a pressure trend and a confidence level.
  - `setMeasurements` sends its notifications in a fixed order:
    - a weather-condition change, if the condition label changed;
    - the per-quantity changes, each only past its threshold;
    - the full snapshot;
    - an extreme-weather alert, if the reading is extreme.
  - An observer whose `isInterestedIn` or `update` throws is reported to `onObserverError`, and the loop goes on.
- **Composite pattern.** `File` and `Directory` are `FileSystemComponent`s.
  - A directory's size is the sum of its children's sizes.
  - `find` is a pre-order search.
  - `getFileCount` counts by extension, ignoring case.
  - `DirectoryStats` walks the tree once and counts files, directories, bytes and depth.
- **Generics.**
  - `GenericStack` is an array-backed stack that grows to `2 * size + 1`.
  - `GenericMethods` has `union`, `max` (the first maximal element), `sort` and a self-typed builder.
  - `WildcardExamples` has `sum`, `addNumbers`, `numElementsInCommon`, `swap` and `reverse`.
  - `TypeErasureDemo` has `asList`, `toArray`, `flatten` and a type-safe heterogeneous container.
- **Configuration.** `ConfigurationService` reports and validates `AppProperties`, which has application, server, database and cache sections with their defaults.

How Java becomes Dafny here:

- Classes whose fields change in place become Dafny classes. Their methods are proved against pure step functions:
  - `WeatherDisplays.Receive`, `StatisticsDisplays.UpdateStatistics` and `ForecastDisplays.Receive` for the displays;
  - `Stations.Emissions` and `Stations.Replay` for the station;
  - `Observers.Broadcast` and `Observers.RemoveFirst` for the subject;
  - `FileSystem.Size`, `Search`, `FileCount` and `Height` for the composite;
  - `GenericStack.Contents` for the stack.
- Observers are a closed datatype over the display objects and a `Recorder`. The `Recorder` stands for the anonymous observers the tests write: it can narrow or throw from `isInterestedIn`, and it can throw from `update`.
- A notification pass produces a trace of `Notice`s: `Notified(o)`, or `ErrorHook(o, e)` for a call of `onObserverError`.
- Exceptions are modelled with `Result`/`Outcome` values.
- Some nulls become `Option`s: the fields that `validateConfiguration` checks for null (name, host, url and type), the other string fields of `AppProperties`, the content passed to a file, the weather display's snapshot before the first update, and `find`'s miss. The other nulls are not modelled; "## Left out" lists them.
- Functions that only compute a value carry no contract of their own. The lemma beside each one states what it means:
  - `FileSystem.Size`: `SizeIsFileBytes` and `SizeOf`;
  - `Search`: `FindIsFirstInPreorder`;
  - `FileCount`: `FileCountIsMatchingFiles`;
  - `Extension`: `ExtensionShape`;
  - `TypeName`: `FileTypeRecoversExtension`;
  - `Stations.ConditionLabel`: `ConditionLabelRegions`;
  - `Stations.IsExtreme`: `ExtremeIffAlertHasPhrase`;
  - `Configuration.AppValid`, `ServerValid`, `DatabaseValid` and `CacheValid`: `SectionFlagsMean`;
  - `Text.ToLower` and `ToUpper`: `ToLowerChars` and `ToUpperChars`;
  - `Text.Trim`: `TrimShape` and `BlankIffAllTrimmed`;
  - `Text.EqualsIgnoreCase`: `EqualsIgnoreCaseChars`.
- Java `float`s are `real`s.

## Model

| member | source | states |
|---|---|---|
| Events.Name | demo1/src/main/java/org/example/demo1/designpatterns/observer/WeatherStation.java:19-24 | Each of the six constants is its own EVENT_* string, and every other event is a string that is none of the six. |
| Events.EventOf | demo1/src/main/java/org/example/demo1/designpatterns/observer/WeatherStation.java:19-24 | Every event string denotes exactly one event, whose string is the one given. |
| Events.NameInjective | demo1/src/main/java/org/example/demo1/designpatterns/observer/StatisticsDisplay.java:47-50 | Two events are equal iff their strings are, so comparing events is the String.equals the observers use. |
| Events.AsWeatherData | demo1/src/main/java/org/example/demo1/designpatterns/observer/WeatherDisplay.java:33-34 | `data instanceof WeatherData` holds for exactly the snapshot and extreme payloads; an extreme payload yields the snapshot it extends. |
| Events.AlertPhrasesShape | demo1/src/main/java/org/example/demo1/designpatterns/observer/WeatherStation.java:209-218 | The alert adds at most five phrases, none of them empty, and none at all exactly when no extreme predicate trips. |
| Events.AlertStartsWithHeader | demo1/src/main/java/org/example/demo1/designpatterns/observer/WeatherStation.java:210 | Every alert text starts with "EXTREME WEATHER ALERT: ". |
| Events.GenerateAlertMessage | demo1/src/main/java/org/example/demo1/designpatterns/observer/WeatherStation.java:209-218 | The StringBuilder steps produce the header followed by the phrase of each tripped predicate, in declaration order. |
| Events.AlertForHeatAndLowPressure | demo1/src/main/java/org/example/demo1/designpatterns/observer/WeatherStation.java:212-215 | A reading above 40 degrees at pressure below 980 and humidity at most 95 gets exactly "Extreme Heat! " then "Very Low Pressure! ". |
| Observers.Recorder.constructor | demo1/src/test/java/org/example/demo1/designpatterns/observer/ObserverTest.java:118-134 | A test observer starts with no recorded events and keeps its interest and its update failure. |
| Observers.Recorder.Update | demo1/src/test/java/org/example/demo1/designpatterns/observer/ObserverTest.java:167-177 | A throwing observer fails with its exception and records nothing; any other observer appends the event. |
| Observers.InterestIn | demo1/src/main/java/org/example/demo1/designpatterns/observer/Observer.java:34-36 | The weather display takes Observer's default (every event); the statistics display takes only MEASUREMENTS_CHANGED; the forecast display takes MEASUREMENTS_CHANGED, PRESSURE_CHANGED and EXTREME_WEATHER. |
| StatisticsDisplays.IsInterestedIn | demo1/src/main/java/org/example/demo1/designpatterns/observer/StatisticsDisplay.java:47-50 | True iff the event string is "MEASUREMENTS_CHANGED". |
| ForecastDisplays.IsInterestedIn | demo1/src/main/java/org/example/demo1/designpatterns/observer/ForecastDisplay.java:22-29 | True iff the event string is one of the three the constructor puts in interestedEvents: MEASUREMENTS_CHANGED, PRESSURE_CHANGED and EXTREME_WEATHER. |
| WeatherDisplays.WeatherDisplay.IsInterestedIn | demo1/src/main/java/org/example/demo1/designpatterns/observer/Observer.java:34-36 | The weather display keeps the default, so it is interested in every event. |
| Observers.UpdateOutcome | demo1/src/main/java/org/example/demo1/designpatterns/observer/WeatherDisplay.java:23-68 | Updates of the weather and statistics displays never throw. |
| Observers.Update | demo1/src/main/java/org/example/demo1/designpatterns/observer/AbstractSubject.java:88 | Calling update on an observer throws exactly what UpdateOutcome says, and moves its state on only when it does not throw. |
| Observers.Delivery | demo1/src/main/java/org/example/demo1/designpatterns/observer/AbstractSubject.java:86-94 | One pass of the loop leaves at most one notice. |
| Observers.Deliver | demo1/src/main/java/org/example/demo1/designpatterns/observer/AbstractSubject.java:86-94 | The try/catch of one pass: isInterestedIn throwing gives an onObserverError; if not interested, nothing happens; otherwise update runs and its exception, if any, goes to onObserverError. The observer's new state is the delivered state. |
| Observers.BroadcastAppend | demo1/src/main/java/org/example/demo1/designpatterns/observer/AbstractSubject.java:85-95 | Notifying a list of observers made of two parts gives the first part's notices followed by the second part's. |
| Observers.BroadcastNotices | demo1/src/main/java/org/example/demo1/designpatterns/observer/AbstractSubject.java:85-95 | An observer's update completes iff it is registered, interested and does not throw. onObserverError is called for it iff it is registered and either isInterestedIn throws, or it is interested and update throws. |
| Observers.RemoveFirst | demo1/src/main/java/org/example/demo1/designpatterns/observer/AbstractSubject.java:56 | List.remove drops one occurrence: the list is unchanged when the observer is absent, and otherwise one shorter, with the same multiset less that observer. |
| Observers.RemoveFirstNoDuplicates | demo1/src/main/java/org/example/demo1/designpatterns/observer/AbstractSubject.java:56 | On a duplicate-free list, removal keeps it duplicate-free and leaves the observer absent. |
| Observers.CountAtMostOne | demo1/src/main/java/org/example/demo1/designpatterns/observer/AbstractSubject.java:32-37 | On a list that registerObserver keeps duplicate-free, each observer occurs at most once. |
| Observers.TargetCount | demo1/src/main/java/org/example/demo1/designpatterns/observer/AbstractSubject.java:102-109 | On a duplicate-free list, the number of entries is the number of distinct observer objects. |
| Observers.AbstractSubject.constructor | demo1/src/main/java/org/example/demo1/designpatterns/observer/AbstractSubject.java:16 | A subject starts with no observers. |
| Observers.AbstractSubject.RegisterObserver | demo1/src/main/java/org/example/demo1/designpatterns/observer/AbstractSubject.java:24-46 | Registering null throws IllegalArgumentException "Observer cannot be null". Otherwise the result is true iff the observer was not yet registered, and it is then appended. The list stays duplicate-free. |
| Observers.AbstractSubject.RemoveObserver | demo1/src/main/java/org/example/demo1/designpatterns/observer/AbstractSubject.java:49-67 | The result is true iff the argument is non-null and registered. Null leaves the list alone; any other argument is removed, and is absent afterwards. |
| Observers.AbstractSubject.NotifyObservers | demo1/src/main/java/org/example/demo1/designpatterns/observer/AbstractSubject.java:70-99 | A null event throws IllegalArgumentException "Event cannot be null". Otherwise the notices are those of Broadcast, in registration order, and every registered observer ends in its delivered state. |
| Observers.AbstractSubject.GetObserverCount | demo1/src/main/java/org/example/demo1/designpatterns/observer/AbstractSubject.java:102-109 | The size of the list, which on a valid subject is the number of distinct registered observers. |
| Observers.AbstractSubject.HasObservers | demo1/src/main/java/org/example/demo1/designpatterns/observer/Subject.java:47-49 | True iff the list is not empty. |
| Observers.AbstractSubject.GetObservers | demo1/src/main/java/org/example/demo1/designpatterns/observer/AbstractSubject.java:116-123 | The registered observers in registration order, as a copy no caller can change. |
| Observers.AbstractSubject.ClearObservers | demo1/src/main/java/org/example/demo1/designpatterns/observer/AbstractSubject.java:128-137 | No observers remain and hasObservers is false. |
| WeatherDisplays.BandsNest | demo1/src/main/java/org/example/demo1/designpatterns/observer/WeatherDisplay.java:102-121 | Each comfort band lies inside the next, wider one. |
| WeatherDisplays.ComfortOf | demo1/src/main/java/org/example/demo1/designpatterns/observer/WeatherDisplay.java:102-121 | The comfort level is the narrowest band the temperature and humidity fall in, and is never Unknown; each level holds iff the reading is in its band and not in the narrower one. |
| WeatherDisplays.ComfortLevel | demo1/src/main/java/org/example/demo1/designpatterns/observer/WeatherDisplay.java:102-121 | Unknown iff no snapshot has arrived; otherwise the comfort of the snapshot. |
| WeatherDisplays.Receive | demo1/src/main/java/org/example/demo1/designpatterns/observer/WeatherDisplay.java:23-68 | Only MEASUREMENTS_CHANGED with a WeatherData payload replaces the snapshot, and then with that payload; every other event leaves it. |
| WeatherDisplays.SnapshotIsNeverLost | demo1/src/main/java/org/example/demo1/designpatterns/observer/WeatherDisplay.java:32-37 | Once a snapshot is held, no sequence of notifications clears it. |
| WeatherDisplays.WeatherDisplay.constructor | demo1/src/main/java/org/example/demo1/designpatterns/observer/WeatherDisplay.java:18-20 | A new display holds no snapshot. |
| WeatherDisplays.WeatherDisplay.Update | demo1/src/main/java/org/example/demo1/designpatterns/observer/WeatherDisplay.java:23-68 | The held snapshot becomes Receive of the old one. |
| WeatherDisplays.WeatherDisplay.GetComfortLevel | demo1/src/main/java/org/example/demo1/designpatterns/observer/WeatherDisplay.java:102-121 | The comfort level of the held snapshot. |
| WeatherDisplays.WeatherDisplay.GetCurrentWeatherData | demo1/src/main/java/org/example/demo1/designpatterns/observer/WeatherDisplay.java:131-133 | The last snapshot received, or null before any. |
| StatisticsDisplays.MaxFromBounds | demo1/src/main/java/org/example/demo1/designpatterns/observer/StatisticsDisplay.java:64-66 | The running maximum is at least the starting value and every reading, and is either the starting value or a reading. |
| StatisticsDisplays.MinFromBounds | demo1/src/main/java/org/example/demo1/designpatterns/observer/StatisticsDisplay.java:67-69 | The running minimum is at most the starting value and every reading, and is either the starting value or a reading. |
| StatisticsDisplays.MaxStaysAtSentinel | demo1/src/main/java/org/example/demo1/designpatterns/observer/StatisticsDisplay.java:19 | The maximum starts at Float.MIN_VALUE, the smallest positive float. So a history of readings all at or below zero reports that sentinel as its maximum, and the sentinel is none of the readings. |
| StatisticsDisplays.Record | demo1/src/main/java/org/example/demo1/designpatterns/observer/StatisticsDisplay.java:63-69 | Recording appends the reading to the history and keeps max and min equal to the running extremes of the history. |
| StatisticsDisplays.SeriesRangeEnclosesHistory | demo1/src/main/java/org/example/demo1/designpatterns/observer/StatisticsDisplay.java:63-87 | Every recorded reading lies between the tracked minimum and maximum. |
| StatisticsDisplays.AverageWithinRange | demo1/src/main/java/org/example/demo1/designpatterns/observer/StatisticsDisplay.java:185-190 | With readings, the average lies between the tracked minimum and maximum. |
| StatisticsDisplays.Average | demo1/src/main/java/org/example/demo1/designpatterns/observer/StatisticsDisplay.java:185-210 | 0 for an empty history; otherwise the value whose product with the count is the sum of the history. |
| StatisticsDisplays.UpdateStatistics | demo1/src/main/java/org/example/demo1/designpatterns/observer/StatisticsDisplay.java:55-88 | The count goes up by one, each history gains the snapshot's value, and the tracking invariant is kept. |
| StatisticsDisplays.Receive | demo1/src/main/java/org/example/demo1/designpatterns/observer/StatisticsDisplay.java:33-44 | Only MEASUREMENTS_CHANGED with a WeatherData payload updates the statistics, with that snapshot; the invariant is kept. |
| StatisticsDisplays.PreviousCount | demo1/src/main/java/org/example/demo1/designpatterns/observer/StatisticsDisplay.java:149-162 | The recent window and the window before it fit in the data together. |
| StatisticsDisplays.TrendOf | demo1/src/main/java/org/example/demo1/designpatterns/observer/StatisticsDisplay.java:144-180 | "Insufficient data" iff fewer than two points; with two to five points always stable. A rising answer means the difference is at least 0.1; a falling one means it is at most -0.1. |
| StatisticsDisplays.TrendOfConstant | demo1/src/main/java/org/example/demo1/designpatterns/observer/StatisticsDisplay.java:144-180 | A constant series never trends up or down. |
| StatisticsDisplays.AverageOfConstant | demo1/src/main/java/org/example/demo1/designpatterns/observer/StatisticsDisplay.java:185-190 | The average of a non-empty constant series is that constant. |
| StatisticsDisplays.GetTrend | demo1/src/main/java/org/example/demo1/designpatterns/observer/StatisticsDisplay.java:144-180 | The two summing loops over the windows compute TrendOf. |
| StatisticsDisplays.SummaryOf | demo1/src/main/java/org/example/demo1/designpatterns/observer/StatisticsDisplay.java:240-248 | "No data collected" iff there were no updates; otherwise the count and the min/max range of each quantity. |
| StatisticsDisplays.SummaryEnclosesReadings | demo1/src/main/java/org/example/demo1/designpatterns/observer/StatisticsDisplay.java:240-248 | With readings, each reported range encloses every reading of its quantity. |
| StatisticsDisplays.StatisticsDisplay.constructor | demo1/src/main/java/org/example/demo1/designpatterns/observer/StatisticsDisplay.java:15-30 | Empty histories, maxima at Float.MIN_VALUE, minima at Float.MAX_VALUE and no updates. |
| StatisticsDisplays.StatisticsDisplay.Update | demo1/src/main/java/org/example/demo1/designpatterns/observer/StatisticsDisplay.java:33-44 | The fields become Receive of their old values. |
| StatisticsDisplays.StatisticsDisplay.UpdateStatisticsInPlace | demo1/src/main/java/org/example/demo1/designpatterns/observer/StatisticsDisplay.java:55-88 | The fields become UpdateStatistics of their old values. |
| StatisticsDisplays.StatisticsDisplay.RecordTemperature | demo1/src/main/java/org/example/demo1/designpatterns/observer/StatisticsDisplay.java:63-69 | The temperature history and extremes become Record of the old ones; nothing else changes. |
| StatisticsDisplays.StatisticsDisplay.RecordHumidity | demo1/src/main/java/org/example/demo1/designpatterns/observer/StatisticsDisplay.java:72-78 | The humidity history and extremes become Record of the old ones; nothing else changes. |
| StatisticsDisplays.StatisticsDisplay.RecordPressure | demo1/src/main/java/org/example/demo1/designpatterns/observer/StatisticsDisplay.java:81-87 | The pressure history and extremes become Record of the old ones; nothing else changes. |
| StatisticsDisplays.StatisticsDisplay.ResetStatistics | demo1/src/main/java/org/example/demo1/designpatterns/observer/StatisticsDisplay.java:220-235 | Back to the initial state. |
| StatisticsDisplays.StatisticsDisplay.GetAverageTemperature | demo1/src/main/java/org/example/demo1/designpatterns/observer/StatisticsDisplay.java:185-190 | 0 with no readings; otherwise between the tracked minimum and maximum temperature. |
| StatisticsDisplays.StatisticsDisplay.GetAverageHumidity | demo1/src/main/java/org/example/demo1/designpatterns/observer/StatisticsDisplay.java:195-200 | 0 with no readings; otherwise between the tracked minimum and maximum humidity. |
| StatisticsDisplays.StatisticsDisplay.GetAveragePressure | demo1/src/main/java/org/example/demo1/designpatterns/observer/StatisticsDisplay.java:205-210 | 0 with no readings; otherwise between the tracked minimum and maximum pressure. |
| StatisticsDisplays.StatisticsDisplay.GetStatisticsSummary | demo1/src/main/java/org/example/demo1/designpatterns/observer/StatisticsDisplay.java:240-248 | The summary of the statistics held now, whose meaning SummaryOf and SummaryEnclosesReadings state. |
| ForecastDisplays.GenerateForecast | demo1/src/main/java/org/example/demo1/designpatterns/observer/ForecastDisplay.java:99-142 | The forecast is the text of the rule RuleOf picks, followed by the fixed horizon suffix. |
| ForecastDisplays.ForecastFollowsPressure | demo1/src/main/java/org/example/demo1/designpatterns/observer/ForecastDisplay.java:109-117 | A rise of more than 2 hPa forecasts "Improving weather ahead - …"; a fall of more than 2 hPa forecasts "Deteriorating weather - …". |
| ForecastDisplays.RuleOf | demo1/src/main/java/org/example/demo1/designpatterns/observer/ForecastDisplay.java:108-135 | Each of the nine forecast rules fires exactly on its own region: the pressure change beyond ±2 first, split by the current pressure; otherwise the first of the four condition rules that holds, or "more of the same". |
| ForecastDisplays.RuleTextInjective | demo1/src/main/java/org/example/demo1/designpatterns/observer/ForecastDisplay.java:108-135 | No two rules write the same text. |
| ForecastDisplays.ForecastBodyRegions | demo1/src/main/java/org/example/demo1/designpatterns/observer/ForecastDisplay.java:108-135 | A forecast text is produced iff the conditions of its rule hold. |
| ForecastDisplays.PressureTrendOf | demo1/src/main/java/org/example/demo1/designpatterns/observer/ForecastDisplay.java:183-195 | The five trend labels split the possible changes into five bands, each holding iff the change lies in its band: above 2, (0.5, 2], [-0.5, 0.5], [-2, -0.5) and below -2. |
| ForecastDisplays.ConfidenceOf | demo1/src/main/java/org/example/demo1/designpatterns/observer/ForecastDisplay.java:200-212 | The four confidence levels hold iff \|change\| is above 5, in (2, 5], in (0.5, 2], or at most 0.5. |
| ForecastDisplays.ConfidenceMonotone | demo1/src/main/java/org/example/demo1/designpatterns/observer/ForecastDisplay.java:200-212 | A larger absolute change never gives lower confidence. |
| ForecastDisplays.ConfidenceSymmetric | demo1/src/main/java/org/example/demo1/designpatterns/observer/ForecastDisplay.java:200-212 | A rise and a fall of the same size give the same confidence. |
| ForecastDisplays.UpdateForecast | demo1/src/main/java/org/example/demo1/designpatterns/observer/ForecastDisplay.java:70-75 | The current pressure becomes the last one and the snapshot's pressure the current one; the forecast is generated from those two pressures. |
| ForecastDisplays.UpdatePressureForecast | demo1/src/main/java/org/example/demo1/designpatterns/observer/ForecastDisplay.java:80-94 | The pressures shift the same way. A change above 2 or below -2 sets the improving or deteriorating text, one below 0.5 in size sets "stable", and one between 0.5 and 2 keeps the old forecast. |
| ForecastDisplays.UpdateError | demo1/src/main/java/org/example/demo1/designpatterns/observer/ForecastDisplay.java:44-47 | update throws iff the event is PRESSURE_CHANGED and the data is not a Float: NullPointerException for null, ClassCastException otherwise. |
| ForecastDisplays.Receive | demo1/src/main/java/org/example/demo1/designpatterns/observer/ForecastDisplay.java:32-60 | Fails iff UpdateError does. PRESSURE_CHANGED with a number runs updatePressureForecast; MEASUREMENTS_CHANGED with a snapshot runs updateForecast; everything else leaves the state. |
| ForecastDisplays.PressureEventThenMeasurements | demo1/src/main/java/org/example/demo1/designpatterns/observer/ForecastDisplay.java:37-47 | PRESSURE_CHANGED followed by MEASUREMENTS_CHANGED for the same pressure leaves a pressure change of exactly 0. |
| ForecastDisplays.ForecastDisplay.constructor | demo1/src/main/java/org/example/demo1/designpatterns/observer/ForecastDisplay.java:22-29 | The initial pressures and forecast text. |
| ForecastDisplays.ForecastDisplay.Update | demo1/src/main/java/org/example/demo1/designpatterns/observer/ForecastDisplay.java:32-60 | On success the fields become Receive of the old ones; on failure the exception is returned and nothing changes. |
| ForecastDisplays.ForecastDisplay.UpdatePressureForecastInPlace | demo1/src/main/java/org/example/demo1/designpatterns/observer/ForecastDisplay.java:80-94 | The fields become UpdatePressureForecast of the old ones. |
| ForecastDisplays.ForecastDisplay.GetCurrentForecast | demo1/src/main/java/org/example/demo1/designpatterns/observer/ForecastDisplay.java:222-224 | The forecast text held now. |
| ForecastDisplays.ForecastDisplay.GetPressureChange | demo1/src/main/java/org/example/demo1/designpatterns/observer/ForecastDisplay.java:229-231 | The current pressure minus the last one. |
| Stations.ConditionLabelRegions | demo1/src/main/java/org/example/demo1/designpatterns/observer/WeatherStation.java:86-106 | Each of the seven labels holds on exactly its own region of readings; the regions cover all readings and do not overlap. |
| Stations.ExtremeIffAlertHasPhrase | demo1/src/main/java/org/example/demo1/designpatterns/observer/WeatherStation.java:111-120 | A reading is extreme iff its alert text carries at least one phrase after the header. |
| Stations.ConditionPart | demo1/src/main/java/org/example/demo1/designpatterns/observer/WeatherStation.java:76-81 | WEATHER_CHANGED with the new label is sent iff the label differs from the stored one. |
| Stations.FieldPart | demo1/src/main/java/org/example/demo1/designpatterns/observer/WeatherStation.java:54-62 | A per-quantity change is sent, with the new value, iff its flag is set. |
| Stations.ExtremePart | demo1/src/main/java/org/example/demo1/designpatterns/observer/WeatherStation.java:111-120 | EXTREME_WEATHER with a new ExtremeWeatherData is sent iff the reading is extreme. |
| Stations.IndexOf | demo1/src/main/java/org/example/demo1/designpatterns/observer/WeatherStation.java:41-69 | The first position of an event among the notifications, and no earlier one. |
| Stations.ChangesShape | demo1/src/main/java/org/example/demo1/designpatterns/observer/WeatherStation.java:51-62 | The changes are at most four notifications, none of them MEASUREMENTS_CHANGED or EXTREME_WEATHER. |
| Stations.NotificationsMeasurements | demo1/src/main/java/org/example/demo1/designpatterns/observer/WeatherStation.java:65-68 | Exactly one MEASUREMENTS_CHANGED is sent, right after the changes, with the new snapshot. EXTREME_WEATHER is sent iff the reading is extreme, and then last with the alert. |
| Stations.NotificationsCondition | demo1/src/main/java/org/example/demo1/designpatterns/observer/WeatherStation.java:86-106 | WEATHER_CHANGED is sent iff the label changed, and then first. |
| Stations.TemperatureEvents | demo1/src/main/java/org/example/demo1/designpatterns/observer/WeatherStation.java:42 | TEMPERATURE_CHANGED is sent iff the temperature moved by more than 0.1, carries the new value, and comes before the snapshot. |
| Stations.HumidityEvents | demo1/src/main/java/org/example/demo1/designpatterns/observer/WeatherStation.java:43 | HUMIDITY_CHANGED is sent iff the humidity moved by more than 1.0, carries the new value, and comes before the snapshot. |
| Stations.PressureEvents | demo1/src/main/java/org/example/demo1/designpatterns/observer/WeatherStation.java:44 | PRESSURE_CHANGED is sent iff the pressure moved by more than 1.0, carries the new value, and comes before the snapshot. |
| Stations.ReplaySnoc | demo1/src/main/java/org/example/demo1/designpatterns/observer/AbstractSubject.java:85-95 | Replaying one more notification is delivering it to the replayed state. |
| Stations.ReplayAppend | demo1/src/main/java/org/example/demo1/designpatterns/observer/AbstractSubject.java:85-95 | Replaying two runs of notifications is replaying the second from the state the first leaves. |
| Stations.BroadcastAllSnoc | demo1/src/main/java/org/example/demo1/designpatterns/observer/AbstractSubject.java:70-99 | One more notifyObservers call adds its Broadcast notices at the end. |
| Stations.BroadcastAllAppend | demo1/src/main/java/org/example/demo1/designpatterns/observer/AbstractSubject.java:70-99 | The notices of two runs of calls are the first run's notices followed by the second run's. |
| Stations.WeatherStation.constructor | demo1/src/main/java/org/example/demo1/designpatterns/observer/WeatherStation.java:26-32 | A new station holds 0 degrees, 0% humidity, 1013.25 hPa, condition "Unknown" and its location, and has no observers. |
| Stations.WeatherStation.GetCurrentWeatherData | demo1/src/main/java/org/example/demo1/designpatterns/observer/WeatherStation.java:127-145 | The snapshot carries the stored measurements, the condition and the location. |
| Stations.WeatherStation.SetMeasurements | demo1/src/main/java/org/example/demo1/designpatterns/observer/WeatherStation.java:41-69 | Afterwards the station holds the new measurements and their condition label. The notices are those of broadcasting Emissions, one call after another, to every observer. Every observer ends in the state that replaying those notifications from its old state gives. |
| Stations.WeatherStation.UpdateWeatherCondition | demo1/src/main/java/org/example/demo1/designpatterns/observer/WeatherStation.java:86-106 | The condition becomes the label of the stored measurements; WEATHER_CHANGED is broadcast only when the label changed. |
| Stations.WeatherStation.SetWeatherCondition | demo1/src/main/java/org/example/demo1/designpatterns/observer/WeatherStation.java:76-81 | A different condition is stored and broadcast as WEATHER_CHANGED; an equal one sends nothing. |
| Stations.WeatherStation.AnnounceIf | demo1/src/main/java/org/example/demo1/designpatterns/observer/WeatherStation.java:54-62 | One `if (changed) notifyObservers(...)`: it broadcasts FieldPart and every observer advances by it. |
| Stations.WeatherStation.CheckExtremeWeather | demo1/src/main/java/org/example/demo1/designpatterns/observer/WeatherStation.java:111-120 | ExtremePart is broadcast and every observer advances by it. |
| Stations.WeatherStation.RegisterObserver | demo1/src/main/java/org/example/demo1/designpatterns/observer/WeatherStation.java:148-155 | Registration as in AbstractSubject. A newly registered observer is then updated with MEASUREMENTS_CHANGED and the current snapshot; a failure of that update is swallowed. |
| Stations.WeatherStation.RemoveObserver | demo1/src/main/java/org/example/demo1/designpatterns/observer/AbstractSubject.java:49-67 | Removal as in AbstractSubject, with onObserverRemoved a no-op. |
| Stations.WeatherStation.ClearObservers | demo1/src/main/java/org/example/demo1/designpatterns/observer/AbstractSubject.java:128-137 | No observers remain. |
| Stations.WeatherStation.GetObserverCount | demo1/src/main/java/org/example/demo1/designpatterns/observer/AbstractSubject.java:102-109 | The number of registered observers, distinct objects on a valid subject. |
| StationRuns.ReplayIgnored | demo1/src/main/java/org/example/demo1/designpatterns/observer/AbstractSubject.java:87-89 | Notifications an observer is not interested in leave its state unchanged. |
| StationRuns.StatisticsRecordsEachMeasurement | demo1/src/main/java/org/example/demo1/designpatterns/observer/StatisticsDisplay.java:33-44 | Each setMeasurements updates a statistics display exactly once, with the new snapshot. |
| StationRuns.WeatherDisplayShowsLatest | demo1/src/test/java/org/example/demo1/designpatterns/observer/ObserverTest.java:65-76 | After any setMeasurements a weather display holds the new snapshot, whatever it held before. |
| StationRuns.ForecastAfterMeasurements | demo1/src/main/java/org/example/demo1/designpatterns/observer/ForecastDisplay.java:32-60 | A forecast display first shifts its pressures on PRESSURE_CHANGED, if sent, then runs updateForecast on the snapshot. When the pressure moved past its threshold, the reported pressure change is therefore 0. |
| StationRuns.ForecastThroughChanges | demo1/src/main/java/org/example/demo1/designpatterns/observer/ForecastDisplay.java:63-65 | Of the change notifications, a forecast display acts on PRESSURE_CHANGED alone. |
| StationRuns.Selected | demo1/src/main/java/org/example/demo1/designpatterns/observer/Observer.java:34-36 | The events a recorder lets through: all of them for the default interest, none when isInterestedIn throws. |
| StationRuns.SelectedAdmits | demo1/src/main/java/org/example/demo1/designpatterns/observer/AbstractSubject.java:87 | An event is selected iff it was sent and the interest admits it. |
| StationRuns.RecorderReplay | demo1/src/test/java/org/example/demo1/designpatterns/observer/ObserverTest.java:118-134 | A recorder that does not throw appends, in order, the events it is interested in; one whose update throws keeps what it had. |
| StationRuns.FirstWarmReading | demo1/src/main/java/org/example/demo1/designpatterns/observer/WeatherStation.java:41-69 | A new station's setMeasurements(30, 70, 1010) sends, in full: WEATHER_CHANGED "Mild", the three changes, then the snapshot. |
| StationRuns.SelectiveObserverSeesOnlyItsEvent | demo1/src/test/java/org/example/demo1/designpatterns/observer/ObserverTest.java:118-134 | A recorder interested only in TEMPERATURE_CHANGED has received the registration snapshot and TEMPERATURE_CHANGED, and never HUMIDITY_CHANGED. |
| StationRuns.SelectedAppend | demo1/src/main/java/org/example/demo1/designpatterns/observer/AbstractSubject.java:85-95 | Selection distributes over consecutive runs of notifications. |
| StationRuns.SelectedNone | demo1/src/main/java/org/example/demo1/designpatterns/observer/AbstractSubject.java:87 | An observer interested in one event selects nothing from notifications without it. |
| StationRuns.AlertObserverIsWarned | demo1/src/test/java/org/example/demo1/designpatterns/observer/ObserverTest.java:138-146 | setMeasurements(45, 95, 970) sends EXTREME_WEATHER to an observer interested in everything. |
| StationRuns.StatisticsOverThreeMeasurements | demo1/src/test/java/org/example/demo1/designpatterns/observer/ObserverTest.java:80-92 | After registration and three measurements, the summary reports four readings (the registration snapshot among them): temperatures 0–30, humidities 0–70 and pressures 1010–1020. |
| StationRuns.ForecastOverTwoMeasurements | demo1/src/test/java/org/example/demo1/designpatterns/observer/ObserverTest.java:96-115 | After 25/60/1020 and 25/65/1015 both pressures are 1015. The reported change is 0, not the 5 hPa fall, and the forecast is "more of the same". |
| StationRuns.StatisticsRun | demo1/src/test/java/org/example/demo1/designpatterns/observer/ObserverTest.java:80-92 | The statistics test run on the objects yields that summary. |
| StationRuns.FaultyObserverRun | demo1/src/test/java/org/example/demo1/designpatterns/observer/ObserverTest.java:167-190 | With a weather display and an always-throwing observer registered, the display holds the new snapshot after setMeasurements(25, 60, 1013), and the failure reached onObserverError. |
| StationRuns.FaultyRunOutcome | demo1/src/test/java/org/example/demo1/designpatterns/observer/ObserverTest.java:167-190 | What that one setMeasurements does to each of the two observers. |
| StationRuns.FailureIsReported | demo1/src/main/java/org/example/demo1/designpatterns/observer/AbstractSubject.java:90-94 | An observer that takes every event and always throws appears in onObserverError for every setMeasurements. |
| StationRuns.ThrowingRecorderDelivery | demo1/src/main/java/org/example/demo1/designpatterns/observer/AbstractSubject.java:86-94 | Every notification to such an observer ends in onObserverError. |
| FileSystem.OrEmpty | demo1/src/main/java/org/example/demo1/designpatterns/composite/File.java:28-31 | A null content is stored as "". |
| FileSystem.ExtensionShape | demo1/src/main/java/org/example/demo1/designpatterns/composite/File.java:20-25 | The extension is the lower-cased text after the last '.', and is non-empty only when that dot is neither the first nor the last character. It never holds a dot or an upper-case letter. |
| FileSystem.LastDotAt | demo1/src/main/java/org/example/demo1/designpatterns/composite/File.java:20-21 | A dot with no dot after it is the one lastIndexOf finds. |
| FileSystem.LastDotFollows | demo1/src/main/java/org/example/demo1/designpatterns/composite/File.java:20-21 | Every dot lies at or before the one lastIndexOf finds. |
| FileSystem.NoDotNoExtension | demo1/src/test/java/org/example/demo1/designpatterns/composite/CompositeTest.java:199-207 | "README" has no extension. |
| FileSystem.ExtensionAfterDot | demo1/src/main/java/org/example/demo1/designpatterns/composite/File.java:20-25 | A name whose last dot is strictly inside it has the lowered text after that dot as its extension. |
| FileSystem.LastDotExtension | demo1/src/main/java/org/example/demo1/designpatterns/composite/File.java:20-25 | Only the text after the last dot counts: "archive.tar.gz" has "gz". |
| FileSystem.HiddenFileExtension | demo1/src/main/java/org/example/demo1/designpatterns/composite/File.java:21 | A leading dot is not an extension: ".gitignore" has none. |
| FileSystem.MarkdownExtension | demo1/src/test/java/org/example/demo1/designpatterns/composite/CompositeTest.java:33-38 | "README.md" has "md". |
| FileSystem.FileTypeRecoversExtension | demo1/src/main/java/org/example/demo1/designpatterns/composite/File.java:53-55 | getType is "File (" + the upper-cased extension + ")"; lowering the inside gives the extension back. |
| FileSystem.TypeNameExample | demo1/src/test/java/org/example/demo1/designpatterns/composite/CompositeTest.java:33-38 | README.md's type is "File (MD)"; a directory's type is "Directory". |
| FileSystem.Indent | demo1/src/main/java/org/example/demo1/designpatterns/composite/FileSystemComponent.java:45-51 | Two spaces per level, and none for depth zero or less. |
| FileSystem.Nodes | demo1/src/main/java/org/example/demo1/designpatterns/composite/Directory.java:90-105 | The pre-order listing of a subtree starts with its root. |
| FileSystem.FirstNamed | demo1/src/main/java/org/example/demo1/designpatterns/composite/Directory.java:90-105 | The first component of a list with the name, if any; None iff no component has it. |
| FileSystem.FirstNamedAppend | demo1/src/main/java/org/example/demo1/designpatterns/composite/Directory.java:96-102 | Searching a list made of two parts searches the first part, and the second only on a miss. |
| FileSystem.MatchingFilesAppend | demo1/src/main/java/org/example/demo1/designpatterns/composite/Directory.java:139-153 | Counting matching files distributes over list concatenation. |
| FileSystem.DirectoryCountAppend | demo1/src/main/java/org/example/demo1/designpatterns/composite/Directory.java:175-187 | Counting directories distributes over list concatenation. |
| FileSystem.FileBytesAppend | demo1/src/main/java/org/example/demo1/designpatterns/composite/Directory.java:44-50 | Adding up file sizes distributes over list concatenation. |
| FileSystem.FilesAndDirectoriesPartition | demo1/src/main/java/org/example/demo1/designpatterns/composite/Directory.java:175-187 | Without a filter, every component is either a counted file or a directory. |
| FileSystem.SizeIsFileBytes | demo1/src/main/java/org/example/demo1/designpatterns/composite/Directory.java:44-50 | A directory's getSize is the total size of the files of its whole subtree. |
| FileSystem.SizeOfAllIsFileBytes | demo1/src/main/java/org/example/demo1/designpatterns/composite/Directory.java:44-50 | The same for a list of children. |
| FileSystem.SizeOfAllAppend | demo1/src/main/java/org/example/demo1/designpatterns/composite/Directory.java:58-70 | Adding a child adds its size to the directory's. |
| FileSystem.SizeAmong | demo1/src/main/java/org/example/demo1/designpatterns/composite/Directory.java:44-50 | The summing loop over the children computes the size. |
| FileSystem.SizeOf | demo1/src/main/java/org/example/demo1/designpatterns/composite/File.java:48-50 | getSize of any component, a file's field or a directory's loop, is Size. |
| FileSystem.FindIsFirstInPreorder | demo1/src/main/java/org/example/demo1/designpatterns/composite/Directory.java:90-105 | find returns the first component of the subtree, in pre-order, with that name. |
| FileSystem.FindInIsFirst | demo1/src/main/java/org/example/demo1/designpatterns/composite/Directory.java:96-102 | The same for the loop over the children. |
| FileSystem.FindsItself | demo1/src/test/java/org/example/demo1/designpatterns/composite/CompositeTest.java:192-194 | Every component finds itself by its own name. |
| FileSystem.FindMissesOnlyAbsentNames | demo1/src/main/java/org/example/demo1/designpatterns/composite/Directory.java:90-105 | find returns null iff no component of the subtree has the name; a hit is in the subtree and has the name. |
| FileSystem.FindAmong | demo1/src/main/java/org/example/demo1/designpatterns/composite/Directory.java:96-102 | The loop over the children returns the first hit. |
| FileSystem.FindComponent | demo1/src/main/java/org/example/demo1/designpatterns/composite/FileSystemComponent.java:56-61 | find of any component, the default or the directory's override, is Search. |
| FileSystem.FileCountIsMatchingFiles | demo1/src/main/java/org/example/demo1/designpatterns/composite/Directory.java:139-153 | getFileCount counts exactly the files of the subtree whose extension matches, and no directory. |
| FileSystem.FileCountAllIsMatchingFiles | demo1/src/main/java/org/example/demo1/designpatterns/composite/Directory.java:139-153 | The same for a list of children. |
| FileSystem.FilterNarrowsCount | demo1/src/main/java/org/example/demo1/designpatterns/composite/Directory.java:143-144 | An empty filter counts like no filter, and any filter counts at most all the files. |
| FileSystem.FilterNarrowsCountAll | demo1/src/main/java/org/example/demo1/designpatterns/composite/Directory.java:143-144 | The same for a list of children. |
| FileSystem.FileCountAmong | demo1/src/main/java/org/example/demo1/designpatterns/composite/Directory.java:139-153 | The counting loop computes FileCountAll. |
| FileSystem.Height | demo1/src/main/java/org/example/demo1/designpatterns/composite/Directory.java:175-187 | The depth below a component is never negative. |
| FileSystem.DirectoriesBelowAreCounted | demo1/src/main/java/org/example/demo1/designpatterns/composite/Directory.java:175-187 | totalDirectories counts every directory of the subtree except its root. |
| FileSystem.DirectoriesAllAreCounted | demo1/src/main/java/org/example/demo1/designpatterns/composite/Directory.java:175-187 | The same for a list of children. |
| FileSystem.EveryComponentCountedOnce | demo1/src/main/java/org/example/demo1/designpatterns/composite/Directory.java:165-200 | Files plus directories below plus the root make up every component of the subtree. |
| FileSystem.HeightIsDeepestChild | demo1/src/main/java/org/example/demo1/designpatterns/composite/Directory.java:176 | The depth is one more than that of the deepest sub-directory, or 0 when there is none. |
| FileSystem.HeightAtMostDirectories | demo1/src/main/java/org/example/demo1/designpatterns/composite/Directory.java:175-187 | Each level of depth needs a directory of its own. |
| FileSystem.HeightAllAtMostDirectories | demo1/src/main/java/org/example/demo1/designpatterns/composite/Directory.java:175-187 | The same for a list of children. |
| FileSystem.DirectoryStats.constructor | demo1/src/main/java/org/example/demo1/designpatterns/composite/Directory.java:171-173 | The statistics of a directory: its file count, the directories below it, its size and its depth. |
| FileSystem.DirectoryStats.CalculateStats | demo1/src/main/java/org/example/demo1/designpatterns/composite/Directory.java:175-187 | One walk adds the subtree's files, directories and bytes to the counters, and raises maxDepth to the current depth plus the subtree's height. |
| FileSystem.DeepestStep | demo1/src/main/java/org/example/demo1/designpatterns/composite/Directory.java:176 | Raising the deepest level child by child is taking the deepest of them at once. |
| FileSystem.FirstSame | demo1/src/main/java/org/example/demo1/designpatterns/composite/Directory.java:74 | ArrayList.remove finds the first child that is the same object, or none. |
| FileSystem.AddThenRemoveRestores | demo1/src/test/java/org/example/demo1/designpatterns/composite/CompositeTest.java:66-78 | Removing a just-added component that was not a child before restores the list. |
| FileSystem.File.constructor | demo1/src/main/java/org/example/demo1/designpatterns/composite/File.java:14-26 | A file keeps its name and size, has empty content, and takes its extension from its name. |
| FileSystem.File.WithContent | demo1/src/main/java/org/example/demo1/designpatterns/composite/File.java:28-31 | The three-argument file keeps the given size whatever the content; null content is "". |
| FileSystem.File.SetContent | demo1/src/main/java/org/example/demo1/designpatterns/composite/File.java:94-98 | Null becomes ""; the size becomes the content's length. |
| FileSystem.File.Write | demo1/src/main/java/org/example/demo1/designpatterns/composite/File.java:115-118 | The same as setContent. |
| FileSystem.File.Read | demo1/src/main/java/org/example/demo1/designpatterns/composite/File.java:107-110 | The current content. |
| FileSystem.File.Add | demo1/src/main/java/org/example/demo1/designpatterns/composite/FileSystemComponent.java:25-27 | A leaf refuses add with UnsupportedOperationException. |
| FileSystem.File.Remove | demo1/src/main/java/org/example/demo1/designpatterns/composite/FileSystemComponent.java:29-31 | A leaf refuses remove with UnsupportedOperationException. |
| FileSystem.File.GetChild | demo1/src/main/java/org/example/demo1/designpatterns/composite/FileSystemComponent.java:33-35 | A leaf refuses getChild with UnsupportedOperationException. |
| FileSystem.File.Find | demo1/src/main/java/org/example/demo1/designpatterns/composite/FileSystemComponent.java:56-61 | The file itself iff the name matches. |
| FileSystem.Directory.constructor | demo1/src/main/java/org/example/demo1/designpatterns/composite/Directory.java:17-21 | No children and maxDepth Integer.MAX_VALUE. |
| FileSystem.Directory.WithMaxDepth | demo1/src/main/java/org/example/demo1/designpatterns/composite/Directory.java:23-26 | No children and the given maxDepth. |
| FileSystem.Directory.Add | demo1/src/main/java/org/example/demo1/designpatterns/composite/Directory.java:58-70 | Null is refused with "Component cannot be null" and the directory itself with "Cannot add directory to itself". Anything else, a duplicate included, goes last. |
| FileSystem.Directory.Remove | demo1/src/main/java/org/example/demo1/designpatterns/composite/Directory.java:73-79 | The first child that is the same object is dropped, if any. A null argument throws NullPointerException from the log line and changes nothing. |
| FileSystem.Directory.GetChild | demo1/src/main/java/org/example/demo1/designpatterns/composite/Directory.java:82-87 | The child at the index, or IndexOutOfBoundsException "Index: i, Size: n". |
| FileSystem.Directory.GetChildren | demo1/src/main/java/org/example/demo1/designpatterns/composite/Directory.java:110-112 | A copy of the children. |
| FileSystem.Directory.GetChildCount | demo1/src/main/java/org/example/demo1/designpatterns/composite/Directory.java:117-119 | The number of children. |
| FileSystem.Directory.IsEmpty | demo1/src/main/java/org/example/demo1/designpatterns/composite/Directory.java:124-126 | True iff there are no children. |
| FileSystem.Directory.Clear | demo1/src/main/java/org/example/demo1/designpatterns/composite/Directory.java:131-134 | No children remain. |
| FileSystem.Directory.GetSize | demo1/src/main/java/org/example/demo1/designpatterns/composite/Directory.java:44-50 | Size of the directory. |
| FileSystem.Directory.Find | demo1/src/main/java/org/example/demo1/designpatterns/composite/Directory.java:90-105 | Search of the directory. |
| FileSystem.Directory.GetFileCount | demo1/src/main/java/org/example/demo1/designpatterns/composite/Directory.java:139-153 | FileCount of the directory under the filter. |
| FileSystem.Directory.GetStats | demo1/src/main/java/org/example/demo1/designpatterns/composite/Directory.java:158-160 | New statistics equal to the subtree's file count, directories below, size and height. |
| FileSystemRuns.DirectoryOf | demo1/src/test/java/org/example/demo1/designpatterns/composite/CompositeTest.java:18-28 | A new directory with the given children, in order. |
| FileSystemRuns.Fixture | demo1/src/test/java/org/example/demo1/designpatterns/composite/CompositeTest.java:18-28 | Builds the test tree root/Documents/config.txt (512 bytes) and root/README.md (1024 bytes). |
| FileSystemRuns.FixtureSizes | demo1/src/test/java/org/example/demo1/designpatterns/composite/CompositeTest.java:57-63 | The root weighs 1536 bytes and Documents 512. |
| FileSystemRuns.FixtureSearches | demo1/src/test/java/org/example/demo1/designpatterns/composite/CompositeTest.java:92-106 | find locates README.md and the nested config.txt, and misses nonexistent.txt. |
| FileSystemRuns.OutOfBoundsMessage | demo1/src/main/java/org/example/demo1/designpatterns/composite/Directory.java:84 | The message for index 10 of two children is "Index: 10, Size: 2". |
| FileSystemRuns.SizeRun | demo1/src/test/java/org/example/demo1/designpatterns/composite/CompositeTest.java:57-89 | On the objects: sizes 1536 and 512, two children, the first being Documents, and index 10 out of bounds. |
| FileSystemRuns.FindRun | demo1/src/test/java/org/example/demo1/designpatterns/composite/CompositeTest.java:92-106 | On the objects: the three find results. |
| FileSystemRuns.AddRemoveRun | demo1/src/test/java/org/example/demo1/designpatterns/composite/CompositeTest.java:66-78 | Adding a 256-byte file gives two children and 768 bytes; removing it gives one child and 512 bytes. |
| FileSystemRuns.RefusedAddRun | demo1/src/test/java/org/example/demo1/designpatterns/composite/CompositeTest.java:166-179 | Adding the directory to itself, or null, is refused and leaves two children. |
| FileSystemRuns.ContentRun | demo1/src/test/java/org/example/demo1/designpatterns/composite/CompositeTest.java:40-46 | After setContent("# Updated Project") the content is that text and the size 17. |
| FileSystemRuns.ClearRun | demo1/src/test/java/org/example/demo1/designpatterns/composite/CompositeTest.java:141-147 | After clear the directory is empty, with no children and size 0. |
| FileSystemRuns.LowerCaseExtensions | demo1/src/test/java/org/example/demo1/designpatterns/composite/CompositeTest.java:199-207 | The test's extensions are already lower case. |
| FileSystemRuns.TestExtensions | demo1/src/test/java/org/example/demo1/designpatterns/composite/CompositeTest.java:199-207 | config.txt, README.md, Main.java and script.py have txt, md, java and py. |
| FileSystemRuns.CountOfPair | demo1/src/main/java/org/example/demo1/designpatterns/composite/Directory.java:139-153 | Counting two children adds their counts. |
| FileSystemRuns.CountOfTriple | demo1/src/main/java/org/example/demo1/designpatterns/composite/Directory.java:139-153 | Counting three children adds their counts. |
| FileSystemRuns.FixtureCounts | demo1/src/test/java/org/example/demo1/designpatterns/composite/CompositeTest.java:109-121 | One file each for java, py, md and txt, and four in all. |
| FileSystemRuns.CountFixture | demo1/src/test/java/org/example/demo1/designpatterns/composite/CompositeTest.java:109-121 | Builds the counting test's tree. |
| FileSystemRuns.FileCountRun | demo1/src/test/java/org/example/demo1/designpatterns/composite/CompositeTest.java:109-121 | On the objects: the five counts. |
| FileSystemRuns.FixtureStats | demo1/src/test/java/org/example/demo1/designpatterns/composite/CompositeTest.java:124-138 | Four files, two directories below the root, 3840 bytes and depth 2. |
| FileSystemRuns.StatsFixture | demo1/src/test/java/org/example/demo1/designpatterns/composite/CompositeTest.java:124-138 | Builds the statistics test's tree. |
| FileSystemRuns.StatsRun | demo1/src/test/java/org/example/demo1/designpatterns/composite/CompositeTest.java:124-138 | On the objects: getStats reports those four numbers. |
| Text.LowerChar | demo1/src/main/java/org/example/demo1/designpatterns/composite/File.java:23 | toLowerCase on a character: an upper-case letter becomes lower case, and anything else is kept. The result is never upper case. |
| Text.UpperChar | demo1/src/main/java/org/example/demo1/designpatterns/composite/File.java:54 | toUpperCase on a character: a lower-case letter becomes upper case, and anything else is kept. The result is never lower case. |
| Text.ToLowerChars | demo1/src/main/java/org/example/demo1/designpatterns/composite/File.java:23 | Lowering a string lowers each character and keeps the length. |
| Text.ToUpperChars | demo1/src/main/java/org/example/demo1/designpatterns/composite/File.java:54 | Raising a string raises each character and keeps the length. |
| Text.LowerOfUpper | demo1/src/main/java/org/example/demo1/designpatterns/composite/File.java:53-55 | A string without upper-case letters survives raising then lowering. |
| Text.TrimStart | demo1/src/main/java/org/example/demo1/service/ConfigurationService.java:93 | After trimming the front, the string is empty or starts with a visible character. |
| Text.TrimEnd | demo1/src/main/java/org/example/demo1/service/ConfigurationService.java:93 | After trimming the back, the string is empty or ends with a visible character. |
| Text.TrimStartEmpty | demo1/src/main/java/org/example/demo1/service/ConfigurationService.java:93 | Trimming the front leaves nothing iff every character is at most a space. |
| Text.TrimEndEmpty | demo1/src/main/java/org/example/demo1/service/ConfigurationService.java:93 | Trimming the back leaves nothing iff every character is at most a space. |
| Text.BlankIffAllTrimmed | demo1/src/main/java/org/example/demo1/service/ConfigurationService.java:93 | trim().isEmpty() iff every character is at most a space. |
| Text.TrimStartSuffix | demo1/src/main/java/org/example/demo1/service/ConfigurationService.java:93 | Trimming the front leaves a suffix of the string. |
| Text.TrimEndPrefix | demo1/src/main/java/org/example/demo1/service/ConfigurationService.java:93 | Trimming the back leaves a prefix of the string. |
| Text.TrimShape | demo1/src/main/java/org/example/demo1/service/ConfigurationService.java:93 | trim returns a substring that, unless empty, starts and ends with a character above a space. |
| Text.EqualsIgnoreCaseChars | demo1/src/main/java/org/example/demo1/designpatterns/composite/Directory.java:145 | equalsIgnoreCase holds iff the strings have the same length and agree letter by letter once lowered. |
| Text.LastIndexOf | demo1/src/main/java/org/example/demo1/designpatterns/composite/File.java:20 | -1 iff the character is absent; otherwise a position holding it with none after. |
| Text.DigitChar | demo1/src/main/java/org/example/demo1/designpatterns/composite/Directory.java:84 | The decimal digit character of a digit. |
| Text.NatToString | demo1/src/main/java/org/example/demo1/designpatterns/composite/Directory.java:84 | Decimal digits without a leading zero. |
| Text.IntToString | demo1/src/main/java/org/example/demo1/designpatterns/composite/Directory.java:84 | Starts with '-' iff the number is negative. |
| Text.NatToStringRoundTrip | demo1/src/main/java/org/example/demo1/designpatterns/composite/Directory.java:84 | Reading the digits back gives the number. |
| Text.NatToStringInjective | demo1/src/main/java/org/example/demo1/designpatterns/composite/Directory.java:84 | Different numbers print differently. |
| Text.IntToStringInjective | demo1/src/main/java/org/example/demo1/designpatterns/composite/Directory.java:84 | Different integers print differently. |
| GenericStacks.GrownCapacity | demo1/src/main/java/org/example/demo1/generic/GenericStack.java:38-42 | The grown capacity 2 * size + 1 exceeds the size. |
| GenericStacks.GenericStack.Contents | demo1/src/main/java/org/example/demo1/generic/GenericStack.java:10-11 | The stack's contents are the first size slots of the array. |
| GenericStacks.GenericStack.constructor | demo1/src/main/java/org/example/demo1/generic/GenericStack.java:15-18 | An empty stack over a fresh array of capacity 16. |
| GenericStacks.GenericStack.EnsureCapacity | demo1/src/main/java/org/example/demo1/generic/GenericStack.java:38-42 | A full array is replaced by a fresh one of capacity 2 * size + 1 holding the same contents; otherwise the array stays. There is room for one more afterwards. |
| GenericStacks.GenericStack.Push | demo1/src/main/java/org/example/demo1/generic/GenericStack.java:20-23 | The item is added on top, growing the array when full. |
| GenericStacks.GenericStack.Pop | demo1/src/main/java/org/example/demo1/generic/GenericStack.java:25-32 | An empty stack throws EmptyStackException; otherwise the top is returned and removed, and its slot is cleared. |
| GenericStacks.GenericStack.IsEmpty | demo1/src/main/java/org/example/demo1/generic/GenericStack.java:34-36 | True iff there are no contents. |
| GenericStacks.PushPopRestores | demo1/src/main/java/org/example/demo1/generic/GenericStack.java:20-32 | Two pushes then two pops return the items in reverse order and restore the contents. |
| GenericStacks.StackRun | demo1/src/test/java/org/example/demo1/generic/GenericTest.java:16-29 | The stack test: empty, then not, pops "second" then "first", empty again, and a further pop throws. |
| GenericStacks.GrowthRun | demo1/src/main/java/org/example/demo1/generic/GenericStack.java:38-42 | Seventeen pushes onto a new stack give capacity 33. |
| GenericMethods.StrictAfterWeak | demo1/src/main/java/org/example/demo1/generic/GenericMethods.java:23-35 | For a comparator, a ≤ b and b < c give a < c. |
| GenericMethods.IntsAreComparator | demo1/src/main/java/org/example/demo1/generic/GenericMethods.java:23 | Integer.compareTo is a comparator. |
| GenericMethods.StringsAntisymmetric | demo1/src/main/java/org/example/demo1/generic/GenericMethods.java:23 | String.compareTo flips sign when the arguments are swapped. |
| GenericMethods.StringsTransitive | demo1/src/main/java/org/example/demo1/generic/GenericMethods.java:23 | String.compareTo is transitive. |
| GenericMethods.StringsAreComparator | demo1/src/main/java/org/example/demo1/generic/GenericMethods.java:23 | String.compareTo is a comparator. |
| GenericMethods.Union | demo1/src/main/java/org/example/demo1/generic/GenericMethods.java:14-18 | An element is in the union iff it is in either set. |
| GenericMethods.UnionSize | demo1/src/main/java/org/example/demo1/generic/GenericMethods.java:14-18 | The union's size is the sum of the sizes less the common part, and lies between each size and their sum. |
| GenericMethods.UnionExample | demo1/src/test/java/org/example/demo1/generic/GenericTest.java:57-63 | {a, b} ∪ {b, c} is {a, b, c}, with three elements. |
| GenericMethods.FirstMaxUnique | demo1/src/main/java/org/example/demo1/generic/GenericMethods.java:29-33 | Under a comparator there is only one first maximal position. |
| GenericMethods.Max | demo1/src/main/java/org/example/demo1/generic/GenericMethods.java:23-35 | An empty collection throws "Empty collection"; otherwise the element at the first maximal position. |
| GenericMethods.FirstMaxOfNumbers | demo1/src/test/java/org/example/demo1/generic/GenericTest.java:66-67 | In [3, 1, 4, 1, 5, 9] the first maximum is at position 5. |
| GenericMethods.FirstMaxOfFruits | demo1/src/test/java/org/example/demo1/generic/GenericTest.java:69-70 | In [apple, banana, cherry] the first maximum is at position 2. |
| GenericMethods.MaxNumbersRun | demo1/src/test/java/org/example/demo1/generic/GenericTest.java:66-67 | max of the numbers is 9. |
| GenericMethods.MaxFruitsRun | demo1/src/test/java/org/example/demo1/generic/GenericTest.java:69-70 | max of the fruits is "cherry". |
| GenericMethods.MaxEmptyRun | demo1/src/main/java/org/example/demo1/generic/GenericMethods.java:24-26 | max of an empty collection throws. |
| GenericMethods.Insert | demo1/src/main/java/org/example/demo1/generic/GenericMethods.java:47-51 | One insertion step adds one element at the front or after the first. |
| GenericMethods.Sort | demo1/src/main/java/org/example/demo1/generic/GenericMethods.java:47-51 | The sorted copy has the list's length. |
| GenericMethods.InsertSorted | demo1/src/main/java/org/example/demo1/generic/GenericMethods.java:47-51 | Inserting into a sorted list keeps it sorted and adds exactly that element. |
| GenericMethods.LocallySortedIsSorted | demo1/src/main/java/org/example/demo1/generic/GenericMethods.java:47-51 | Under a transitive comparison, adjacent order implies full order. |
| GenericMethods.SortLocallySorted | demo1/src/main/java/org/example/demo1/generic/GenericMethods.java:47-51 | The sorted copy is in adjacent order and a permutation of the list. |
| GenericMethods.SortIsSortedPermutation | demo1/src/main/java/org/example/demo1/generic/GenericMethods.java:47-51 | Under a comparator the sorted copy is sorted and a permutation of the list. |
| GenericMethods.SortNumbersExample | demo1/src/main/java/org/example/demo1/generic/GenericMethods.java:111-116 | [3, 1, 4, 1, 5, 9] sorts to [1, 1, 3, 4, 5, 9]. |
| GenericMethods.BuiltDistinguishesValues | demo1/src/main/java/org/example/demo1/generic/GenericMethods.java:91-93 | Two builds with the same name and different values give different strings. |
| GenericMethods.ConcreteBuilder.constructor | demo1/src/main/java/org/example/demo1/generic/GenericMethods.java:66-68 | No name and value 0. |
| GenericMethods.ConcreteBuilder.SetName | demo1/src/main/java/org/example/demo1/generic/GenericMethods.java:70-73 | Sets the name, keeps the value, and returns the builder itself. |
| GenericMethods.ConcreteBuilder.SetValue | demo1/src/main/java/org/example/demo1/generic/GenericMethods.java:75-78 | Sets the value, keeps the name, and returns the builder itself. |
| GenericMethods.ConcreteBuilder.Build | demo1/src/main/java/org/example/demo1/generic/GenericMethods.java:91-93 | "Built: " + name + " with value " + value. |
| GenericMethods.BuilderRun | demo1/src/test/java/org/example/demo1/generic/GenericTest.java:72-77 | setName("Test").setValue(100).build() is "Built: Test with value 100". |
| WildcardExamples.Sum | demo1/src/main/java/org/example/demo1/generic/WildcardExamples.java:16-22 | The loop adds up the numbers. |
| WildcardExamples.SumRun | demo1/src/test/java/org/example/demo1/generic/GenericTest.java:36-40 | The integers 1 to 5 sum to 15, and 1.1, 2.2, 3.3 to 6.6. |
| WildcardExamples.OneTo | demo1/src/main/java/org/example/demo1/generic/WildcardExamples.java:26-28 | The numbers 1 to n in order. |
| WildcardExamples.AddNumbers | demo1/src/main/java/org/example/demo1/generic/WildcardExamples.java:25-29 | The list gains 1, 2, 3, 4, 5 at its end. |
| WildcardExamples.NumElementsInCommon | demo1/src/main/java/org/example/demo1/generic/WildcardExamples.java:34-42 | The loop counts the size of the intersection. |
| WildcardExamples.CommonCountSymmetric | demo1/src/main/java/org/example/demo1/generic/WildcardExamples.java:34-42 | The count does not depend on the order of the sets and is at most each size. |
| WildcardExamples.CommonRun | demo1/src/test/java/org/example/demo1/generic/GenericTest.java:48-51 | The test sets have two elements in common. |
| WildcardExamples.SwappedExchanges | demo1/src/main/java/org/example/demo1/generic/WildcardExamples.java:49-51 | Swapping exchanges the two positions, keeps the others and is a permutation. |
| WildcardExamples.SwapTwiceRestores | demo1/src/main/java/org/example/demo1/generic/WildcardExamples.java:49-51 | Swapping twice, or a position with itself, changes nothing. |
| WildcardExamples.Swap | demo1/src/main/java/org/example/demo1/generic/WildcardExamples.java:49-51 | An index out of range throws IndexOutOfBoundsException, i checked first, and changes nothing; otherwise the list becomes Swapped. |
| WildcardExamples.ReversedAt | demo1/src/main/java/org/example/demo1/generic/WildcardExamples.java:58-63 | Reversal keeps the length and mirrors each position. |
| WildcardExamples.ReverseTwiceRestores | demo1/src/main/java/org/example/demo1/generic/WildcardExamples.java:54-63 | Reversing twice changes nothing. |
| WildcardExamples.Reverse | demo1/src/main/java/org/example/demo1/generic/WildcardExamples.java:54-63 | The in-place swapping loop leaves the reversed list. |
| WildcardExamples.SwapReverseRun | demo1/src/main/java/org/example/demo1/generic/WildcardExamples.java:49-63 | Swapping the ends of [first, second, third] gives [third, second, first], reversing that gives [first, second, third] back, and index 3 of three is refused. |
| TypeErasure.AsList | demo1/src/main/java/org/example/demo1/generic/TypeErasureDemo.java:37-42 | The list holds the arguments in order. |
| TypeErasure.ToArray | demo1/src/main/java/org/example/demo1/generic/TypeErasureDemo.java:47-50 | The varargs array itself is returned. |
| TypeErasure.VarargsRun | demo1/src/test/java/org/example/demo1/generic/GenericTest.java:96-99 | asList("a", "b", "c") is [a, b, c], and a write through toArray's result is seen through the caller's array, because the array is shared: `toArray` returns its own argument array (demo1/src/main/java/org/example/demo1/generic/TypeErasureDemo.java:47-50). |
| TypeErasure.Flatten | demo1/src/main/java/org/example/demo1/generic/TypeErasureDemo.java:55-62 | The lists concatenated in order. |
| TypeErasure.FlattenMembers | demo1/src/main/java/org/example/demo1/generic/TypeErasureDemo.java:55-62 | An element is in the flattened list iff it is in one of the lists. |
| TypeErasure.FlattenRun | demo1/src/test/java/org/example/demo1/generic/GenericTest.java:101-106 | [a, b] and [c, d] flatten to [a, b, c, d]. |
| TypeErasure.TypeSafeContainer.constructor | demo1/src/main/java/org/example/demo1/generic/TypeErasureDemo.java:92-93 | No favourites. |
| TypeErasure.TypeSafeContainer.PutFavorite | demo1/src/main/java/org/example/demo1/generic/TypeErasureDemo.java:95-97 | A null class throws NullPointerException and changes nothing; otherwise the instance is stored under its class, replacing any earlier one. |
| TypeErasure.TypeSafeContainer.GetFavorite | demo1/src/main/java/org/example/demo1/generic/TypeErasureDemo.java:99-101 | A null class throws NullPointerException; otherwise the instance stored under the class, or null. |
| TypeErasure.ContainerRun | demo1/src/test/java/org/example/demo1/generic/GenericTest.java:82-91 | The test's String, Integer and Class favourites come back, an absent class gives null, and a null class is refused. The last two cases follow `getFavorite` and `putFavorite` (demo1/src/main/java/org/example/demo1/generic/TypeErasureDemo.java:95-101), not the test. |
| Configuration.DatabaseConfig | demo1/src/main/java/org/example/demo1/service/ConfigurationService.java:50-59 | The database report has exactly url, username, password, maxConnections and showSql, and the password is always "***". The other four are the stored values. |
| Configuration.AppInfo | demo1/src/main/java/org/example/demo1/service/ConfigurationService.java:26-32 | The application report has exactly name, version and description, each the stored value. |
| Configuration.ServerConfig | demo1/src/main/java/org/example/demo1/service/ConfigurationService.java:37-45 | The server report has exactly host, port, timeout and sslEnabled, each the stored value. |
| Configuration.CacheConfig | demo1/src/main/java/org/example/demo1/service/ConfigurationService.java:64-72 | The cache report has exactly type, expireMinutes, maxEntries and enabled, each the stored value. |
| Configuration.AllConfigurations | demo1/src/main/java/org/example/demo1/service/ConfigurationService.java:77-84 | The four reports under app, server, database and cache. |
| Configuration.ReportsHideOnlyThePassword | demo1/src/main/java/org/example/demo1/service/ConfigurationService.java:26-84 | Two configurations give the same reports iff they agree on every field but the password. |
| Configuration.PasswordNeverReported | demo1/src/main/java/org/example/demo1/service/ConfigurationService.java:50-84 | Changing the password changes neither the database report nor the whole report, which shows "***". |
| Configuration.ValidateConfiguration | demo1/src/main/java/org/example/demo1/service/ConfigurationService.java:89-119 | The validation map has exactly the four section flags and overallValid. |
| Configuration.OverallIsConjunction | demo1/src/main/java/org/example/demo1/service/ConfigurationService.java:115 | overallValid is true iff all four section flags are. |
| Configuration.SectionFlagsMean | demo1/src/main/java/org/example/demo1/service/ConfigurationService.java:93-111 | Each section flag holds iff its strings are non-null and not blank after trim, and its numbers are in range (port 1 to 65535, positive connections, expiry and entry counts). |
| Configuration.OnlyCheckedFieldsMatter | demo1/src/main/java/org/example/demo1/service/ConfigurationService.java:89-119 | Configurations that agree on the checked fields validate alike. |
| Configuration.VisibleIsNonBlank | demo1/src/main/java/org/example/demo1/service/ConfigurationService.java:93 | A string with a character above space is not blank. |
| Configuration.DefaultsAreValid | demo1/src/main/java/org/example/demo1/config/AppProperties.java:19-241 | The default properties pass every check. |

## Left out

- Locking: the read/write lock of AbstractSubject and concurrent registration and notification are not modelled; each operation is one atomic step.
- Printing: console output, `display`, `toString`, `printAll`, the display methods of the observers, and `getFileIcon`'s emoji are left out. The `%.1f` rendering of summaries, trends, confidence and comfort is also left out; these become datatypes.
- Timestamps: `WeatherData`'s creation time and the displays' `SimpleDateFormat` are left out.
- Floats: Java `float` and `double` are exact `real`s, so IEEE rounding is not modelled. SumRun's 6.6 is the exact sum; in Java it is the nearest double.
- Integers: Java `int` overflow is not modelled. This covers file sizes, directory sizes, counts and `2 * size + 1`.
- Observer and Subject are Java interfaces. Here, observers are a closed datatype of the three displays and a `Recorder` that stands for the tests' anonymous observers. An observer calling back into its subject from `update` is not modelled.
- The `subject` argument of `update` is not modelled. Every notification comes from the one concrete subject, the station, so the displays' `instanceof WeatherStation` test always holds.
- Stations.WeatherStation.RegisterObserver: the station's `onObserverRegistered` prints a failure of the initial push instead of calling `onObserverError`. It is modelled as swallowing that failure, with no notice.
- StatisticsDisplays.MaxStaysAtSentinel: states the Java behaviour as written. The maxima start at `Float.MIN_VALUE`, the smallest positive float, so all-negative readings report that sentinel. The model keeps this behaviour.
- The composite is modelled on values. A parent holds each child's state as of when it was added; a later change made through another reference to that child is not seen. Cycles cannot be built.
- `maxDepth`: a directory's `maxDepth` is stored but, as in Java, never checked.
- Null names: null names of files, directories and find queries are not modelled.
- Null arguments of the generic helpers: a null collection, list, set or array throws a NullPointerException in Java. This covers `union`, `max` and `sort` of GenericMethods; `sum`, `addNumbers`, `numElementsInCommon`, `swap` and `reverse` of WildcardExamples; and `asList` and `flatten` of TypeErasureDemo. It also covers a null element, which throws in `sort` and in `sum`. None of these nulls are modelled; arguments are sequences, sets and arrays of non-null values.
- Null station location: a WeatherStation built with a null location hands that null on in every `WeatherData`. Here the location is a `string`, so it is never null.
- Not modelled: `TypeToken` and reflection, `emptySet`, `newHashMap`, and the demo classes' `main` methods.
- TypeErasure.TypeSafeContainer.PutFavorite: requires the instance to belong to the class, as `Class<T>` enforces at compile time. The raw-type bypass is not modelled, and only five classes are modelled.
- GenericMethods.Sort: states a sorted permutation; the stability of `Collections.sort` is not stated.
- GenericMethods.Max: null elements of the collection are not modelled. `compareTo` is a parameter required to be a comparator.
- WildcardExamples.AddNumbers: returns the new contents of the caller's list instead of mutating a shared list. Swap and Reverse work on arrays standing for the list.
- Configuration: null sections of `AppProperties` are not modelled. The reports are maps from key to a value datatype, not `Map<String, Object>`.
- Stations.WeatherStation.SetWeatherCondition: a null condition is not modelled. In Java it is stored and WEATHER_CHANGED is broadcast, and the next `setWeatherCondition` or `updateWeatherCondition` then throws a NullPointerException at `this.weatherCondition.equals`.
- Strings: Dafny characters are Unicode scalar values, while Java's `length` and `compareTo` count UTF-16 code units. Characters outside the Basic Multilingual Plane therefore give different results in FileSystem.File.SetContent and Write, which size files by `length`, and in GenericMethods.CompareStrings.
- Test fixtures: FileSystemRuns builds each sub-directory before adding it to its parent. The tests add an empty directory first and fill it afterwards, which only works through a shared reference; the values here need the other order.
- Text: `toLowerCase`, `toUpperCase` and `trim` are modelled on ASCII letters and control characters; locale rules are not.
- Not modelled: the singleton, virtual-thread, controller and Spring-application classes.

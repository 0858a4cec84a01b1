# Air-quality aggregation, forecast and banding — a Dafny model

This project models the computational core of an air-quality dashboard. The dashboard reads PM2.5
measurements from OpenAQ stations in one country and merges them into one hourly series. It converts
that series to the US AQI and forecasts the next seven days with a pre-trained regressor over daily
first differences. It also ranks stations by their latest reading and colours everything by AQI band.

The model covers three Python modules:

- **`module/prediction.py`:** the feature builder `create_features`, the daily resample/interpolate/diff
  block of `predict_7_days`, and its 7-step rollout loop. They are modelled in the modules `Features`,
  `Series`, `Rollouts` and `Prediction`.
- **`module/openaq_api.py`:** the following parts are modelled in the module `OpenAq`, on top of the
  `Aggregation` module:
  - the station loops of the daily and historic fetches, including the sensor pick, the 10-station cap
    and pagination;
  - the hourly group-by-mean;
  - the ranking scan and sort with its cache branch;
  - the KPI status chain;
  - the country lookup.
- **`module/visualizer.py`:** the three AQI band chains and the guard and labels of the prediction
  chart, in the module `Visualizer`.

The smaller modules are `Options` (an `Option` type) and `Text` (ASCII `lower`, `strip` and decimal
rendering of naturals).

Each loop of the source is a `method` whose `while`/`for` loop carries its invariants. Each method is
proved equal to a specification function. The properties the code promises are proved about those
functions as lemmas.

Conventions used throughout:

- **Timestamps** are integer seconds of local time. Flooring to the hour is `t / 3600` and the calendar
  day is `t / 86400`; both are floors, which Dafny's `/` on `int` gives.
- **Concentrations** are `real`. AQI values are `int`.
- **Exceptions become data.**
  - In `openaq_api.py`, an exception that escapes is `Raised(message)`.
  - In `predict_7_days`, every exception is caught. A scaler, model or AQI call that raises is `None`,
    and the result is then `([], [], [])`.
- **External code becomes function parameters:**
  - the OpenAQ client (`Measure`, `PageFetch`, `Latest`);
  - the `aqi` library (`ToAqi`, `Iaqi`);
  - the scaler and regressor (`Scaler`, `Regressor`);
  - `sqrt` and the sine/cosine calendar encoding (`Numerics`).
- **The JSON cache** is a `Cache` value: `Missing`, `Unreadable` or `Stored(content)`.

## Model

| member | source | states |
|---|---|---|
| Features.GetLag | module/prediction.py:40-43 | `data[-n]` when the history holds at least `n` entries, 0.0 otherwise; never fails on a short history |
| Features.LagAfterAppend | module/prediction.py:40-43 | after appending `x` to the history, lag 1 is `x` and lag `n+1` is the old lag `n` |
| Features.Recent | module/prediction.py:52 | the last 30 entries of the history, or all of them when there are fewer |
| Features.RollingOfRecent | module/prediction.py:52-54 | cutting the history to its last 30 entries changes neither rolling feature |
| Features.RollingMean | module/prediction.py:53 | `rolling_mean_7` is 0.0 below 7 entries; otherwise it lies between the smallest and the largest of the last 7 entries |
| Features.RollingStd | module/prediction.py:54 | `rolling_std_7` is 0.0 below 7 entries; otherwise it is never negative when the square root is not |
| Features.RollingStdFlat | module/prediction.py:54 | seven equal last entries have a deviation of `sqrt(0)` |
| Features.SampleVarianceNonNegative | module/prediction.py:54 | the sample (ddof=1) variance under `rolling_std_7` is never negative |
| Features.Columns | module/prediction.py:118 | the row laid out in a given column order holds each column's feature value at its position |
| Features.FeatureVector | module/prediction.py:104-109 | one value per entry of the 15-column `feature_order` |
| Features.Vectorize | module/prediction.py:118 | a feature dictionary read in `feature_order` has 15 values, each the dictionary's entry for that column |
| Features.VectorLayout | module/prediction.py:46-118 | a dictionary holding the lag, rolling and seasonal values has every column and reads out as `FeatureVector` |
| Features.ColumnNamesMatchTraining | module/prediction.py:47-109 | the key names `lag_{n}`, `rolling_*`, `day_of_*` written by `create_features` are, in order, the 15 names of `feature_order` |
| Features.LagDigits | module/prediction.py:47 | the lag numbers 1-7, 14 and 30 render as the decimal digits in the column names |
| Features.LoopKeys | module/prediction.py:46-47 | the lag loop fills exactly the keys `lag_1` … `lag_7` |
| Features.Completed | module/prediction.py:48-60 | the eight assignments after the loop complete the key set to the 15 features and keep every earlier value |
| Features.CreateFeatures | module/prediction.py:37-62 | the dictionary has exactly the 15 feature keys, with lags by `get_lag`, rolling mean and std that are 0.0 below 7 entries and the seasonal values of the next date; read in `feature_order`, it is `FeatureVector` |
| Aggregation.MeanBetween | module/openaq_api.py:112 | a mean lies between any lower and upper bound of its values |
| Aggregation.MeanWithinValues | module/openaq_api.py:311 | a mean is at least one of its values and at most one of them |
| Aggregation.MeanOfOne | module/openaq_api.py:112 | the mean of one value is that value |
| Aggregation.MeanOfTwo | module/openaq_api.py:112 | the mean of two values is their half-sum |
| Aggregation.HourOf | module/openaq_api.py:109 | `dt.floor('h')`: the hour whose 3600 seconds contain the time |
| Aggregation.DayOf | module/prediction.py:81 | `resample('D')`: the day whose 86400 seconds contain the time |
| Aggregation.ValuesInHolds | module/openaq_api.py:109-112 | every reading's value is among the values of its bucket |
| Aggregation.ValuesInOnly | module/openaq_api.py:109-112 | every value in a bucket comes from a reading that floors to that bucket |
| Aggregation.FirstBucket | module/prediction.py:81 | the earliest bucket of any reading, reached by one of them |
| Aggregation.LastBucket | module/prediction.py:81-93 | the latest bucket of any reading, reached by one of them (`df_daily.index[-1]`) |
| Aggregation.Resample | module/prediction.py:81 | one slot per bucket from the first to the last, each the mean of that bucket's readings or missing |
| Aggregation.ResampleEnds | module/prediction.py:81-82 | the first and last slots of a resampled series are never missing, so interpolation fills every gap |
| Aggregation.Occupied | module/openaq_api.py:112 | the occupied slots in increasing bucket order, each with its mean |
| Aggregation.OccupiedCovers | module/openaq_api.py:112 | every occupied slot appears among them |
| Aggregation.CountAtMostReadings | module/openaq_api.py:112 | no more occupied buckets than readings |
| Aggregation.GroupMeans | module/openaq_api.py:112 | `groupby(...).mean()` has no more rows than readings, strictly increasing keys and each key's mean |
| Aggregation.GroupMeansCovers | module/openaq_api.py:109-112 | every reading's bucket is a key of the group-by |
| Aggregation.ReadingBucketOccupied | module/openaq_api.py:109-112 | every reading's bucket is an occupied slot of the resampled series |
| Series.KnownAtOrBefore | module/prediction.py:82 | the nearest known day at or before a day, with nothing known in between |
| Series.KnownAtOrAfter | module/prediction.py:82 | the nearest known day at or after a day, with nothing known in between |
| Series.Interpolate | module/prediction.py:82 | linear interpolation keeps every known day's value and has one value per day |
| Series.FillOnLine | module/prediction.py:82 | a missing day lies on the line between its nearest known neighbours |
| Series.InterpolateBetween | module/prediction.py:82 | a filled day lies between the values of its nearest known neighbours |
| Series.InterpolateLinear | module/prediction.py:82 | a filled day is an interior day, and its value is the average of the days on either side |
| Series.InterpolateExample | module/prediction.py:82 | a one-day gap between 10 and 30 is filled with 20 |
| Series.DailySeries | module/prediction.py:81-82 | one value per calendar day from the first day with readings to the last |
| Series.Diffs | module/prediction.py:87-91 | `diff().dropna()` has one entry fewer than the series (none for an empty one) |
| Series.IntegrateDiffs | module/prediction.py:87-91 | the first value and the differences rebuild the series |
| Series.DiffsIntegrate | module/prediction.py:87-91 | differencing a series built from differences gives those differences back |
| Series.DiffsTelescope | module/prediction.py:87-91 | the differences sum to the last day's value minus the first day's |
| Rollouts.Clamp | module/prediction.py:126 | `max(0, x)` is non-negative, at least `x`, and is `x` or 0 |
| Rollouts.Predicted | module/prediction.py:112-136 | a successful run of `n` steps has exactly `n` differences; one raise fails the whole run |
| Rollouts.PredictedHistory | module/prediction.py:116-135 | step `i` is predicted from the history grown by exactly the `i` differences before it, for day `current_date + i + 1` |
| Rollouts.HistoryPredicted | module/prediction.py:116-135 | conversely, differences that each predict the next from the grown history are the run |
| Rollouts.PredictedFails | module/prediction.py:112-148 | a failed run has at least one step, and either its first call raised or the run after it failed |
| Rollouts.Levels | module/prediction.py:126-136 | one running value per difference |
| Rollouts.LevelsNonNegative | module/prediction.py:126 | every predicted value is at least 0 |
| Rollouts.LevelsStep | module/prediction.py:126-136 | value `i` is `max(0, previous + diff_i)`, where the previous value is the unrounded one before it |
| Rollouts.LevelsConstant | module/prediction.py:126-136 | with a constant difference `d` and a start `v0 >= 0`, step `k` gives `max(0, v0 + k·d)` |
| Prediction.RoundHalfEven | module/prediction.py:128 | Python's `round`: within one half of `x`, and even on a tie |
| Prediction.RoundNearest | module/prediction.py:128 | any integer closer than one half to `x` is its rounding |
| Prediction.RoundExamples | module/prediction.py:128 | `round(2.5) == 2`, `round(3.5) == 4`, `round(2.6) == 3` |
| Prediction.ConstantPredictor | module/prediction.py:116-124 | a total scaler and a constant model predict that constant whatever the history |
| Prediction.Forecast | module/prediction.py:112-136 | a successful forecast has exactly 7 values |
| Prediction.ForecastNonNegative | module/prediction.py:126 | every forecast value is at least 0 |
| Prediction.ConstantModelForecast | module/prediction.py:112-136 | with a constant model `d` and a last value `v0 >= 0`, day `k` of the forecast is `max(0, v0 + k·d)` |
| Prediction.FeatureRow | module/prediction.py:116-118 | the step's feature row is `create_features` read in `feature_order` |
| Prediction.PredictNextDiff | module/prediction.py:121-124 | the step's difference is the model's answer on the scaled row, `None` when the scaler or the model raises |
| Prediction.PredictorRaises | module/prediction.py:121 | a scaler that raises makes the step raise |
| Prediction.PredictorAnswers | module/prediction.py:121-124 | otherwise the step's difference is the model's answer on the scaled row |
| Prediction.AqiAll | module/prediction.py:139-141 | the AQIs exist exactly when every AQI call answers, one per value, each from its value |
| Prediction.DaysAfterAt | module/prediction.py:113-130 | the dates are `current_date + 1` … `current_date + n` |
| Prediction.RoundedAt | module/prediction.py:128 | each stored value is the rounding of its prediction |
| Prediction.StepBookkeeping | module/prediction.py:126-136 | one step appends the rounded new value and the next date, and the unrounded value becomes `last_value` |
| Prediction.RollForward | module/prediction.py:112-136 | the loop yields the rounded levels of the run, with dates `current_date + 1..7`, or `None` once a step raises |
| Prediction.ToAqis | module/prediction.py:139-141 | the AQI loop yields `AqiAll` of the rounded values |
| Prediction.RolloutMeaning | module/prediction.py:112-148 | the result is empty exactly when a step or an AQI call raised. Otherwise it is 7 consecutive dates, 7 values rounded from the forecast and 7 AQIs, each computed from its rounded value, in the order (dates, aqi, values). All three lists are empty or none is |
| Prediction.Rollout | module/prediction.py:99-148 | the rollout and AQI loops with the caught exception give `RolloutOutcome` |
| Prediction.Outcome | module/prediction.py:64-148 | a missing model or scaler or no rows gives three empty lists; the three lists are empty together; otherwise 7 dates following the last day with data, 7 values that are never negative and 7 AQIs, each that of its value |
| Prediction.Predict7Days | module/prediction.py:64-148 | a missing model or scaler gives `([], [], [])`; otherwise the daily series, its differences, the last value and the last day feed the rollout |
| OpenAq.FirstPm25IsFirst | module/openaq_api.py:69-73 | the sensor picked is the first with parameter 2, and there is none exactly when no sensor has parameter 2 |
| OpenAq.PickSensor | module/openaq_api.py:62-73 | the sensor loop with its `break` picks `FirstPm25` |
| OpenAq.DailySkipsFalsySensor | module/openaq_api.py:75 | `if sensor_id:` skips a location without a PM2.5 sensor or with sensor id 0; otherwise it counts exactly when its measurements return non-empty |
| OpenAq.HistoricSkipsFalsySensor | module/openaq_api.py:169 | `if sensor_id:` skips a location without a PM2.5 sensor or with sensor id 0, and counts every other one |
| OpenAq.ReadingsOf | module/openaq_api.py:84-89 | one reading per measurement |
| OpenAq.AppendReadings | module/openaq_api.py:84-89 | the append loop adds the measurements' readings after the collected ones |
| OpenAq.ContributionsAppend | module/openaq_api.py:58-95 | the counted stations of two runs of locations are those of the first followed by those of the second |
| OpenAq.CappedFromFirstStations | module/openaq_api.py:59-60 | every collected reading comes from one of the first ten counted stations |
| OpenAq.CollectedAll | module/openaq_api.py:58-60 | stopping at the last location or at the tenth counted station collects exactly the readings of the first ten counted stations |
| OpenAq.DailyStationsHaveData | module/openaq_api.py:82-91 | in the daily fetch, only locations whose measurements are non-empty are counted |
| OpenAq.DailyNoData | module/openaq_api.py:57-97 | the daily fetch keeps no readings exactly when no location has a usable sensor with measurements |
| OpenAq.DailyLocation | module/openaq_api.py:62-95 | a location adds its readings and is counted exactly when it has a usable PM2.5 sensor whose measurements return without raising and are non-empty |
| OpenAq.CollectDaily | module/openaq_api.py:57-95 | the count is min(counted stations, 10), and the readings are those of the first ten counted stations, in order |
| OpenAq.PagesStop | module/openaq_api.py:170-198 | pagination reads no page after an empty page, a page that raises, or page 200 |
| OpenAq.FetchPages | module/openaq_api.py:170-198 | the pagination loop appends exactly the readings of `Pages` from page 1 |
| OpenAq.HistoricCountsSensors | module/openaq_api.py:169-199 | the historic fetch counts every location with a PM2.5 sensor, whatever its pages return |
| OpenAq.HistoricNoSensor | module/openaq_api.py:155-206 | without a location that has a usable PM2.5 sensor, the historic fetch keeps no readings |
| OpenAq.HistoricLocation | module/openaq_api.py:161-204 | a location with a usable PM2.5 sensor is counted and adds all its pages |
| OpenAq.CollectHistoric | module/openaq_api.py:155-204 | the count is min(counted stations, 10), and the readings are all pages of the first ten counted stations |
| OpenAq.HourRows | module/openaq_api.py:112-116 | one row per group, with its hour, mean and the AQI of the mean |
| OpenAq.HourlyFrame | module/openaq_api.py:109-116 | no more rows than readings, hours strictly increasing, each row the mean of its hour's readings across stations with the AQI of that mean |
| OpenAq.HourlyFrameCovers | module/openaq_api.py:109-112 | every reading's hour has a row |
| OpenAq.FrameOf | module/openaq_api.py:96-97 | raises "No data found for this country." exactly when no reading was collected |
| OpenAq.FetchedFrame | module/openaq_api.py:96-116 | raises exactly when nothing was collected; otherwise strictly increasing hours, each holding the mean of its readings |
| OpenAq.RelabelAsWritten | module/openaq_api.py:117 | as written, row `i` takes the floored time of raw reading `i` |
| OpenAq.TwoHourFrame | module/openaq_api.py:109-116 | readings in hours 0 and 1 only give exactly two rows, hour 0 then hour 1, each with its hour's mean |
| OpenAq.Line117Misattributes | module/openaq_api.py:117 | on three readings the relabelled frame gives hour 0's mean to hour 1 and hour 1's mean to hour 0 |
| OpenAq.DailyOutcome | module/openaq_api.py:28-125 | with line 117 corrected (see Findings): the stored frame; an error listing locations propagates; "No data found" exactly when no location has a usable sensor with measurements; otherwise a non-empty frame in strictly increasing hour order |
| OpenAq.GetDailyData | module/openaq_api.py:28-125 | with line 117 corrected (see Findings): stored cache, else an error listing locations propagates, else the capped readings' frame or "No data found" |
| OpenAq.HistoricOutcome | module/openaq_api.py:127-233 | the stored frame; an error listing locations propagates; "No data found" when no location has a usable PM2.5 sensor; a frame is non-empty in strictly increasing hour order |
| OpenAq.GetHistoricData | module/openaq_api.py:127-233 | the same as `GetDailyData` for the paginated historic fetch |
| OpenAq.LatestEntry | module/openaq_api.py:268-284 | a raising call propagates; no entry exactly when the measurements are empty; otherwise the location's name with the value and time of the last measurement |
| OpenAq.Scanned | module/openaq_api.py:257-285 | the ranking scan collects at most 10 entries |
| OpenAq.ScannedSettled | module/openaq_api.py:259-260 | once 10 entries are collected, or a call has raised, later locations change nothing |
| OpenAq.ScanLatest | module/openaq_api.py:257-285 | the scan loop with its break gives `Scanned` |
| OpenAq.Insert | module/openaq_api.py:287 | inserting adds exactly the inserted entry, so the result is one longer |
| OpenAq.SortDescending | module/openaq_api.py:287 | the sort keeps the length and is a permutation of its input |
| OpenAq.InsertSorted | module/openaq_api.py:287 | inserting into a non-increasing list keeps it non-increasing |
| OpenAq.InsertStable | module/openaq_api.py:287 | inserting puts the new entry before the existing entries of equal value |
| OpenAq.SortDescendingFacts | module/openaq_api.py:287 | `sort(key=value, reverse=True)` is non-increasing, a permutation, and stable: the entries of each value keep their order |
| OpenAq.RankRows | module/openaq_api.py:293-301 | one row per entry, in order, with its time, name, value and the AQI of the value |
| OpenAq.RankingOutcome | module/openaq_api.py:235-308 | the stored frame; no frame for an unreadable cache; the listing's or the scan's error propagates; the `KeyError` on `'value'` exactly when the scan found no entry; otherwise 1 to 10 rows, non-increasing by value |
| OpenAq.GetRanking | module/openaq_api.py:235-308 | stored cache gives the frame; an unreadable cache gives `None` without a refetch; otherwise the fetched ranking, or a `KeyError` when nothing was collected |
| OpenAq.FetchedRanking | module/openaq_api.py:257-301 | a fetched ranking has at most 10 rows, is non-increasing by value, is a stable permutation of the scanned entries and carries their AQIs |
| OpenAq.KpiStatus | module/openaq_api.py:315-326 | for integer AQIs the `<51/<101/<151/<201/<301` chain is the visualizer's status band, except that band 2 is spelled "Unhealthy for sensitive groups" |
| OpenAq.KpiCard | module/openaq_api.py:310-326 | the average lies between two of the values, the AQI is that of the average and the status is the band of that AQI |
| OpenAq.KpiCardBand | module/openaq_api.py:310-326 | the card's average lies between any bounds of the values; its AQI is that of the average and its status is the band of that AQI |
| OpenAq.FindByKeyIsFirst | module/openaq_api.py:21-23 | the id of the first country whose lower-cased name equals the key; none exactly when no name matches |
| OpenAq.CountryLookup | module/openaq_api.py:16-26 | a raising country list gives "Error finding countris: …"; otherwise the id of the first country whose lower-cased name is the lower-cased, stripped query, and "Cannot find results for …" exactly when no name matches |
| OpenAq.GetCountryByName | module/openaq_api.py:16-26 | the scan returns the first match's id, else "Cannot find results for …", and a raising country list gives "Error finding countris: …" |
| OpenAq.LookupIgnoresCaseAndSpace | module/openaq_api.py:22 | lower-casing or stripping the query beforehand does not change the lookup |
| Text.Lower | module/openaq_api.py:22 | `lower()` keeps the length, lowers each capital and leaves no capital |
| Text.LowerIdempotent | module/openaq_api.py:22 | lowering twice is lowering once |
| Text.Strip | module/openaq_api.py:22 | `strip()` is an infix of the string, with only white space removed before and after it, and no white space at either end |
| Text.StripLowerCommute | module/openaq_api.py:22 | `lower().strip()` equals `strip().lower()` |
| Text.NatToStringRoundTrip | module/visualizer.py:117 | the decimal rendering of a day number reads back as that number |
| Text.NatToStringInjective | module/visualizer.py:117 | different day numbers render differently |
| Visualizer.Severity | module/visualizer.py:21-33 | one of six bands |
| Visualizer.SeverityCountsBreakpoints | module/visualizer.py:21-33 | the band is the number of breakpoints 50, 100, 150, 200 and 300 strictly below the AQI |
| Visualizer.SeverityBand | module/visualizer.py:21-33 | band `s` is exactly the AQIs above breakpoint `s-1` and at most breakpoint `s` |
| Visualizer.SeverityMonotone | module/visualizer.py:21-33 | a larger AQI is never in a less severe band |
| Visualizer.AqiColor | module/visualizer.py:7-19 | the colour of the AQI's band |
| Visualizer.AqiStatus | module/visualizer.py:21-33 | the status of the AQI's band |
| Visualizer.AqiStatusInfo | module/visualizer.py:172-184 | the status is `get_aqi_status`, the colour is `get_aqi_color` and the badge is the band's |
| Visualizer.ColorsDistinct | module/visualizer.py:7-19 | the six colours are pairwise different |
| Visualizer.StatusesDistinct | module/visualizer.py:21-33 | the six statuses are pairwise different |
| Visualizer.ColorMatchesStatus | module/visualizer.py:7-33 | two AQIs share a colour exactly when they share a status, exactly when they share a band |
| Visualizer.LabelsAt | module/visualizer.py:115-117 | the `i`-th label is `Day {i+1}<br>{date}` |
| Visualizer.LabelsDistinct | module/visualizer.py:117 | labels of different positions differ, whatever the dates |
| Visualizer.BuildLabels | module/visualizer.py:115-117 | the label loop builds `Labels` |
| Visualizer.BarColors | module/visualizer.py:129 | one colour per AQI, each that AQI's band colour |
| Visualizer.PredictionChart | module/visualizer.py:110-129 | "Predictions unavailable" exactly when the dates or the values are empty; otherwise one label per date, one colour per AQI, and the values or the AQIs as heights by metric |
| Visualizer.CreatePredictionColumnChart | module/visualizer.py:110-129 | the guard and label construction give `PredictionChart` |
| Visualizer.ChartBars | module/visualizer.py:115-129 | the chart's labels are `Day {i+1}<br>{date}` and its colours are `get_aqi_status_info`'s colours |

## Left out

- The OpenAQ client, `dotenv` and the API key are network I/O. Locations, sensors, measurements and
  pages are inputs. A call that raises is `Raised`, and the station loops treat it as the source's
  `except … continue` does.
- The JSON cache (`os.path.exists`, `read_json`, `to_json`, `makedirs`) is file I/O. A read is an input
  `Cache` value, and the write after a fetch is not modelled.
- `print` output and the console box drawn by `get_kpi_card` are not modelled. `KpiCard` returns the
  values the box shows.
- The `aqi` library (`to_aqi`, `to_iaqi`) is a foreign call. Both are function parameters returning
  an integer, and the EPA breakpoint table is not part of this model.
- Model and scaler loading (`load_models`, `joblib`) is file I/O. `predict_7_days` receives them as
  optional functions, and `scaler.transform` and `model.predict` are function parameters.
- `numpy` sine and cosine, the day-of-week and day-of-year calendar, and `sqrt` are floating-point or
  calendar library code. They are the `Numerics` parameter. `RollingStd` is the parameter's square
  root of the sample variance, which is proved non-negative.
- Floating point is real arithmetic. NaN is not modelled: `KpiCard` requires at least one value, where
  the source would average an empty column to NaN.
- Dates are integer day numbers. `strftime('%Y-%m-%d')`, the `%Y-%m-%d %H:%M` times of the ranking and
  time zones are not modelled. The chart's date strings are inputs.
- The `name` column of the daily frame is dropped by the group-by. It and the location ids in the
  error messages are not modelled.
- Plotly figure building, hover templates, `pio.to_html` and `create_hourly_line_chart` are rendering
  code. The chart is a `Chart` value holding labels, heights, colours and the y-axis title.
- `app.py`, `testing.py` and `console_app.py` are the web routes, a scratch script and an interactive
  shell. `app.py` unpacks the forecast as (dates, values, aqi): the order `predict_7_days` returns,
  (dates, aqi, values), with values and AQIs swapped. The model keeps the returned order.
- Text.Lower and Text.Strip: case folding and white space are ASCII only. Python's `str.lower` and
  `str.strip` also handle non-ASCII letters and spaces.
- OpenAq.SortDescendingFacts: Python's in-place list sort is modelled as a function (a stable insertion
  sort) on the scanned entries. The in-place mutation of `available_results` is not modelled.
- OpenAq.KpiStatus: the `<51`/`<101` chain is stated for integer AQIs. The library's `Decimal` values
  between integers are not modelled.
- OpenAq.GetDailyData and OpenAq.DailyOutcome: the hour column is the group-by's own key. Line 117's
  positional relabelling is modelled apart, by `RelabelAsWritten` (see Findings).
- OpenAq.HistoricOutcome: "No data found" is stated for the case without a usable sensor only. Stations
  whose pages are all empty give it too, and that case is stated only through `FrameOf`.
- Features.CreateFeatures: the seasonal values come from the `Numerics` parameter rather than from
  `sin`/`cos` of the date.

## Findings

| source | as written | input that shows it | evidently intended | confidence | as-written member | corrected member |
|---|---|---|---|---|---|---|
| module/openaq_api.py:117 | After the group-by, the frame's `time_to` column is overwritten with `pd.to_datetime(df['time_to'])`. That aligns the raw readings by row position, so row `i` of the hourly frame takes the floored time of raw reading `i`. | Station A reports 4.0 at 01:00:05. Station B then reports 2.0 at 00:00:10 and 6.0 at 01:00:20. The group-by gives (00:00, 2.0) and (01:00, 5.0), which line 117 relabels as (01:00, 2.0) and (00:00, 5.0). | Keep the group-by's own hour keys. The historic fetch (lines 218-225) has no such line. | not executed | OpenAq.Line117Misattributes | OpenAq.HourlyFrame |

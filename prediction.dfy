/**
 * `predict_7_days` (module/prediction.py): the daily series of the hourly rows,
 * its differences as the history, then seven steps each of which builds the
 * feature row, scales it and asks the regressor for the next difference.
 *
 * The scaler, the regressor and the AQI conversion are supplied by the caller;
 * a call that raises is `None`, and any raise turns the whole result into
 * three empty lists. Dates are day numbers (days since the epoch).
 */
module Prediction {

  import opened Options
  import opened Aggregation
  import opened Features
  import opened Series
  import opened Rollouts

  /** `scaler.transform` on one row; `None` when it raises. */
  type Scaler = seq<real> -> Option<seq<real>>

  /** `model.predict(...)[0]` on one scaled row; `None` when it raises. */
  type Regressor = seq<real> -> Option<real>

  /** `int(aqi.to_iaqi(POLLUTANT_PM25, value, algo=ALGO_EPA))`; `None` when it raises. */
  type Iaqi = int -> Option<int>

  /** Python's `round` on a float: the nearest integer, ties to the even one. */
  function RoundHalfEven(x: real): (n: int)
    ensures -0.5 <= n as real - x <= 0.5
    ensures (n as real - x == 0.5 || x - n as real == 0.5) ==> n % 2 == 0
  {
    var f := x.Floor;
    var frac := x - f as real;
    if frac < 0.5 then f
    else if frac > 0.5 then f + 1
    else if f % 2 == 0 then f
    else f + 1
  }

  /** An integer closer than one half to `x` is the rounding of `x`. */
  lemma RoundNearest(x: real, m: int)
    requires -0.5 < m as real - x < 0.5
    ensures RoundHalfEven(x) == m
  {
  }

  /** `round(2.5) == 2`, `round(3.5) == 4`, `round(2.6) == 3`. */
  lemma RoundExamples()
    ensures RoundHalfEven(2.5) == 2 && RoundHalfEven(3.5) == 4 && RoundHalfEven(2.6) == 3
  {
    assert (2.5).Floor == 2;
    assert (3.5).Floor == 3;
    assert (2.6).Floor == 2;
  }

  /** The difference the regressor predicts for `day` from history `h`, or `None` when a call raises. */
  function PredictDiff(h: seq<real>, day: int, scaler: Scaler, model: Regressor, num: Numerics): Option<real>
  {
    match scaler(FeatureVector(h, day, num))
    case None => None
    case Some(scaled) => model(scaled)
  }

  /** The feature row, the scaler and the regressor, composed into one predictor. */
  function StepPredictor(scaler: Scaler, model: Regressor, num: Numerics): Predictor
  {
    (h: seq<real>, day: int) => PredictDiff(h, day, scaler, model, num)
  }

  /** A scaler that never raises and a regressor that always answers `d` predict `d` for every day and history. */
  lemma ConstantPredictor(scaler: Scaler, model: Regressor, num: Numerics, d: real, h: seq<real>, day: int)
    requires forall x :: scaler(x).Some?
    requires forall x :: model(x) == Some(d)
    ensures StepPredictor(scaler, model, num)(h, day) == Some(d)
  {
    var row := FeatureVector(h, day, num);
    assert scaler(row).Some?;
    assert model(scaler(row).value) == Some(d);
  }

  /** The last value of the daily series (`df_daily['value'].iloc[-1]`). */
  function LastDaily(rows: seq<Reading>): real
    requires rows != []
  {
    var daily := DailySeries(rows);
    daily[|daily| - 1]
  }

  /**
   * The seven predicted values before rounding, from the history of daily
   * differences, the last daily value and the last day with data: the running
   * value of the rolled-out differences; `None` when a call raises.
   */
  function Forecast(history: seq<real>, lastValue: real, currentDate: int,
                    scaler: Scaler, model: Regressor, num: Numerics): (r: Option<seq<real>>)
    ensures r.Some? ==> |r.value| == Horizon
  {
    match Predicted(StepPredictor(scaler, model, num), history, currentDate + 1, Horizon)
    case None => None
    case Some(ds) => Some(Levels(lastValue, ds))
  }

  /** No forecast value is below zero (`max(0, ...)`). */
  lemma ForecastNonNegative(history: seq<real>, lastValue: real, currentDate: int,
                            scaler: Scaler, model: Regressor, num: Numerics)
    ensures var r := Forecast(history, lastValue, currentDate, scaler, model, num);
      r.Some? ==> forall k :: 0 <= k < Horizon ==> r.value[k] >= 0.0
  {
    var run := Predicted(StepPredictor(scaler, model, num), history, currentDate + 1, Horizon);
    if run.Some? {
      LevelsNonNegative(lastValue, run.value);
    }
  }

  /**
   * With a scaler that never raises, a regressor that always predicts `d` and a
   * last daily value `v0 >= 0`, day `k + 1` is forecast at `max(0, v0 + (k + 1)·d)`.
   */
  lemma ConstantModelForecast(history: seq<real>, v0: real, currentDate: int,
                              scaler: Scaler, model: Regressor, num: Numerics, d: real)
    requires v0 >= 0.0
    requires forall x :: scaler(x).Some?
    requires forall x :: model(x) == Some(d)
    ensures var r := Forecast(history, v0, currentDate, scaler, model, num);
      r.Some? && forall k :: 0 <= k < Horizon ==> r.value[k] == Clamp(v0 + (k + 1) as real * d)
  {
    var predict := StepPredictor(scaler, model, num);
    var day := currentDate + 1;
    var ds := seq(Horizon, _ => d);
    forall i | 0 <= i < Horizon
      ensures predict(history + ds[..i], day + i) == Some(ds[i])
    {
      ConstantPredictor(scaler, model, num, d, history + ds[..i], day + i);
    }
    HistoryPredicted(predict, history, day, Horizon, ds);
    forall k | 0 <= k < Horizon
      ensures Levels(v0, ds)[k] == Clamp(v0 + (k + 1) as real * d)
    {
      LevelsConstant(v0, d, ds, k);
    }
  }

  /** `create_features`, then the row in training column order (`pd.DataFrame([features], columns=feature_order)`). */
  method FeatureRow(history: seq<real>, nextDate: int, num: Numerics) returns (row: seq<real>)
    ensures row == FeatureVector(history, nextDate, num)
  {
    var features := CreateFeatures(history, nextDate, num);
    row := Vectorize(features);
  }

  /**
   * One step's calls: the feature row, `scaler.transform` and `model.predict`;
   * `None` when either of the two raises.
   */
  method PredictNextDiff(history: seq<real>, nextDate: int, scaler: Scaler, model: Regressor, num: Numerics)
    returns (predDiff: Option<real>)
    ensures predDiff == StepPredictor(scaler, model, num)(history, nextDate)
  {
    var row := FeatureRow(history, nextDate, num);
    var scaled := scaler(row);
    if scaled.None? {
      PredictorRaises(scaler, model, num, history, nextDate, row);
      return None;
    }
    predDiff := model(scaled.value);
    PredictorAnswers(scaler, model, num, history, nextDate, row);
  }

  /** The AQI of every rounded value, or `None` as soon as one conversion raises. */
  function AqiAll(values: seq<int>, iaqi: Iaqi): (r: Option<seq<int>>)
    ensures r.Some? <==> forall k :: 0 <= k < |values| ==> iaqi(values[k]).Some?
    ensures r.Some? ==> |r.value| == |values| && forall k :: 0 <= k < |values| ==> r.value[k] == iaqi(values[k]).value
  {
    if forall k :: 0 <= k < |values| ==> iaqi(values[k]).Some? then
      Some(seq(|values|, k requires 0 <= k < |values| => iaqi(values[k]).value))
    else None
  }

  /** The `n` days after `day`, in order. */
  function DaysAfter(day: int, n: nat): (r: seq<int>)
    ensures |r| == n
  {
    if n == 0 then [] else DaysAfter(day, n - 1) + [day + n]
  }

  /** Day `k` of them is `day + k + 1`. */
  lemma {:induction false} DaysAfterAt(day: int, n: nat)
    ensures forall k :: 0 <= k < n ==> DaysAfter(day, n)[k] == day + k + 1
  {
    if n > 0 {
      DaysAfterAt(day, n - 1);
    }
  }

  /** The values rounded with Python's `round`, in order. */
  function Rounded(vs: seq<real>): (r: seq<int>)
    ensures |r| == |vs|
  {
    if vs == [] then [] else Rounded(vs[..|vs| - 1]) + [RoundHalfEven(vs[|vs| - 1])]
  }

  /** Value `k` of the rounded values is value `k` rounded. */
  lemma {:induction false} RoundedAt(vs: seq<real>)
    ensures forall k :: 0 <= k < |vs| ==> Rounded(vs)[k] == RoundHalfEven(vs[k])
    decreases |vs|
  {
    if vs != [] {
      var init := vs[..|vs| - 1];
      RoundedAt(init);
      assert forall k :: 0 <= k < |init| ==> vs[k] == init[k];
    }
  }

  /**
   * The loop of `predict_7_days`: seven steps from the history `history0` of
   * daily differences, the last daily value `lastValue0` and the last day
   * `currentDate`. Its rounded values are those of the running values of the
   * predicted run, `None` when a call raises; its dates are the seven days
   * after `currentDate`.
   */
  method RollForward(history0: seq<real>, lastValue0: real, currentDate: int,
                     scaler: Scaler, model: Regressor, num: Numerics)
    returns (values: Option<seq<int>>, dates: seq<int>)
    ensures var run := Predicted(StepPredictor(scaler, model, num), history0, currentDate + 1, Horizon);
      match run
      case None => values.None?
      case Some(ds) => values == Some(Rounded(Levels(lastValue0, ds)))
    ensures values.Some? ==> dates == DaysAfter(currentDate, Horizon)
  {
    ghost var predict := StepPredictor(scaler, model, num);
    ghost var ds: seq<real> := [];
    var history := history0;
    var lastValue := lastValue0;
    var futureValues: seq<int> := [];
    var futureDates: seq<int> := [];
    for i := 1 to Horizon + 1
      invariant |ds| == i - 1
      invariant history == history0 + ds
      invariant Predicted(predict, history0, currentDate + 1, |ds|) == Some(ds)
      invariant lastValue == LastLevel(lastValue0, ds)
      invariant futureValues == Rounded(Levels(lastValue0, ds))
      invariant futureDates == DaysAfter(currentDate, |ds|)
    {
      var nextDate := currentDate + i;
      var predDiff := PredictNextDiff(history, nextDate, scaler, model, num);
      if predDiff.None? {
        PredictedSnocFails(predict, history0, currentDate + 1, ds, history, nextDate, Horizon);
        return None, [];
      }
      var predValue := Clamp(lastValue + predDiff.value);
      PredictedSnoc(predict, history0, currentDate + 1, ds, history, nextDate, predDiff.value);
      StepBookkeeping(lastValue0, ds, predDiff.value, lastValue, futureValues, futureDates, currentDate, nextDate);
      futureValues := futureValues + [RoundHalfEven(predValue)];
      futureDates := futureDates + [nextDate];
      history := history + [predDiff.value];
      ds := ds + [predDiff.value];
      lastValue := predValue;
    }
    return Some(futureValues), futureDates;
  }

  /** `int(aqi.to_iaqi(...))` of every rounded value, in order; `None` as soon as one conversion raises. */
  method ToAqis(values: seq<int>, iaqi: Iaqi) returns (r: Option<seq<int>>)
    ensures r == AqiAll(values, iaqi)
  {
    var aqis: seq<int> := [];
    for j := 0 to |values|
      invariant |aqis| == j
      invariant forall k :: 0 <= k < j ==> iaqi(values[k]).Some? && aqis[k] == iaqi(values[k]).value
    {
      var a := iaqi(values[j]);
      if a.None? {
        return None;
      }
      aqis := aqis + [a.value];
    }
    assert aqis == AqiAll(values, iaqi).value;
    return Some(aqis);
  }

  /**
   * What the rollout and the AQI conversion return from the prepared history,
   * last daily value and last day with data: three empty lists when a step
   * raises or one AQI conversion raises.
   */
  function RolloutOutcome(history: seq<real>, lastValue: real, currentDate: int,
                          scaler: Scaler, model: Regressor, num: Numerics, iaqi: Iaqi)
    : (seq<int>, seq<int>, seq<int>)
  {
    match Forecast(history, lastValue, currentDate, scaler, model, num)
    case None => ([], [], [])
    case Some(vs) =>
      var values := Rounded(vs);
      match AqiAll(values, iaqi)
      case None => ([], [], [])
      case Some(aqis) => (DaysAfter(currentDate, Horizon), aqis, values)
  }

  /**
   * What `predict_7_days` returns: three empty lists when the model or the
   * scaler is missing or there are no rows, otherwise the rollout's outcome from
   * the differences of the daily series. The three lists are empty together;
   * when they are not, they hold seven days, the days following the last day
   * with data, each with a value that is never negative and that value's AQI.
   */
  function Outcome(rows: seq<Reading>, scaler: Option<Scaler>, model: Option<Regressor>, num: Numerics, iaqi: Iaqi)
    : (out: (seq<int>, seq<int>, seq<int>))
    ensures model.None? || scaler.None? || rows == [] ==> out == ([], [], [])
    ensures (out.0 == [] <==> out.2 == []) && (out.1 == [] <==> out.2 == [])
    ensures out.2 != [] ==> rows != [] && |out.0| == Horizon && |out.1| == Horizon && |out.2| == Horizon
    ensures out.2 != [] ==> forall k :: 0 <= k < Horizon ==>
      && out.0[k] == LastBucket(rows, DayOf) + k + 1
      && out.2[k] >= 0
      && iaqi(out.2[k]) == Some(out.1[k])
  {
    if model.None? || scaler.None? || rows == [] then ([], [], [])
    else
      var currentDate := LastBucket(rows, DayOf);
      RolloutMeaning(Diffs(DailySeries(rows)), LastDaily(rows), currentDate, scaler.value, model.value, num, iaqi);
      ForecastNonNegative(Diffs(DailySeries(rows)), LastDaily(rows), currentDate, scaler.value, model.value, num);
      RolloutOutcome(Diffs(DailySeries(rows)), LastDaily(rows), currentDate,
                     scaler.value, model.value, num, iaqi)
  }

  /**
   * The outcome, day by day: empty exactly when a call raises; otherwise seven
   * entries, day `k` being the `k + 1`-th day after the last day with data, its
   * value the forecast rounded half to even and its AQI the conversion of that
   * rounded value.
   */
  lemma RolloutMeaning(history: seq<real>, lastValue: real, currentDate: int,
                       scaler: Scaler, model: Regressor, num: Numerics, iaqi: Iaqi)
    ensures var (dates, aqis, values) := RolloutOutcome(history, lastValue, currentDate, scaler, model, num, iaqi);
      var f := Forecast(history, lastValue, currentDate, scaler, model, num);
      && (values == [] <==> f.None? || exists k :: 0 <= k < Horizon && iaqi(Rounded(f.value)[k]).None?)
      && (values != [] ==>
            && f.Some? && |dates| == Horizon && |aqis| == Horizon && |values| == Horizon
            && forall k :: 0 <= k < Horizon ==>
                 && dates[k] == currentDate + k + 1
                 && values[k] == RoundHalfEven(f.value[k])
                 && aqis[k] == iaqi(values[k]).value)
      && (dates == [] <==> values == []) && (aqis == [] <==> values == [])
  {
    var f := Forecast(history, lastValue, currentDate, scaler, model, num);
    if f.Some? {
      RoundedAt(f.value);
      DaysAfterAt(currentDate, Horizon);
    }
  }

  /**
   * The `try` body of `predict_7_days` after the daily series is prepared: the
   * seven-step rollout, then the AQI of every rounded value.
   */
  method Rollout(history: seq<real>, lastValue: real, currentDate: int,
                 scaler: Scaler, model: Regressor, num: Numerics, iaqi: Iaqi)
    returns (dates: seq<int>, aqis: seq<int>, values: seq<int>)
    ensures (dates, aqis, values) == RolloutOutcome(history, lastValue, currentDate, scaler, model, num, iaqi)
  {
    var futureValues, futureDates := RollForward(history, lastValue, currentDate, scaler, model, num);
    if futureValues.None? {
      return [], [], [];
    }
    var futureAqis := ToAqis(futureValues.value, iaqi);
    if futureAqis.None? {
      return [], [], [];
    }
    return futureDates, futureAqis.value, futureValues.value;
  }

  /**
   * `predict_7_days`: resamples and differences the rows, rolls the predictor
   * forward seven days, rounds and converts; any failure gives three empty lists.
   */
  method Predict7Days(rows: seq<Reading>, scaler: Option<Scaler>, model: Option<Regressor>, num: Numerics, iaqi: Iaqi)
    returns (dates: seq<int>, aqis: seq<int>, values: seq<int>)
    ensures (dates, aqis, values) == Outcome(rows, scaler, model, num, iaqi)
  {
    if model.None? || scaler.None? {
      return [], [], [];
    }
    if rows == [] {
      return [], [], [];
    }
    var daily := DailySeries(rows);
    var history := Diffs(daily);
    var lastValue := daily[|daily| - 1];
    var currentDate := LastBucket(rows, DayOf);
    dates, aqis, values := Rollout(history, lastValue, currentDate, scaler.value, model.value, num, iaqi);
  }

  /** When the scaler raises on the feature row, the step's prediction raises. */
  lemma PredictorRaises(scaler: Scaler, model: Regressor, num: Numerics, h: seq<real>, day: int, row: seq<real>)
    requires row == FeatureVector(h, day, num) && scaler(row).None?
    ensures StepPredictor(scaler, model, num)(h, day).None?
  {
  }

  /** When the scaler accepts the feature row, the step's prediction is the regressor's answer on the scaled row. */
  lemma PredictorAnswers(scaler: Scaler, model: Regressor, num: Numerics, h: seq<real>, day: int, row: seq<real>)
    requires row == FeatureVector(h, day, num) && scaler(row).Some?
    ensures StepPredictor(scaler, model, num)(h, day) == model(scaler(row).value)
  {
  }

  /** The running value, the rounded values and the dates after one more difference `d`. */
  lemma StepBookkeeping(lastValue0: real, ds: seq<real>, d: real, lastValue: real,
                        futureValues: seq<int>, futureDates: seq<int>, currentDate: int, nextDate: int)
    requires lastValue == LastLevel(lastValue0, ds)
    requires futureValues == Rounded(Levels(lastValue0, ds))
    requires futureDates == DaysAfter(currentDate, |ds|) && nextDate == currentDate + |ds| + 1
    ensures Clamp(lastValue + d) == LastLevel(lastValue0, ds + [d])
    ensures futureValues + [RoundHalfEven(Clamp(lastValue + d))] == Rounded(Levels(lastValue0, ds + [d]))
    ensures futureDates + [nextDate] == DaysAfter(currentDate, |ds + [d]|)
  {
    LevelsSnoc(lastValue0, ds, d);
    RoundedSnoc(Levels(lastValue0, ds), Clamp(lastValue + d));
  }

  /** Rounding one more value appends its rounding. */
  lemma RoundedSnoc(vs: seq<real>, v: real)
    ensures Rounded(vs + [v]) == Rounded(vs) + [RoundHalfEven(v)]
  {
    assert (vs + [v])[..|vs|] == vs;
  }

}

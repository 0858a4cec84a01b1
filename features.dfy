/**
 * The feature vector that `create_features` in module/prediction.py builds
 * from the history of daily first differences and the date being predicted:
 * nine lags, two rolling statistics over the last seven entries and four
 * seasonal terms, laid out in the column order the regressor was trained on.
 */
module Features {

  import opened Aggregation
  import Text

  /** How many entries back a lag looks: at least one. */
  type LagDistance = n: nat | n >= 1 witness 1

  datatype Feature =
    | Lag(n: LagDistance)
    | RollingMean7
    | RollingStd7
    | DayOfWeekSin
    | DayOfWeekCos
    | DayOfYearSin
    | DayOfYearCos

  /** `feature_order`: the column order of the frame handed to the scaler. */
  const FeatureOrder: seq<Feature> := [
    Lag(1), Lag(2), Lag(3), Lag(4), Lag(5), Lag(6), Lag(7), Lag(14), Lag(30),
    RollingMean7, RollingStd7, DayOfWeekSin, DayOfWeekCos, DayOfYearSin, DayOfYearCos
  ]

  /** The features `create_features` fills in, as a set. */
  const FeatureSet: set<Feature> := {
    Lag(1), Lag(2), Lag(3), Lag(4), Lag(5), Lag(6), Lag(7), Lag(14), Lag(30),
    RollingMean7, RollingStd7, DayOfWeekSin, DayOfWeekCos, DayOfYearSin, DayOfYearCos
  }

  /** The dictionary key of a feature. */
  function ColumnName(f: Feature): string
  {
    match f
    case Lag(n) => "lag_" + Text.NatToString(n)
    case RollingMean7 => "rolling_mean_7"
    case RollingStd7 => "rolling_std_7"
    case DayOfWeekSin => "day_of_week_sin"
    case DayOfWeekCos => "day_of_week_cos"
    case DayOfYearSin => "day_of_year_sin"
    case DayOfYearCos => "day_of_year_cos"
  }

  /** The column names the regressor was trained on, in order. */
  const TrainedColumns: seq<string> := [
    "lag_1", "lag_2", "lag_3", "lag_4", "lag_5", "lag_6", "lag_7", "lag_14", "lag_30",
    "rolling_mean_7", "rolling_std_7",
    "day_of_week_sin", "day_of_week_cos", "day_of_year_sin", "day_of_year_cos"
  ]

  /** The decimal renderings of the lag distances. */
  lemma LagDigits()
    ensures Text.NatToString(1) == "1" && Text.NatToString(2) == "2" && Text.NatToString(3) == "3"
    ensures Text.NatToString(4) == "4" && Text.NatToString(5) == "5" && Text.NatToString(6) == "6"
    ensures Text.NatToString(7) == "7" && Text.NatToString(14) == "14" && Text.NatToString(30) == "30"
  {
    assert Text.NatToString(14) == Text.NatToString(1) + [Text.Digit(4)];
    assert Text.NatToString(30) == Text.NatToString(3) + [Text.Digit(0)];
  }

  /** The keys `create_features` writes (`f'lag_{lag}'` and the rest) are the trained column names, in order. */
  lemma ColumnNamesMatchTraining()
    ensures |FeatureOrder| == |TrainedColumns|
    ensures forall i :: 0 <= i < |FeatureOrder| ==> ColumnName(FeatureOrder[i]) == TrainedColumns[i]
  {
    LagDigits();
  }

  /**
   * The four seasonal terms of a date: sin and cos of 2π·weekday/7 and of
   * 2π·day-of-year/365.25. Trigonometry and the calendar are supplied by the caller.
   */
  datatype Seasonal = Seasonal(weekSin: real, weekCos: real, yearSin: real, yearCos: real)

  /** The numeric services the feature builder borrows from numpy and pandas. */
  datatype Numerics = Numerics(sqrt: real -> real, seasonal: int -> Seasonal)

  /**
   * `get_lag(data, n)`: the entry n positions from the end, or 0.0 when the
   * history is shorter. What makes it a lag is LagAfterAppend below.
   */
  function GetLag(data: seq<real>, n: nat): (r: real)
    requires n >= 1
    ensures |data| >= n ==> r == data[|data| - n]
    ensures |data| < n ==> r == 0.0
  {
    if |data| >= n then data[|data| - n] else 0.0
  }

  /** Appending an entry makes it lag 1 and shifts every other lag by one. */
  lemma LagAfterAppend(data: seq<real>, x: real, n: nat)
    requires n >= 1
    ensures GetLag(data + [x], 1) == x
    ensures GetLag(data + [x], n + 1) == GetLag(data, n)
  {
  }

  /** `diff_history[-30:] if len(diff_history) >= 30 else diff_history`. */
  function Recent(h: seq<real>): (r: seq<real>)
    ensures |r| == if |h| >= 30 then 30 else |h|
    ensures r == h[|h| - |r|..]
  {
    if |h| >= 30 then h[|h| - 30..] else h
  }

  function SumSquares(s: seq<real>, m: real): real
  {
    if s == [] then 0.0 else (s[0] - m) * (s[0] - m) + SumSquares(s[1..], m)
  }

  /** pandas' `std()` squared: the sample variance, with one degree of freedom removed. */
  function SampleVariance(s: seq<real>): real
    requires |s| >= 2
  {
    SumSquares(s, Mean(s)) / (|s| - 1) as real
  }

  lemma {:induction false} SumSquaresNonNegative(s: seq<real>, m: real)
    ensures SumSquares(s, m) >= 0.0
  {
    if s != [] {
      SumSquaresNonNegative(s[1..], m);
      var d := s[0] - m;
      assert d * d >= 0.0 by {
        if d < 0.0 { assert d * d == (-d) * (-d); }
      }
    }
  }

  /** The variance under the square root of `rolling_std_7` is never negative. */
  lemma SampleVarianceNonNegative(s: seq<real>)
    requires |s| >= 2
    ensures SampleVariance(s) >= 0.0
  {
    SumSquaresNonNegative(s, Mean(s));
  }

  /**
   * `rolling_mean_7`: the mean of the last seven entries, 0.0 while there are
   * fewer; it lies between the smallest and the largest of those seven.
   */
  function RollingMean(h: seq<real>): (r: real)
    ensures |h| < 7 ==> r == 0.0
    ensures |h| >= 7 ==> exists i :: |h| - 7 <= i < |h| && h[i] <= r
    ensures |h| >= 7 ==> exists j :: |h| - 7 <= j < |h| && r <= h[j]
  {
    if |h| >= 7 then
      WindowMean(h);
      Mean(h[|h| - 7..])
    else 0.0
  }

  /** The mean of the last seven entries is at least one of them and at most one of them. */
  lemma WindowMean(h: seq<real>)
    requires |h| >= 7
    ensures exists i :: |h| - 7 <= i < |h| && h[i] <= Mean(h[|h| - 7..])
    ensures exists j :: |h| - 7 <= j < |h| && Mean(h[|h| - 7..]) <= h[j]
  {
    var w := h[|h| - 7..];
    MeanWithinValues(w);
    var i :| 0 <= i < |w| && w[i] <= Mean(w);
    var j :| 0 <= j < |w| && Mean(w) <= w[j];
    assert h[|h| - 7 + i] == w[i] && h[|h| - 7 + j] == w[j];
  }

  /**
   * `rolling_std_7`: the sample deviation of the last seven entries, 0.0 while
   * there are fewer; never negative when the square root is not.
   */
  function RollingStd(h: seq<real>, sqrt: real -> real): (r: real)
    ensures |h| < 7 ==> r == 0.0
    ensures (forall x :: 0.0 <= x ==> 0.0 <= sqrt(x)) ==> 0.0 <= r
  {
    if |h| >= 7 then
      SampleVarianceNonNegative(h[|h| - 7..]);
      sqrt(SampleVariance(h[|h| - 7..]))
    else 0.0
  }

  /** Seven equal last entries have deviation `sqrt(0)`: a flat week does not spread. */
  lemma RollingStdFlat(h: seq<real>, sqrt: real -> real, c: real)
    requires |h| >= 7
    requires forall i :: |h| - 7 <= i < |h| ==> h[i] == c
    ensures RollingStd(h, sqrt) == sqrt(0.0)
  {
    var w := h[|h| - 7..];
    assert forall k :: 0 <= k < |w| ==> w[k] == c by {
      forall k | 0 <= k < |w| ensures w[k] == c {
        assert w[k] == h[|h| - 7 + k];
      }
    }
    MeanBetween(w, c, c);
    SumSquaresFlat(w, c);
  }

  /** Squared distances from the common value of equal entries add up to zero. */
  lemma {:induction false} SumSquaresFlat(s: seq<real>, c: real)
    requires forall k :: 0 <= k < |s| ==> s[k] == c
    ensures SumSquares(s, c) == 0.0
  {
    if s != [] {
      SumSquaresFlat(s[1..], c);
    }
  }

  /** Cutting the history to its last 30 entries first changes neither rolling statistic. */
  lemma RollingOfRecent(h: seq<real>, sqrt: real -> real)
    ensures RollingMean(Recent(h)) == RollingMean(h)
    ensures RollingStd(Recent(h), sqrt) == RollingStd(h, sqrt)
  {
    var r := Recent(h);
    if |r| >= 7 {
      assert r[|r| - 7..] == h[|h| - 7..];
    }
  }

  /** The value `create_features` stores under a feature's key. */
  function FeatureValue(h: seq<real>, day: int, num: Numerics, f: Feature): real
  {
    match f
    case Lag(n) => GetLag(h, n)
    case RollingMean7 => RollingMean(h)
    case RollingStd7 => RollingStd(h, num.sqrt)
    case DayOfWeekSin => num.seasonal(day).weekSin
    case DayOfWeekCos => num.seasonal(day).weekCos
    case DayOfYearSin => num.seasonal(day).yearSin
    case DayOfYearCos => num.seasonal(day).yearCos
  }

  /** The values of the features `fs`, in order. */
  function Columns(h: seq<real>, day: int, num: Numerics, fs: seq<Feature>): (x: seq<real>)
    ensures |x| == |fs|
    ensures forall i :: 0 <= i < |fs| ==> x[i] == FeatureValue(h, day, num, fs[i])
  {
    if fs == [] then [] else [FeatureValue(h, day, num, fs[0])] + Columns(h, day, num, fs[1..])
  }

  /** The row the regressor sees: each feature's value, in column order. */
  function FeatureVector(h: seq<real>, day: int, num: Numerics): (x: seq<real>)
    ensures |x| == |FeatureOrder|
  {
    Columns(h, day, num, FeatureOrder)
  }

  /** `pd.DataFrame([features], columns=feature_order)`: the dictionary laid out in column order. */
  function Vectorize(features: map<Feature, real>): (x: seq<real>)
    requires forall i :: 0 <= i < |FeatureOrder| ==> FeatureOrder[i] in features
    ensures |x| == |FeatureOrder|
    ensures forall i :: 0 <= i < |x| ==> x[i] == features[FeatureOrder[i]]
  {
    seq(|FeatureOrder|, i requires 0 <= i < |FeatureOrder| => features[FeatureOrder[i]])
  }

  /** Laying out a dictionary that holds every feature's value in `feature_order` gives the positional row. */
  lemma VectorLayout(features: map<Feature, real>, h: seq<real>, day: int, num: Numerics)
    requires forall k :: 1 <= k < 8 ==> Lag(k) in features && features[Lag(k)] == GetLag(h, k)
    requires Lag(14) in features && features[Lag(14)] == GetLag(h, 14)
    requires Lag(30) in features && features[Lag(30)] == GetLag(h, 30)
    requires RollingMean7 in features && features[RollingMean7] == RollingMean(h)
    requires RollingStd7 in features && features[RollingStd7] == RollingStd(h, num.sqrt)
    requires DayOfWeekSin in features && features[DayOfWeekSin] == num.seasonal(day).weekSin
    requires DayOfWeekCos in features && features[DayOfWeekCos] == num.seasonal(day).weekCos
    requires DayOfYearSin in features && features[DayOfYearSin] == num.seasonal(day).yearSin
    requires DayOfYearCos in features && features[DayOfYearCos] == num.seasonal(day).yearCos
    ensures forall i :: 0 <= i < |FeatureOrder| ==> FeatureOrder[i] in features
    ensures Vectorize(features) == FeatureVector(h, day, num)
  {
    forall i | 0 <= i < |FeatureOrder|
      ensures FeatureOrder[i] in features && features[FeatureOrder[i]] == FeatureValue(h, day, num, FeatureOrder[i])
    {
    }
  }

  /** The keys the lag loop leaves behind are lags 1 to 7. */
  lemma LoopKeys(lags: map<Feature, real>)
    requires forall f :: f in lags ==> f.Lag? && 1 <= f.n < 8
    requires forall k :: 1 <= k < 8 ==> Lag(k) in lags
    ensures lags.Keys == {Lag(1), Lag(2), Lag(3), Lag(4), Lag(5), Lag(6), Lag(7)}
  {
    forall f | f in lags
      ensures f in {Lag(1), Lag(2), Lag(3), Lag(4), Lag(5), Lag(6), Lag(7)}
    {
      assert f == Lag(f.n);
    }
  }

  /** Completing the lag loop's dictionary with the eight remaining entries gives every key of `feature_order`, each with its own value. */
  lemma Completed(lags: map<Feature, real>, lag14: real, lag30: real, mean: real, std: real,
                  weekSin: real, weekCos: real, yearSin: real, yearCos: real)
    requires lags.Keys == {Lag(1), Lag(2), Lag(3), Lag(4), Lag(5), Lag(6), Lag(7)}
    ensures var m := lags[Lag(14) := lag14][Lag(30) := lag30][RollingMean7 := mean][RollingStd7 := std]
                         [DayOfWeekSin := weekSin][DayOfWeekCos := weekCos][DayOfYearSin := yearSin][DayOfYearCos := yearCos];
      && m.Keys == FeatureSet
      && (forall k :: 1 <= k < 8 ==> m[Lag(k)] == lags[Lag(k)])
      && m[Lag(14)] == lag14 && m[Lag(30)] == lag30 && m[RollingMean7] == mean && m[RollingStd7] == std
      && m[DayOfWeekSin] == weekSin && m[DayOfWeekCos] == weekCos
      && m[DayOfYearSin] == yearSin && m[DayOfYearCos] == yearCos
  {
  }

  /**
   * `create_features`: fills the dictionary, the seven short lags in a loop,
   * then lags 14 and 30, the rolling statistics and the seasonal terms; laid
   * out in column order it is the row the regressor expects.
   */
  method CreateFeatures(h: seq<real>, nextDay: int, num: Numerics) returns (features: map<Feature, real>)
    ensures features.Keys == FeatureSet
    ensures forall k :: 1 <= k < 8 ==> features[Lag(k)] == GetLag(h, k)
    ensures features[Lag(14)] == GetLag(h, 14) && features[Lag(30)] == GetLag(h, 30)
    ensures features[RollingMean7] == RollingMean(h) && features[RollingStd7] == RollingStd(h, num.sqrt)
    ensures features[DayOfWeekSin] == num.seasonal(nextDay).weekSin
    ensures features[DayOfWeekCos] == num.seasonal(nextDay).weekCos
    ensures features[DayOfYearSin] == num.seasonal(nextDay).yearSin
    ensures features[DayOfYearCos] == num.seasonal(nextDay).yearCos
    ensures Vectorize(features) == FeatureVector(h, nextDay, num)
  {
    features := map[];
    for lag := 1 to 8
      invariant forall f :: f in features ==> f.Lag? && 1 <= f.n < lag
      invariant forall k :: 1 <= k < lag ==> Lag(k) in features && features[Lag(k)] == GetLag(h, k)
    {
      features := features[Lag(lag) := GetLag(h, lag)];
    }
    LoopKeys(features);
    ghost var lags := features;
    features := features[Lag(14) := GetLag(h, 14)];
    features := features[Lag(30) := GetLag(h, 30)];
    var recent := if |h| >= 30 then h[|h| - 30..] else h;
    var window := if |recent| >= 7 then recent[|recent| - 7..] else [];
    var mean := if |recent| >= 7 then Mean(window) else 0.0;
    var std := if |recent| >= 7 then num.sqrt(SampleVariance(window)) else 0.0;
    features := features[RollingMean7 := mean];
    features := features[RollingStd7 := std];
    var season := num.seasonal(nextDay);
    features := features[DayOfWeekSin := season.weekSin];
    features := features[DayOfWeekCos := season.weekCos];
    features := features[DayOfYearSin := season.yearSin];
    features := features[DayOfYearCos := season.yearCos];
    Completed(lags, GetLag(h, 14), GetLag(h, 30), mean, std, season.weekSin, season.weekCos, season.yearSin, season.yearCos);
    assert recent == Recent(h);
    RollingOfRecent(h, num.sqrt);
    VectorLayout(features, h, nextDay, num);
  }

}

/**
 * The rollout loop of `predict_7_days` (module/prediction.py), over any
 * predictor of the next day's difference. Each step asks for the difference
 * from the history so far and appends it to the history the next step sees;
 * the running value is the previous one plus the difference, clamped at zero.
 * The history holds differences only, so the values never feed back into a
 * prediction: the run is the predicted differences, and the values follow
 * from them. A call that raises is `None` and ends the whole run.
 */
module Rollouts {

  import opened Options

  /** The difference predicted for a day from a history, or `None` when a call raises. */
  type Predictor = (seq<real>, int) -> Option<real>

  /** The number of days predicted (`range(1, 8)`). */
  const Horizon: nat := 7

  /** `max(0, x)`. */
  function Clamp(x: real): (r: real)
    ensures r >= 0.0 && r >= x
    ensures r == x || r == 0.0
  {
    if x > 0.0 then x else 0.0
  }

  /** `prefix` in front of the run `rest`, or `None` when `rest` failed. */
  function Then(prefix: seq<real>, rest: Option<seq<real>>): Option<seq<real>>
  {
    match rest
    case None => None
    case Some(ds) => Some(prefix + ds)
  }

  /**
   * The differences predicted for `n` days from `day` on, each day's prediction
   * appended to the history before the next one is asked; `None` as soon as one
   * call raises, so that no partial run survives.
   */
  function Predicted(predict: Predictor, h: seq<real>, day: int, n: nat): (r: Option<seq<real>>)
    ensures r.Some? ==> |r.value| == n
    decreases n
  {
    if n == 0 then Some([])
    else
      match predict(h, day)
      case None => None
      case Some(d) => Then([d], Predicted(predict, h + [d], day + 1, n - 1))
  }

  /** A successful run is its first prediction followed by the run from the history grown by it. */
  lemma PredictedUnfold(predict: Predictor, h: seq<real>, day: int, n: nat)
    requires n > 0 && Predicted(predict, h, day, n).Some?
    ensures predict(h, day).Some?
    ensures var d := predict(h, day).value;
      Predicted(predict, h + [d], day + 1, n - 1).Some?
      && Predicted(predict, h, day, n).value == [d] + Predicted(predict, h + [d], day + 1, n - 1).value
  {
  }

  /**
   * Day `i` of a successful run is predicted from the history grown by exactly
   * the differences of the days before it.
   */
  lemma {:induction false} PredictedHistory(predict: Predictor, h: seq<real>, day: int, n: nat, ds: seq<real>, i: nat)
    requires Predicted(predict, h, day, n) == Some(ds) && i < n
    ensures predict(h + ds[..i], day + i) == Some(ds[i])
    decreases n
  {
    PredictedUnfold(predict, h, day, n);
    var d := predict(h, day).value;
    var rest := Predicted(predict, h + [d], day + 1, n - 1).value;
    assert ds == [d] + rest;
    if i == 0 {
      assert h + ds[..0] == h;
    } else {
      PredictedHistory(predict, h + [d], day + 1, n - 1, rest, i - 1);
      assert ds[..i] == [d] + rest[..i - 1];
      assert h + ds[..i] == (h + [d]) + rest[..i - 1];
      assert ds[i] == rest[i - 1];
    }
  }

  /**
   * Conversely, `n` differences each of which the predictor gives from the
   * history grown by the ones before it are the run.
   */
  lemma {:induction false} HistoryPredicted(predict: Predictor, h: seq<real>, day: int, n: nat, ds: seq<real>)
    requires |ds| == n
    requires forall i :: 0 <= i < n ==> predict(h + ds[..i], day + i) == Some(ds[i])
    ensures Predicted(predict, h, day, n) == Some(ds)
    decreases n
  {
    if n > 0 {
      assert h + ds[..0] == h;
      var rest := ds[1..];
      forall i | 0 <= i < n - 1
        ensures predict((h + [ds[0]]) + rest[..i], (day + 1) + i) == Some(rest[i])
      {
        assert ds[..i + 1] == [ds[0]] + rest[..i];
        assert h + ds[..i + 1] == (h + [ds[0]]) + rest[..i];
      }
      HistoryPredicted(predict, h + [ds[0]], day + 1, n - 1, rest);
      assert ds == [ds[0]] + rest;
    }
  }

  /**
   * A run of `|ds|` days that gave `ds`, followed by a call that answers `d`
   * from the history grown by `ds`, is a run of one day more that gave `ds + [d]`.
   */
  lemma {:induction false} PredictedSnoc(predict: Predictor, h: seq<real>, day: int, ds: seq<real>,
                                         hs: seq<real>, next: int, d: real)
    requires Predicted(predict, h, day, |ds|) == Some(ds)
    requires hs == h + ds && next == day + |ds| && predict(hs, next) == Some(d)
    ensures Predicted(predict, h, day, |ds + [d]|) == Some(ds + [d])
    decreases |ds|
  {
    if ds == [] {
      assert hs == h && next == day;
      assert Predicted(predict, h + [d], day + 1, 0) == Some([]);
      assert [d] + [] == [] + [d];
    } else {
      PredictedUnfold(predict, h, day, |ds|);
      var d0 := predict(h, day).value;
      var rest := ds[1..];
      assert ds == [d0] + rest;
      assert (h + [d0]) + rest == hs;
      PredictedSnoc(predict, h + [d0], day + 1, rest, hs, next, d);
      assert ds + [d] == [d0] + (rest + [d]);
    }
  }

  /**
   * A run of `|ds|` days that gave `ds`, followed by a call that raises, makes
   * every longer run fail.
   */
  lemma {:induction false} PredictedSnocFails(predict: Predictor, h: seq<real>, day: int, ds: seq<real>,
                                              hs: seq<real>, next: int, n: nat)
    requires Predicted(predict, h, day, |ds|) == Some(ds) && |ds| < n
    requires hs == h + ds && next == day + |ds| && predict(hs, next).None?
    ensures Predicted(predict, h, day, n).None?
    decreases |ds|
  {
    if ds == [] {
      assert h + [] == h;
    } else {
      PredictedUnfold(predict, h, day, |ds|);
      var d0 := predict(h, day).value;
      var rest := ds[1..];
      assert ds == [d0] + rest;
      assert (h + [d0]) + rest == hs;
      PredictedSnocFails(predict, h + [d0], day + 1, rest, hs, next, n - 1);
    }
  }

  /** A run fails exactly when one of its calls raises: the first call that does ends it. */
  lemma {:induction false} PredictedFails(predict: Predictor, h: seq<real>, day: int, n: nat)
    requires Predicted(predict, h, day, n).None?
    ensures n > 0
    ensures predict(h, day).None? || Predicted(predict, h + [predict(h, day).value], day + 1, n - 1).None?
  {
  }

  /** The running values: each is the previous one plus the next difference, clamped at zero. */
  function Levels(last: real, ds: seq<real>): (vs: seq<real>)
    ensures |vs| == |ds|
    decreases |ds|
  {
    if ds == [] then [] else
      var v := Clamp(last + ds[0]);
      [v] + Levels(v, ds[1..])
  }

  /** No running value is below zero. */
  lemma {:induction false} LevelsNonNegative(last: real, ds: seq<real>)
    ensures forall i :: 0 <= i < |ds| ==> Levels(last, ds)[i] >= 0.0
    decreases |ds|
  {
    if ds != [] {
      LevelsNonNegative(Clamp(last + ds[0]), ds[1..]);
    }
  }

  /** Value `i` is value `i - 1` (or the start value) plus difference `i`, clamped at zero. */
  lemma {:induction false} LevelsStep(last: real, ds: seq<real>, i: nat)
    requires i < |ds|
    ensures var vs := Levels(last, ds);
      vs[i] == Clamp((if i == 0 then last else vs[i - 1]) + ds[i])
    decreases i
  {
    if i > 0 {
      var v := Clamp(last + ds[0]);
      LevelsStep(v, ds[1..], i - 1);
    }
  }

  /** The running value after the differences `ds`: the start value when there are none. */
  function LastLevel(last: real, ds: seq<real>): real
  {
    if ds == [] then last else Levels(last, ds)[|ds| - 1]
  }

  /** One more difference adds one more value, taken from the last one. */
  lemma {:induction false} LevelsSnoc(last: real, ds: seq<real>, d: real)
    ensures Levels(last, ds + [d]) == Levels(last, ds) + [Clamp(LastLevel(last, ds) + d)]
    ensures LastLevel(last, ds + [d]) == Clamp(LastLevel(last, ds) + d)
    decreases |ds|
  {
    if ds != [] {
      var v := Clamp(last + ds[0]);
      assert (ds + [d])[1..] == ds[1..] + [d];
      LevelsSnoc(v, ds[1..], d);
    }
  }

  /** `d` added up `n` times. */
  function Times(n: nat, d: real): real
  {
    if n == 0 then 0.0 else Times(n - 1, d) + d
  }

  /** Adding `d` up `n` times is multiplying it by `n`. */
  lemma {:induction false} TimesIsProduct(n: nat, d: real)
    ensures Times(n, d) == n as real * d
  {
    if n > 0 {
      TimesIsProduct(n - 1, d);
      assert n as real * d == (n - 1) as real * d + d;
    }
  }

  /** Once clamped at `v0 + n·d` with `v0 >= 0`, one more step of `d` is `v0 + (n + 1)·d`, clamped. */
  lemma ClampShift(v0: real, d: real, n: nat)
    requires v0 >= 0.0
    ensures Clamp(Clamp(v0 + Times(n, d)) + d) == Clamp(v0 + Times(n + 1, d))
  {
    if v0 + Times(n, d) <= 0.0 && d > 0.0 {
      TimesIsProduct(n, d);
      assert n as real * d >= 0.0;
    }
  }

  /** With every difference `d` and a start `v0 >= 0`, value `i` is `max(0, v0 + (i + 1)·d)`. */
  lemma LevelsConstant(v0: real, d: real, ds: seq<real>, i: nat)
    requires v0 >= 0.0
    requires forall k :: 0 <= k < |ds| ==> ds[k] == d
    requires i < |ds|
    ensures Levels(v0, ds)[i] == Clamp(v0 + (i + 1) as real * d)
  {
    LevelsConstantAt(v0, d, ds, i);
    TimesIsProduct(i + 1, d);
    assert Clamp(v0 + Times(i + 1, d)) == Clamp(v0 + (i + 1) as real * d);
  }

  /** LevelsConstant, with the multiple of `d` written as a repeated sum. */
  lemma {:induction false} LevelsConstantAt(v0: real, d: real, ds: seq<real>, i: nat)
    requires v0 >= 0.0
    requires forall k :: 0 <= k < |ds| ==> ds[k] == d
    requires i < |ds|
    ensures Levels(v0, ds)[i] == Clamp(v0 + Times(i + 1, d))
    decreases i
  {
    LevelsStep(v0, ds, i);
    if i == 0 {
      assert Times(1, d) == d;
    } else {
      LevelsConstantAt(v0, d, ds, i - 1);
      ClampShift(v0, d, i);
    }
  }

}

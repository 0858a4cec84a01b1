/**
 * The daily series `predict_7_days` (module/prediction.py) prepares before the
 * rollout: the daily resample of the hourly rows, pandas' linear
 * interpolation of the empty days, and the first differences that become the
 * model's history.
 */
module Series {

  import opened Options
  import opened Aggregation

  /** The nearest day at or before `i` that has a value. */
  function KnownAtOrBefore(s: seq<Option<real>>, i: nat): (p: nat)
    requires i < |s| && s[0].Some?
    ensures p <= i && s[p].Some?
    ensures forall j :: p < j <= i ==> s[j].None?
  {
    if s[i].Some? then i else KnownAtOrBefore(s, i - 1)
  }

  /** The nearest day at or after `i` that has a value. */
  function KnownAtOrAfter(s: seq<Option<real>>, i: nat): (q: nat)
    requires i < |s| && s[|s| - 1].Some?
    ensures i <= q < |s| && s[q].Some?
    ensures forall j :: i <= j < q ==> s[j].None?
    decreases |s| - i
  {
    if s[i].Some? then i else KnownAtOrAfter(s, i + 1)
  }

  /** The point at position `j` of the straight line through `(p, a)` and `(q, b)`. */
  function OnLine(a: real, b: real, p: int, q: int, j: int): real
    requires p < q
  {
    a + (b - a) * ((j - p) as real / (q - p) as real)
  }

  /** The value `interpolate(method='linear')` gives day `i`. */
  function Fill(s: seq<Option<real>>, i: nat): real
    requires i < |s| && s[0].Some? && s[|s| - 1].Some?
  {
    if s[i].Some? then s[i].value
    else
      var p, q := KnownAtOrBefore(s, i), KnownAtOrAfter(s, i);
      OnLine(s[p].value, s[q].value, p, q, i)
  }

  /**
   * `interpolate(method='linear')` on a series whose first and last entries are
   * known: known days keep their value, every other day is filled.
   */
  function Interpolate(s: seq<Option<real>>): (v: seq<real>)
    requires |s| > 0 && s[0].Some? && s[|s| - 1].Some?
    ensures |v| == |s|
    ensures forall i :: 0 <= i < |s| && s[i].Some? ==> v[i] == s[i].value
  {
    seq(|s|, i requires 0 <= i < |s| => Fill(s, i))
  }

  /** Both ends of a line segment are the points it was drawn through. */
  lemma OnLineEnds(a: real, b: real, p: int, q: int)
    requires p < q
    ensures OnLine(a, b, p, q, p) == a
    ensures OnLine(a, b, p, q, q) == b
  {
    assert (q - p) as real / (q - p) as real == 1.0;
  }

  /** Between its ends a segment stays between the two values. */
  lemma OnLineBetween(a: real, b: real, p: int, q: int, j: int)
    requires p <= j <= q && p < q
    ensures a <= b ==> a <= OnLine(a, b, p, q, j) <= b
    ensures b <= a ==> b <= OnLine(a, b, p, q, j) <= a
  {
    var t := (j - p) as real / (q - p) as real;
    Fraction((j - p) as real, (q - p) as real);
    Between(a, b - a, t);
  }

  /** Moving from `a` by a fraction `t` in [0, 1] of `d` stays between `a` and `a + d`. */
  lemma Between(a: real, d: real, t: real)
    requires 0.0 <= t <= 1.0
    ensures d >= 0.0 ==> a <= a + d * t <= a + d
    ensures d <= 0.0 ==> a + d <= a + d * t <= a
  {
    if d >= 0.0 {
      Scale(d, t);
    } else {
      Scale(-d, t);
      Negate(d, t);
    }
  }

  lemma Negate(d: real, t: real)
    ensures (-d) * t == -(d * t)
  {
  }

  /** A fraction whose numerator lies between zero and a positive denominator is in [0, 1]. */
  lemma Fraction(m: real, n: real)
    requires 0.0 <= m <= n && n > 0.0
    ensures 0.0 <= m / n <= 1.0
  {
  }

  lemma Scale(d: real, t: real)
    requires d >= 0.0 && 0.0 <= t <= 1.0
    ensures 0.0 <= d * t <= d
  {
    assert d * (1.0 - t) >= 0.0;
  }

  /** Consecutive points of a segment are an equal step apart. */
  lemma OnLineStep(a: real, b: real, p: int, q: int, j: int)
    requires p < q
    ensures OnLine(a, b, p, q, j + 1) - OnLine(a, b, p, q, j) == (b - a) / (q - p) as real
  {
    var n := (q - p) as real;
    var m := (j - p) as real;
    assert (m + 1.0) / n == m / n + 1.0 / n;
    assert (b - a) * ((m + 1.0) / n) == (b - a) * (m / n) + (b - a) * (1.0 / n);
    assert (b - a) * (1.0 / n) == (b - a) / n;
  }

  /** Every day of a gap, and both known days around it, lie on the segment between those known days. */
  lemma FillOnLine(s: seq<Option<real>>, i: nat, j: nat)
    requires i < |s| && s[0].Some? && s[|s| - 1].Some? && s[i].None?
    requires KnownAtOrBefore(s, i) <= j <= KnownAtOrAfter(s, i)
    ensures var p, q := KnownAtOrBefore(s, i), KnownAtOrAfter(s, i);
      Fill(s, j) == OnLine(s[p].value, s[q].value, p, q, j)
  {
    var p, q := KnownAtOrBefore(s, i), KnownAtOrAfter(s, i);
    OnLineEnds(s[p].value, s[q].value, p, q);
    if p < j < q {
      assert forall k :: p < k < q ==> s[k].None? by {
        forall k | p < k < q ensures s[k].None? {
          if k <= i { } else { }
        }
      }
      KnownBeforeIs(s, p, j);
      KnownAfterIs(s, q, j);
    }
  }

  /** Across a run of empty days the nearest known day before stays the same. */
  lemma {:induction false} KnownBeforeIs(s: seq<Option<real>>, p: nat, j: nat)
    requires p <= j < |s| && s[0].Some? && s[p].Some?
    requires forall k :: p < k <= j ==> s[k].None?
    ensures KnownAtOrBefore(s, j) == p
    decreases j - p
  {
    if p < j {
      KnownBeforeIs(s, p, j - 1);
    }
  }

  /** Across a run of empty days the nearest known day after stays the same. */
  lemma {:induction false} KnownAfterIs(s: seq<Option<real>>, q: nat, j: nat)
    requires j <= q < |s| && s[|s| - 1].Some? && s[q].Some?
    requires forall k :: j <= k < q ==> s[k].None?
    ensures KnownAtOrAfter(s, j) == q
    decreases q - j
  {
    if j < q {
      KnownAfterIs(s, q, j + 1);
    }
  }

  /** A filled day lies between the two known days around it. */
  lemma InterpolateBetween(s: seq<Option<real>>, i: nat)
    requires |s| > 0 && s[0].Some? && s[|s| - 1].Some?
    requires i < |s| && s[i].None?
    ensures var p, q := KnownAtOrBefore(s, i), KnownAtOrAfter(s, i);
      p < i < q &&
      var a, b, x := s[p].value, s[q].value, Interpolate(s)[i];
      (a <= b ==> a <= x <= b) && (b <= a ==> b <= x <= a)
  {
    var p, q := KnownAtOrBefore(s, i), KnownAtOrAfter(s, i);
    OnLineBetween(s[p].value, s[q].value, p, q, i);
  }

  /** A filled day is the midpoint of its two neighbours: the gap is filled along a straight line. */
  lemma InterpolateLinear(s: seq<Option<real>>, i: nat)
    requires |s| > 0 && s[0].Some? && s[|s| - 1].Some?
    requires i < |s| && s[i].None?
    ensures 0 < i < |s| - 1
    ensures Interpolate(s)[i] - Interpolate(s)[i - 1] == Interpolate(s)[i + 1] - Interpolate(s)[i]
  {
    FillSteps(s, i);
  }

  /** InterpolateLinear, on the filled values. */
  lemma FillSteps(s: seq<Option<real>>, i: nat)
    requires |s| > 0 && s[0].Some? && s[|s| - 1].Some?
    requires i < |s| && s[i].None?
    ensures 0 < i < |s| - 1
    ensures Fill(s, i) - Fill(s, i - 1) == Fill(s, i + 1) - Fill(s, i)
  {
    var p, q := KnownAtOrBefore(s, i), KnownAtOrAfter(s, i);
    var a, b := s[p].value, s[q].value;
    FillOnLine(s, i, i - 1);
    FillOnLine(s, i, i);
    FillOnLine(s, i, i + 1);
    OnLineStep(a, b, p, q, i - 1);
    OnLineStep(a, b, p, q, i);
  }

  /** One missing day between 10 and 30 becomes 20. */
  lemma InterpolateExample()
    ensures Interpolate([Some(10.0), None, Some(30.0)]) == [10.0, 20.0, 30.0]
  {
    var s := [Some(10.0), None, Some(30.0)];
    assert KnownAtOrBefore(s, 1) == 0;
    assert KnownAtOrAfter(s, 1) == 2;
    assert Fill(s, 1) == 10.0 + 20.0 * (1.0 / 2.0);
  }

  /**
   * The daily series: the hourly rows resampled to calendar days and the empty
   * days interpolated; one entry per day from the first to the last day with data.
   */
  function DailySeries(rows: seq<Reading>): (v: seq<real>)
    requires |rows| > 0
    ensures |v| == LastBucket(rows, DayOf) - FirstBucket(rows, DayOf) + 1
  {
    ResampleEnds(rows, DayOf);
    Interpolate(Resample(rows, DayOf))
  }

  /** `diff().dropna()`: the change from each day to the next. */
  function Diffs(v: seq<real>): (d: seq<real>)
    ensures |d| == if |v| == 0 then 0 else |v| - 1
  {
    if |v| == 0 then [] else seq(|v| - 1, i requires 0 <= i < |v| - 1 => v[i + 1] - v[i])
  }

  /** Accumulating differences from a starting value: the inverse of Diffs. */
  function Integrate(start: real, d: seq<real>): (v: seq<real>)
    ensures |v| == |d| + 1 && v[0] == start
    decreases |d|
  {
    if d == [] then [start] else [start] + Integrate(start + d[0], d[1..])
  }

  /** The differences of a series of two or more: the first change, then the rest. */
  lemma DiffsCons(v: seq<real>)
    requires |v| >= 2
    ensures Diffs(v) == [v[1] - v[0]] + Diffs(v[1..])
  {
    var d, e := Diffs(v), Diffs(v[1..]);
    assert forall i :: 1 <= i < |d| ==> d[i] == e[i - 1];
  }

  /** The differences of a series rebuild it from its first value. */
  lemma {:induction false} IntegrateDiffs(v: seq<real>)
    requires |v| > 0
    ensures Integrate(v[0], Diffs(v)) == v
    decreases |v|
  {
    if |v| > 1 {
      IntegrateDiffs(v[1..]);
      DiffsCons(v);
      IntegrateCons(v, Diffs(v), Diffs(v[1..]));
    }
  }

  /**
   * A series of two or more is rebuilt from its first value and first change
   * once its tail is rebuilt from the tail's own differences.
   */
  lemma IntegrateCons(v: seq<real>, dv: seq<real>, dw: seq<real>)
    requires |v| > 1 && dv == [v[1] - v[0]] + dw
    requires Integrate(v[1..][0], dw) == v[1..]
    ensures Integrate(v[0], dv) == v
  {
    assert dv[0] == v[1] - v[0] && dv[1..] == dw;
    assert v[0] + dv[0] == v[1..][0];
    assert [v[0]] + v[1..] == v;
  }

  /** Differencing an accumulated series gives back the differences. */
  lemma {:induction false} DiffsIntegrate(start: real, d: seq<real>)
    ensures Diffs(Integrate(start, d)) == d
    decreases |d|
  {
    if d != [] {
      var v := Integrate(start, d);
      var w := Integrate(start + d[0], d[1..]);
      assert v == [start] + w;
      assert v[1..] == w;
      DiffsIntegrate(start + d[0], d[1..]);
      DiffsCons(v);
      assert d == [d[0]] + d[1..];
    }
  }

  /** The differences telescope: they sum to the last value minus the first. */
  lemma {:induction false} DiffsTelescope(v: seq<real>)
    requires |v| > 0
    ensures Sum(Diffs(v)) == v[|v| - 1] - v[0]
    decreases |v|
  {
    if |v| > 1 {
      DiffsCons(v);
      DiffsTelescope(v[1..]);
    }
  }

}

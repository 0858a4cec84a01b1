/**
 * The AQI bands of module/visualizer.py: the colour, status and badge of an
 * AQI, and the guard and day labels of the prediction chart. All three band
 * functions branch on the same breakpoints 50, 100, 150, 200 and 300; a band's
 * severity (0 = Good … 5 = Hazardous) ties them together. AQIs are whole
 * numbers here, as `aqi.to_aqi` and `aqi.to_iaqi` produce them.
 */
module Visualizer {

  import opened Text

  /** The upper ends of the first five bands, inclusive. */
  const Breakpoints: seq<int> := [50, 100, 150, 200, 300]

  const Colors: seq<string> := ["#00e400", "#ffff00", "#ff7e00", "#ff0000", "#8f3f97", "#7e0023"]

  const Statuses: seq<string> :=
    ["Good", "Moderate", "Unhealthy for Sensitive Groups", "Unhealthy", "Very Unhealthy", "Hazardous"]

  const Badges: seq<string> :=
    ["badge-good", "badge-moderate", "badge-sensitive", "badge-unhealthy", "badge-very-unhealthy", "badge-hazardous"]

  /** How many of the breakpoints `bs` lie below `aqi`. */
  function CountBelow(bs: seq<int>, aqi: int): (n: nat)
    ensures n <= |bs|
  {
    if bs == [] then 0 else (if bs[0] < aqi then 1 else 0) + CountBelow(bs[1..], aqi)
  }

  /**
   * The band of an AQI, 0 (Good) to 5 (Hazardous), by the `<=` chain the three
   * band functions share: the number of breakpoints the AQI exceeds.
   */
  function Severity(aqi: int): (s: nat)
    ensures s < |Colors|
  {
    if aqi <= 50 then 0
    else if aqi <= 100 then 1
    else if aqi <= 150 then 2
    else if aqi <= 200 then 3
    else if aqi <= 300 then 4
    else 5
  }

  /** The `<=` chain agrees with counting the breakpoints below the AQI. */
  lemma SeverityCountsBreakpoints(aqi: int)
    ensures Severity(aqi) == CountBelow(Breakpoints, aqi)
  {
    var b4: seq<int> := [300];
    var b3: seq<int> := [200] + b4;
    var b2: seq<int> := [150] + b3;
    var b1: seq<int> := [100] + b2;
    assert Breakpoints == [50] + b1;
    assert b4[1..] == [] && b3[1..] == b4 && b2[1..] == b3 && b1[1..] == b2 && Breakpoints[1..] == b1;
    assert CountBelow(b4, aqi) == if 300 < aqi then 1 else 0;
    assert CountBelow(b3, aqi) == (if 200 < aqi then 1 else 0) + CountBelow(b4, aqi);
    assert CountBelow(b2, aqi) == (if 150 < aqi then 1 else 0) + CountBelow(b3, aqi);
    assert CountBelow(b1, aqi) == (if 100 < aqi then 1 else 0) + CountBelow(b2, aqi);
    assert CountBelow(Breakpoints, aqi) == (if 50 < aqi then 1 else 0) + CountBelow(b1, aqi);
  }

  /** Breakpoints in increasing order: a larger AQI exceeds at least as many of them. */
  lemma {:induction false} CountBelowMonotone(bs: seq<int>, a: int, b: int)
    requires a <= b
    ensures CountBelow(bs, a) <= CountBelow(bs, b)
  {
    if bs != [] {
      CountBelowMonotone(bs[1..], a, b);
    }
  }

  /** A larger AQI never falls in a less severe band. */
  lemma SeverityMonotone(a: int, b: int)
    requires a <= b
    ensures Severity(a) <= Severity(b)
  {
    CountBelowMonotone(Breakpoints, a, b);
    SeverityCountsBreakpoints(a);
    SeverityCountsBreakpoints(b);
  }

  /** Band `s` holds exactly the AQIs above breakpoint `s - 1` and at most breakpoint `s`. */
  lemma SeverityBand(aqi: int, s: nat)
    requires s < |Colors|
    ensures Severity(aqi) == s <==>
      (s == 0 || Breakpoints[s - 1] < aqi) && (s == |Breakpoints| || aqi <= Breakpoints[s])
  {
  }

  /** `get_aqi_color`. */
  function AqiColor(aqi: int): (c: string)
    ensures c == Colors[Severity(aqi)]
  {
    if aqi <= 50 then "#00e400"
    else if aqi <= 100 then "#ffff00"
    else if aqi <= 150 then "#ff7e00"
    else if aqi <= 200 then "#ff0000"
    else if aqi <= 300 then "#8f3f97"
    else "#7e0023"
  }

  /** `get_aqi_status`. */
  function AqiStatus(aqi: int): (t: string)
    ensures t == Statuses[Severity(aqi)]
  {
    if aqi <= 50 then "Good"
    else if aqi <= 100 then "Moderate"
    else if aqi <= 150 then "Unhealthy for Sensitive Groups"
    else if aqi <= 200 then "Unhealthy"
    else if aqi <= 300 then "Very Unhealthy"
    else "Hazardous"
  }

  /** The dictionary `get_aqi_status_info` returns. */
  datatype StatusInfo = StatusInfo(status: string, color: string, badge: string)

  /** `get_aqi_status_info`: the status and colour agree with the two functions above. */
  function AqiStatusInfo(aqi: int): (r: StatusInfo)
    ensures r.status == AqiStatus(aqi) && r.color == AqiColor(aqi)
    ensures r.badge == Badges[Severity(aqi)]
  {
    if aqi <= 50 then StatusInfo("Good", "#00e400", "badge-good")
    else if aqi <= 100 then StatusInfo("Moderate", "#ffff00", "badge-moderate")
    else if aqi <= 150 then StatusInfo("Unhealthy for Sensitive Groups", "#ff7e00", "badge-sensitive")
    else if aqi <= 200 then StatusInfo("Unhealthy", "#ff0000", "badge-unhealthy")
    else if aqi <= 300 then StatusInfo("Very Unhealthy", "#8f3f97", "badge-very-unhealthy")
    else StatusInfo("Hazardous", "#7e0023", "badge-hazardous")
  }

  /** The six colours are pairwise different. */
  lemma ColorsDistinct(i: nat, j: nat)
    requires i < |Colors| && j < |Colors| && i != j
    ensures Colors[i] != Colors[j]
  {
    assert Colors[i][1] != Colors[j][1] || Colors[i][3] != Colors[j][3];
  }

  /** The six statuses are pairwise different. */
  lemma StatusesDistinct(i: nat, j: nat)
    requires i < |Statuses| && j < |Statuses| && i != j
    ensures Statuses[i] != Statuses[j]
  {
    assert |Statuses[i]| != |Statuses[j]| || Statuses[i][0] != Statuses[j][0];
  }

  /** Colour and status determine each other: two AQIs share a colour exactly when they share a status. */
  lemma ColorMatchesStatus(a: int, b: int)
    ensures AqiColor(a) == AqiColor(b) <==> Severity(a) == Severity(b)
    ensures AqiStatus(a) == AqiStatus(b) <==> Severity(a) == Severity(b)
  {
    if Severity(a) != Severity(b) {
      ColorsDistinct(Severity(a), Severity(b));
      StatusesDistinct(Severity(a), Severity(b));
    }
  }

  /** The label of the bar for day `i` (counting from 0): `Day {i+1}<br>{date}`. */
  function Label(i: nat, date: string): string
  {
    "Day " + NatToString(i + 1) + "<br>" + date
  }

  /** One label per date, in order. */
  function Labels(dates: seq<string>): (ls: seq<string>)
    ensures |ls| == |dates|
  {
    if dates == [] then [] else Labels(dates[..|dates| - 1]) + [Label(|dates| - 1, dates[|dates| - 1])]
  }

  /** Label `i` is the label of date `i` for day `i + 1`. */
  lemma {:induction false} LabelsAt(dates: seq<string>)
    ensures forall i :: 0 <= i < |dates| ==> Labels(dates)[i] == Label(i, dates[i])
    decreases |dates|
  {
    if dates != [] {
      var init := dates[..|dates| - 1];
      LabelsAt(init);
      assert forall i :: 0 <= i < |init| ==> dates[i] == init[i];
    }
  }

  /** The labels of different days differ, whatever their dates: a day number ends where `<br>` starts. */
  lemma LabelsDistinct(i: nat, j: nat, d: string, e: string)
    requires i != j
    ensures Label(i, d) != Label(j, e)
  {
    var a, b := NatToString(i + 1), NatToString(j + 1);
    NatToStringInjective(i + 1, j + 1);
    var x, y := Label(i, d), Label(j, e);
    assert x == "Day " + a + "<br>" + d;
    assert y == "Day " + b + "<br>" + e;
    if |a| == |b| {
      var k :| 0 <= k < |a| && a[k] != b[k];
      assert x[4 + k] == a[k] && y[4 + k] == b[k];
    } else if |a| < |b| {
      assert x[4 + |a|] == '<' && y[4 + |a|] == b[|a|];
      assert IsDigit(b[|a|]);
    } else {
      assert y[4 + |b|] == '<' && x[4 + |b|] == a[|b|];
      assert IsDigit(a[|b|]);
    }
  }

  /** `for i, date in enumerate(prediction_dates): labels.append(...)`. */
  method BuildLabels(dates: seq<string>) returns (labels: seq<string>)
    ensures labels == Labels(dates)
  {
    labels := [];
    for i := 0 to |dates|
      invariant labels == Labels(dates[..i])
    {
      assert dates[..i + 1][..i] == dates[..i];
      labels := labels + [Label(i, dates[i])];
    }
    assert dates[..|dates|] == dates;
  }

  /** The `metric` argument: PM2.5 values or AQIs on the bars. */
  datatype Metric = Pm25Metric | AqiMetric

  /** What `create_prediction_column_chart` draws: the fallback fragment, or bars. */
  datatype Chart =
    | Unavailable
    | Bars(labels: seq<string>, heights: seq<int>, colors: seq<string>, yTitle: string)

  /** The colour of every AQI, in order (`[get_aqi_color(aqi) for aqi in prediction_aqi]`). */
  function BarColors(aqis: seq<int>): (cs: seq<string>)
    ensures |cs| == |aqis|
    ensures forall k :: 0 <= k < |aqis| ==> cs[k] == Colors[Severity(aqis[k])]
  {
    if aqis == [] then [] else [AqiColor(aqis[0])] + BarColors(aqis[1..])
  }

  /** The chart `create_prediction_column_chart` describes before it is rendered. */
  function PredictionChart(dates: seq<string>, values: seq<int>, aqis: seq<int>, metric: Metric): (c: Chart)
    ensures c.Unavailable? <==> dates == [] || values == []
    ensures c.Bars? ==>
      && |c.labels| == |dates| && |c.colors| == |aqis|
      && c.heights == (if metric == Pm25Metric then values else aqis)
  {
    if dates == [] || values == [] then Unavailable
    else
      Bars(Labels(dates), if metric == Pm25Metric then values else aqis, BarColors(aqis),
           if metric == Pm25Metric then "PM2.5 (μg/m³)" else "AQI (US)")
  }

  /** `create_prediction_column_chart`, up to the figure it renders. */
  method CreatePredictionColumnChart(dates: seq<string>, values: seq<int>, aqis: seq<int>, metric: Metric)
    returns (c: Chart)
    ensures c == PredictionChart(dates, values, aqis, metric)
  {
    if dates == [] || values == [] {
      return Unavailable;
    }
    var labels := BuildLabels(dates);
    var heights, yTitle;
    if metric == Pm25Metric {
      heights, yTitle := values, "PM2.5 (μg/m³)";
    } else {
      heights, yTitle := aqis, "AQI (US)";
    }
    c := Bars(labels, heights, BarColors(aqis), yTitle);
  }

  /** Each bar of a drawn chart is labelled with its day and date and coloured by its AQI's band. */
  lemma ChartBars(dates: seq<string>, values: seq<int>, aqis: seq<int>, metric: Metric)
    ensures var c := PredictionChart(dates, values, aqis, metric);
      c.Bars? ==>
        && (forall i :: 0 <= i < |dates| ==> c.labels[i] == Label(i, dates[i]))
        && (forall k :: 0 <= k < |aqis| ==> c.colors[k] == AqiStatusInfo(aqis[k]).color)
  {
    LabelsAt(dates);
  }

}

/**
 * The data side of module/openaq_api.py, over plain sequences: the calls to
 * the OpenAQ client and the JSON cache become inputs (a call that raises is
 * `Raised`, a cache file is `Missing`, `Unreadable` or `Stored`).
 *
 * - The daily and historic fetches: the first PM2.5 sensor of each location,
 *   at most ten stations counted, pagination of the historic measurements,
 *   then the hourly group-by-mean across all stations.
 * - The ranking of the latest readings: scan, stable descending sort.
 * - The KPI status chain and the country lookup.
 */
module OpenAq {

  import opened Options
  import opened Text
  import opened Aggregation
  import Visualizer

  /** OpenAQ's parameter id of PM2.5. */
  const Pm25: int := 2

  /** The stations counted by each fetch (`if location_count >= 10: break`). */
  const MaxStations: nat := 10

  /** The last page the historic fetch asks for (`if page > 200: break`). */
  const MaxPages: nat := 200

  const NoData: string := "No data found for this country."

  /** The message of the `KeyError` that `df['value']` raises on a frame without columns. */
  const MissingValueColumn: string := "'value'"

  /** A call that returns a value or raises an exception with a message. */
  datatype Outcome<T> = Ok(value: T) | Raised(message: string)

  /** A JSON cache file: absent, present but not loadable, or loaded. */
  datatype Cache<T> = Missing | Unreadable | Stored(content: T)

  datatype Sensor = Sensor(id: int, parameter: int)

  datatype Location = Location(name: string, sensors: seq<Sensor>)

  /** One measurement: the local end of its period (seconds) and its value. */
  datatype Measurement = Measurement(timeTo: int, value: real)

  /** One row of the hourly frame: the hour, the mean PM2.5 and its AQI. */
  datatype HourRow = HourRow(hour: int, value: real, aqi: int)

  /** `aqi.to_aqi([(aqi.POLLUTANT_PM25, x)], algo=aqi.ALGO_EPA)`. */
  type ToAqi = real -> int

  /** `client.measurements.list(sensors_id=id, ...)` of the daily fetch. */
  type Measure = int -> Outcome<seq<Measurement>>

  /** `client.measurements.list(sensors_id=id, ..., page=p)` of the historic fetch. */
  type PageFetch = (int, int) -> Outcome<seq<Measurement>>

  // ---------------------------------------------------------------- sensors

  /** The id of the first sensor measuring PM2.5, `None` when there is none. */
  function FirstPm25(sensors: seq<Sensor>): Option<int>
  {
    if sensors == [] then None
    else if sensors[0].parameter == Pm25 then Some(sensors[0].id)
    else FirstPm25(sensors[1..])
  }

  /** FirstPm25 finds a PM2.5 sensor exactly when there is one, and it is the first one. */
  lemma {:induction false} FirstPm25IsFirst(sensors: seq<Sensor>)
    ensures var r := FirstPm25(sensors);
      && (r.None? <==> forall i :: 0 <= i < |sensors| ==> sensors[i].parameter != Pm25)
      && (r.Some? ==> exists i :: 0 <= i < |sensors| && sensors[i].parameter == Pm25 && sensors[i].id == r.value
                                  && forall j :: 0 <= j < i ==> sensors[j].parameter != Pm25)
  {
    if sensors != [] && sensors[0].parameter != Pm25 {
      var rest := sensors[1..];
      FirstPm25IsFirst(rest);
      assert forall i :: 1 <= i < |sensors| ==> sensors[i] == rest[i - 1];
      if FirstPm25(rest).Some? {
        var i :| 0 <= i < |rest| && rest[i].parameter == Pm25 && rest[i].id == FirstPm25(rest).value
                 && forall j :: 0 <= j < i ==> rest[j].parameter != Pm25;
        assert sensors[i + 1] == rest[i];
      }
    }
  }

  /** The `for sensor in location.sensors` scan that stops at the first PM2.5 sensor. */
  method PickSensor(sensors: seq<Sensor>) returns (sensorId: Option<int>)
    ensures sensorId == FirstPm25(sensors)
  {
    for i := 0 to |sensors|
      invariant FirstPm25(sensors[i..]) == FirstPm25(sensors)
    {
      if sensors[i].parameter == Pm25 {
        return Some(sensors[i].id);
      }
      assert sensors[i..][1..] == sensors[i + 1..];
    }
    return None;
  }

  /** `if sensor_id:` — no sensor and sensor id 0 are both false. */
  predicate Usable(sensorId: Option<int>)
  {
    sensorId.Some? && sensorId.value != 0
  }

  // -------------------------------------------------- collecting the readings

  /** The measurements as readings, in order. */
  function ReadingsOf(ms: seq<Measurement>): (rs: seq<Reading>)
    ensures |rs| == |ms|
  {
    if ms == [] then [] else ReadingsOf(ms[..|ms| - 1]) + [Reading(ms[|ms| - 1].timeTo, ms[|ms| - 1].value)]
  }

  /** `for m in measurements.results: available_results.append(...)`. */
  method AppendReadings(acc: seq<Reading>, ms: seq<Measurement>) returns (out: seq<Reading>)
    ensures out == acc + ReadingsOf(ms)
  {
    out := acc;
    for j := 0 to |ms|
      invariant out == acc + ReadingsOf(ms[..j])
    {
      assert ms[..j + 1][..j] == ms[..j];
      out := out + [Reading(ms[j].timeTo, ms[j].value)];
    }
    assert ms[..|ms|] == ms;
  }

  /** What one location adds when it is counted as a station, `None` when it is not counted. */
  type Contribute = Location -> Option<seq<Reading>>

  /** The additions of the locations that would be counted, in order, before any cap. */
  function Contributions(locs: seq<Location>, contribute: Contribute): (cs: seq<seq<Reading>>)
    ensures |cs| <= |locs|
  {
    if locs == [] then []
    else
      var init := Contributions(locs[..|locs| - 1], contribute);
      match contribute(locs[|locs| - 1])
      case None => init
      case Some(rs) => init + [rs]
  }

  /** The readings of several stations, one station after the other. */
  function Flatten(cs: seq<seq<Reading>>): seq<Reading>
  {
    if cs == [] then [] else Flatten(cs[..|cs| - 1]) + cs[|cs| - 1]
  }

  function Min(a: nat, b: nat): nat { if a < b then a else b }

  /** The readings of the first ten counted stations. */
  function Capped(cs: seq<seq<Reading>>): seq<Reading>
  {
    Flatten(cs[..Min(|cs|, MaxStations)])
  }

  lemma {:induction false} ContributionsAppend(a: seq<Location>, b: seq<Location>, contribute: Contribute)
    ensures Contributions(a + b, contribute) == Contributions(a, contribute) + Contributions(b, contribute)
    decreases |b|
  {
    if b == [] {
      assert a + b == a;
    } else {
      var b0 := b[..|b| - 1];
      assert (a + b)[..|a + b| - 1] == a + b0;
      assert b[..|b| - 1] == b0;
      ContributionsAppend(a, b0, contribute);
    }
  }

  /** Once ten stations are counted, the remaining locations add nothing. */
  lemma CappedWhenFull(locs: seq<Location>, i: nat, contribute: Contribute)
    requires i <= |locs| && |Contributions(locs[..i], contribute)| == MaxStations
    ensures Min(|Contributions(locs, contribute)|, MaxStations) == MaxStations
    ensures Capped(Contributions(locs, contribute)) == Flatten(Contributions(locs[..i], contribute))
  {
    assert locs == locs[..i] + locs[i..];
    ContributionsAppend(locs[..i], locs[i..], contribute);
    var cs := Contributions(locs, contribute);
    assert cs[..MaxStations] == Contributions(locs[..i], contribute);
  }

  /** The loop stops at the last location or at the tenth counted station: either way, the capped readings. */
  lemma CollectedAll(locs: seq<Location>, i: nat, contribute: Contribute)
    requires i <= |locs| && |Contributions(locs[..i], contribute)| <= MaxStations
    requires i == |locs| || |Contributions(locs[..i], contribute)| == MaxStations
    ensures var cs := Contributions(locs, contribute);
      && Min(|cs|, MaxStations) == |Contributions(locs[..i], contribute)|
      && Capped(cs) == Flatten(Contributions(locs[..i], contribute))
  {
    if i == |locs| {
      assert locs[..i] == locs;
      CappedKeepsFew(Contributions(locs, contribute));
    } else {
      CappedWhenFull(locs, i, contribute);
    }
  }

  /** One more location: its addition, if any, comes last. */
  lemma ContributionsSnoc(locs: seq<Location>, i: nat, contribute: Contribute)
    requires i < |locs|
    ensures Contributions(locs[..i + 1], contribute) ==
      match contribute(locs[i])
      case None => Contributions(locs[..i], contribute)
      case Some(rs) => Contributions(locs[..i], contribute) + [rs]
  {
    assert locs[..i + 1][..i] == locs[..i];
  }

  /** Location `i` adds its readings, and one to the count, exactly when it is counted. */
  lemma CollectStep(locs: seq<Location>, i: nat, contribute: Contribute, acc: seq<Reading>, out: seq<Reading>, counted: bool)
    requires i < |locs| && acc == Flatten(Contributions(locs[..i], contribute))
    requires match contribute(locs[i])
      case None => !counted && out == acc
      case Some(rs) => counted && out == acc + rs
    ensures out == Flatten(Contributions(locs[..i + 1], contribute))
    ensures |Contributions(locs[..i + 1], contribute)| == |Contributions(locs[..i], contribute)| + (if counted then 1 else 0)
  {
    ContributionsSnoc(locs, i, contribute);
    if counted {
      FlattenSnoc(Contributions(locs[..i], contribute), contribute(locs[i]).value);
    }
  }

  lemma FlattenSnoc(cs: seq<seq<Reading>>, rs: seq<Reading>)
    ensures Flatten(cs + [rs]) == Flatten(cs) + rs
  {
    assert (cs + [rs])[..|cs|] == cs;
  }

  /** Every collected reading belongs to one of the stations. */
  lemma {:induction false} FlattenMember(cs: seq<seq<Reading>>, x: Reading)
    requires x in Flatten(cs)
    ensures exists j :: 0 <= j < |cs| && x in cs[j]
    decreases |cs|
  {
    var init := cs[..|cs| - 1];
    if x in Flatten(init) {
      FlattenMember(init, x);
      var j :| 0 <= j < |init| && x in init[j];
      assert cs[j] == init[j];
    } else {
      assert x in cs[|cs| - 1];
    }
  }

  /** The station cap: every reading kept comes from one of the first ten counted stations. */
  lemma CappedFromFirstStations(cs: seq<seq<Reading>>, x: Reading)
    requires x in Capped(cs)
    ensures exists j :: 0 <= j < MaxStations && j < |cs| && x in cs[j]
  {
    var kept := cs[..Min(|cs|, MaxStations)];
    FlattenMember(kept, x);
    var j :| 0 <= j < |kept| && x in kept[j];
    assert kept[j] == cs[j];
  }

  /** With ten stations or fewer counted, nothing is dropped. */
  lemma CappedKeepsFew(cs: seq<seq<Reading>>)
    requires |cs| <= MaxStations
    ensures Capped(cs) == Flatten(cs)
  {
    assert cs[..|cs|] == cs;
  }

  /** No station is counted exactly when no location contributes. */
  lemma {:induction false} ContributionsEmpty(locs: seq<Location>, contribute: Contribute)
    ensures Contributions(locs, contribute) == [] <==> forall j :: 0 <= j < |locs| ==> contribute(locs[j]).None?
    decreases |locs|
  {
    if locs != [] {
      var init := locs[..|locs| - 1];
      ContributionsEmpty(init, contribute);
      assert forall j :: 0 <= j < |init| ==> init[j] == locs[j];
    }
  }

  /** When every counted station adds readings, the capped readings are empty only without stations. */
  lemma CappedEmpty(cs: seq<seq<Reading>>)
    requires forall j :: 0 <= j < |cs| ==> cs[j] != []
    ensures Capped(cs) == [] <==> cs == []
  {
    if cs != [] {
      var kept := cs[..Min(|cs|, MaxStations)];
      assert kept[|kept| - 1] == cs[|kept| - 1];
      assert |Flatten(kept)| >= |kept[|kept| - 1]|;
    }
  }

  // ------------------------------------------------------------- daily fetch

  /** A location in the daily fetch: counted only when its PM2.5 sensor returns some measurements. */
  function DailyContribution(loc: Location, measure: Measure): Option<seq<Reading>>
  {
    var sensorId := FirstPm25(loc.sensors);
    if !Usable(sensorId) then None
    else
      match measure(sensorId.value)
      case Raised(_) => None
      case Ok(ms) => if ms == [] then None else Some(ReadingsOf(ms))
  }

  function DailyStep(measure: Measure): Contribute
  {
    loc => DailyContribution(loc, measure)
  }

  /** Every station the daily fetch counts added at least one reading. */
  lemma {:induction false} DailyStationsHaveData(locs: seq<Location>, measure: Measure)
    ensures forall j :: 0 <= j < |Contributions(locs, DailyStep(measure))| ==>
      Contributions(locs, DailyStep(measure))[j] != []
    decreases |locs|
  {
    if locs != [] {
      DailyStationsHaveData(locs[..|locs| - 1], measure);
    }
  }

  /** The daily fetch keeps no readings exactly when no location has a usable sensor with measurements. */
  lemma DailyNoData(locs: seq<Location>, measure: Measure)
    ensures Capped(Contributions(locs, DailyStep(measure))) == [] <==>
      forall j :: 0 <= j < |locs| ==> DailyContribution(locs[j], measure).None?
  {
    DailyStationsHaveData(locs, measure);
    CappedEmpty(Contributions(locs, DailyStep(measure)));
    ContributionsEmpty(locs, DailyStep(measure));
  }

  /** The body of the location loop of `get_daily_data_by_country`, appending to `acc`. */
  method DailyLocation(acc: seq<Reading>, loc: Location, measure: Measure) returns (out: seq<Reading>, counted: bool)
    ensures match DailyContribution(loc, measure)
      case None => !counted && out == acc
      case Some(rs) => counted && out == acc + rs
  {
    out, counted := acc, false;
    var sensorId := PickSensor(loc.sensors);
    if sensorId.Some? && sensorId.value != 0 {
      var answer := measure(sensorId.value);
      if answer.Ok? && answer.value != [] {
        out := AppendReadings(acc, answer.value);
        counted := true;
      }
    }
  }

  /** One round of the loop below: CollectStep with the daily contribution. */
  lemma DailyCollectStep(locs: seq<Location>, i: nat, measure: Measure, acc: seq<Reading>, out: seq<Reading>, counted: bool)
    requires i < |locs| && acc == Flatten(Contributions(locs[..i], DailyStep(measure)))
    requires match DailyContribution(locs[i], measure)
      case None => !counted && out == acc
      case Some(rs) => counted && out == acc + rs
    ensures out == Flatten(Contributions(locs[..i + 1], DailyStep(measure)))
    ensures |Contributions(locs[..i + 1], DailyStep(measure))|
      == |Contributions(locs[..i], DailyStep(measure))| + (if counted then 1 else 0)
  {
    var step := DailyStep(measure);
    assert step(locs[i]) == DailyContribution(locs[i], measure);
    CollectStep(locs, i, step, acc, out, counted);
  }

  /** The location loop of `get_daily_data_by_country`. */
  method CollectDaily(locs: seq<Location>, measure: Measure) returns (results: seq<Reading>, count: nat)
    ensures var cs := Contributions(locs, DailyStep(measure));
      count == Min(|cs|, MaxStations) && results == Capped(cs)
  {
    ghost var step := DailyStep(measure);
    results, count := [], 0;
    var i := 0;
    while i < |locs| && count < MaxStations
      invariant i <= |locs|
      invariant count == |Contributions(locs[..i], step)| <= MaxStations
      invariant results == Flatten(Contributions(locs[..i], step))
    {
      var out, counted := DailyLocation(results, locs[i], measure);
      DailyCollectStep(locs, i, measure, results, out, counted);
      results := out;
      if counted {
        count := count + 1;
      }
      i := i + 1;
    }
    CollectedAll(locs, i, step);
  }

  // ---------------------------------------------------------- historic fetch

  /**
   * The readings of a sensor from page `page` on: pages are read while they
   * are not empty, up to page 200; a page that raises ends the reading and
   * keeps the pages before it.
   */
  function Pages(fetch: PageFetch, sensor: int, page: int): seq<Reading>
    requires 1 <= page <= MaxPages
    decreases MaxPages - page
  {
    match fetch(sensor, page)
    case Raised(_) => []
    case Ok(ms) =>
      if ms == [] then []
      else ReadingsOf(ms) + (if page + 1 > MaxPages then [] else Pages(fetch, sensor, page + 1))
  }

  /**
   * Pagination asks for no page after an empty page, a page that raises, or
   * page 200: two clients that agree up to such a `stop` give the same readings.
   */
  lemma {:induction false} PagesStop(fetch: PageFetch, other: PageFetch, sensor: int, page: int, stop: int)
    requires 1 <= page <= stop <= MaxPages
    requires stop == MaxPages || fetch(sensor, stop).Raised? || fetch(sensor, stop) == Ok([])
    requires forall p :: page <= p <= stop ==> fetch(sensor, p) == other(sensor, p)
    ensures Pages(fetch, sensor, page) == Pages(other, sensor, page)
    decreases stop - page
  {
    if page < stop {
      PagesStop(fetch, other, sensor, page + 1, stop);
    }
  }

  /** A non-empty page is appended, and the pages after it are still to be read. */
  lemma PagesAdvance(fetch: PageFetch, sensor: int, page: int, ms: seq<Measurement>, out: seq<Reading>, next: seq<Reading>)
    requires 1 <= page <= MaxPages && fetch(sensor, page) == Ok(ms) && ms != []
    requires next == out + ReadingsOf(ms)
    ensures out + Pages(fetch, sensor, page)
      == next + (if page + 1 > MaxPages then [] else Pages(fetch, sensor, page + 1))
  {
    var rest := if page + 1 > MaxPages then [] else Pages(fetch, sensor, page + 1);
    assert Pages(fetch, sensor, page) == ReadingsOf(ms) + rest;
    assert out + (ReadingsOf(ms) + rest) == next + rest;
  }

  /** The `while True` pagination loop for one sensor, appending to `acc`. */
  method FetchPages(acc: seq<Reading>, fetch: PageFetch, sensor: int) returns (out: seq<Reading>)
    ensures out == acc + Pages(fetch, sensor, 1)
  {
    out := acc;
    var page := 1;
    while true
      invariant 1 <= page <= MaxPages
      invariant out + Pages(fetch, sensor, page) == acc + Pages(fetch, sensor, 1)
      decreases MaxPages - page
    {
      var answer := fetch(sensor, page);
      if answer.Raised? || answer.value == [] {
        assert Pages(fetch, sensor, page) == [];
        break;
      }
      var next := AppendReadings(out, answer.value);
      PagesAdvance(fetch, sensor, page, answer.value, out, next);
      out := next;
      page := page + 1;
      if page > MaxPages {
        break;
      }
    }
  }

  /** A location in the historic fetch: counted whenever it has a PM2.5 sensor, with or without data. */
  function HistoricContribution(loc: Location, fetch: PageFetch): Option<seq<Reading>>
  {
    var sensorId := FirstPm25(loc.sensors);
    if !Usable(sensorId) then None else Some(Pages(fetch, sensorId.value, 1))
  }

  function HistoricStep(fetch: PageFetch): Contribute
  {
    loc => HistoricContribution(loc, fetch)
  }

  /**
   * `if sensor_id:` in the daily fetch: a location without a PM2.5 sensor, or
   * whose sensor id is 0, is skipped; otherwise it counts exactly when its
   * measurements come back non-empty.
   */
  lemma DailySkipsFalsySensor(loc: Location, measure: Measure)
    ensures FirstPm25(loc.sensors) == None ==> DailyContribution(loc, measure) == None
    ensures FirstPm25(loc.sensors) == Some(0) ==> DailyContribution(loc, measure) == None
    ensures DailyContribution(loc, measure).Some? <==>
      match FirstPm25(loc.sensors)
      case None => false
      case Some(id) => id != 0 && measure(id).Ok? && measure(id).value != []
  {
  }

  /**
   * `if sensor_id:` in the historic fetch: a location counts exactly when it
   * has a PM2.5 sensor whose id is not 0, whatever its pages hold.
   */
  lemma HistoricSkipsFalsySensor(loc: Location, fetch: PageFetch)
    ensures FirstPm25(loc.sensors) == None ==> HistoricContribution(loc, fetch) == None
    ensures FirstPm25(loc.sensors) == Some(0) ==> HistoricContribution(loc, fetch) == None
    ensures HistoricContribution(loc, fetch).Some? <==>
      FirstPm25(loc.sensors).Some? && FirstPm25(loc.sensors).value != 0
  {
  }

  /** The historic fetch counts every location with a PM2.5 sensor, whatever its pages hold. */
  lemma {:induction false} HistoricCountsSensors(locs: seq<Location>, fetch: PageFetch, other: PageFetch)
    ensures |Contributions(locs, HistoricStep(fetch))| == |Contributions(locs, HistoricStep(other))|
    decreases |locs|
  {
    if locs != [] {
      HistoricCountsSensors(locs[..|locs| - 1], fetch, other);
    }
  }

  /** Without a location that has a usable PM2.5 sensor, the historic fetch keeps no readings. */
  lemma HistoricNoSensor(locs: seq<Location>, fetch: PageFetch)
    ensures (forall j :: 0 <= j < |locs| ==> !Usable(FirstPm25(locs[j].sensors))) ==>
      Capped(Contributions(locs, HistoricStep(fetch))) == []
  {
    ContributionsEmpty(locs, HistoricStep(fetch));
  }

  /** The body of the location loop of `get_historic_data_by_country`, appending to `acc`. */
  method HistoricLocation(acc: seq<Reading>, loc: Location, fetch: PageFetch) returns (out: seq<Reading>, counted: bool)
    ensures match HistoricContribution(loc, fetch)
      case None => !counted && out == acc
      case Some(rs) => counted && out == acc + rs
  {
    out, counted := acc, false;
    var sensorId := PickSensor(loc.sensors);
    if sensorId.Some? && sensorId.value != 0 {
      out := FetchPages(acc, fetch, sensorId.value);
      counted := true;
    }
  }

  /** One round of the loop below: CollectStep with the historic contribution. */
  lemma HistoricCollectStep(locs: seq<Location>, i: nat, fetch: PageFetch, acc: seq<Reading>, out: seq<Reading>, counted: bool)
    requires i < |locs| && acc == Flatten(Contributions(locs[..i], HistoricStep(fetch)))
    requires match HistoricContribution(locs[i], fetch)
      case None => !counted && out == acc
      case Some(rs) => counted && out == acc + rs
    ensures out == Flatten(Contributions(locs[..i + 1], HistoricStep(fetch)))
    ensures |Contributions(locs[..i + 1], HistoricStep(fetch))|
      == |Contributions(locs[..i], HistoricStep(fetch))| + (if counted then 1 else 0)
  {
    var step := HistoricStep(fetch);
    assert step(locs[i]) == HistoricContribution(locs[i], fetch);
    CollectStep(locs, i, step, acc, out, counted);
  }

  /** The location loop of `get_historic_data_by_country`. */
  method CollectHistoric(locs: seq<Location>, fetch: PageFetch) returns (results: seq<Reading>, count: nat)
    ensures var cs := Contributions(locs, HistoricStep(fetch));
      count == Min(|cs|, MaxStations) && results == Capped(cs)
  {
    ghost var step := HistoricStep(fetch);
    results, count := [], 0;
    var i := 0;
    while i < |locs| && count < MaxStations
      invariant i <= |locs|
      invariant count == |Contributions(locs[..i], step)| <= MaxStations
      invariant results == Flatten(Contributions(locs[..i], step))
    {
      var out, counted := HistoricLocation(results, locs[i], fetch);
      HistoricCollectStep(locs, i, fetch, results, out, counted);
      results := out;
      if counted {
        count := count + 1;
      }
      i := i + 1;
    }
    CollectedAll(locs, i, step);
  }

  // ------------------------------------------------------ hourly aggregation

  /** The frame of `groupby('time_to')['value'].mean()` with its `aqi` column, by hour. */
  function HourRows(bins: seq<Bin>, toAqi: ToAqi): (rows: seq<HourRow>)
    ensures |rows| == |bins|
    ensures forall i :: 0 <= i < |bins| ==> rows[i] == HourRow(bins[i].bucket, bins[i].mean, toAqi(bins[i].mean))
  {
    seq(|bins|, i requires 0 <= i < |bins| => HourRow(bins[i].bucket, bins[i].mean, toAqi(bins[i].mean)))
  }

  /**
   * The hourly frame: the readings floored to the hour and averaged across all
   * stations, one row per hour that has readings, in increasing hour order
   * (so the discarded `sort_values` changes nothing).
   */
  function HourlyFrame(rs: seq<Reading>, toAqi: ToAqi): (rows: seq<HourRow>)
    requires rs != []
    ensures 0 < |rows| <= |rs|
    ensures forall i, j :: 0 <= i < j < |rows| ==> rows[i].hour < rows[j].hour
    ensures forall i :: 0 <= i < |rows| ==>
      BucketMean(rs, HourOf, rows[i].hour) == Some(rows[i].value) && rows[i].aqi == toAqi(rows[i].value)
  {
    HourRows(GroupMeans(rs, HourOf), toAqi)
  }

  /** The hour of every reading has its row. */
  lemma HourlyFrameCovers(rs: seq<Reading>, toAqi: ToAqi, k: nat)
    requires k < |rs|
    ensures exists i :: 0 <= i < |HourlyFrame(rs, toAqi)| && HourlyFrame(rs, toAqi)[i].hour == HourOf(rs[k].time)
  {
    GroupMeansCovers(rs, HourOf, k);
    var bins := GroupMeans(rs, HourOf);
    var i :| 0 <= i < |bins| && bins[i].bucket == HourOf(rs[k].time);
    assert HourlyFrame(rs, toAqi)[i].hour == bins[i].bucket;
  }

  /** No readings raise "No data found for this country."; otherwise the hourly frame. */
  function FrameOf(rs: seq<Reading>, toAqi: ToAqi): (r: Outcome<seq<HourRow>>)
    ensures r.Raised? <==> rs == []
  {
    if rs == [] then Raised(NoData) else Ok(HourlyFrame(rs, toAqi))
  }

  /**
   * Line 117 of module/openaq_api.py as written: after the group-by, the `time_to`
   * column is replaced with the floored times of the first rows of the raw
   * readings, matched by row position.
   */
  function RelabelAsWritten(rows: seq<HourRow>, rs: seq<Reading>): (out: seq<HourRow>)
    requires |rows| <= |rs|
    ensures |out| == |rows|
    ensures forall i :: 0 <= i < |rows| ==> out[i] == rows[i].(hour := HourOf(rs[i].time))
  {
    seq(|rows|, i requires 0 <= i < |rows| => rows[i].(hour := HourOf(rs[i].time)))
  }

  /** The values of three readings that fall in bucket `b`. */
  lemma ValuesInThree(x: Reading, y: Reading, z: Reading, key: int -> int, b: int)
    ensures ValuesIn([x, y, z], key, b) ==
      (if key(x.time) == b then [x.value] else []) + (if key(y.time) == b then [y.value] else [])
      + (if key(z.time) == b then [z.value] else [])
  {
    var rs := [x, y, z];
    assert rs[1..] == [y, z] && rs[1..][1..] == [z] && rs[1..][1..][1..] == [];
    assert ValuesIn([z], key, b) == (if key(z.time) == b then [z.value] else []) + ValuesIn([], key, b);
    assert ValuesIn([y, z], key, b) == (if key(y.time) == b then [y.value] else []) + ValuesIn([z], key, b);
  }

  /** Station A reports hour 1 (value 4), then station B hours 0 (value 2) and 1 (value 6). */
  function Line117Readings(): seq<Reading>
  {
    [Reading(3605, 4.0), Reading(10, 2.0), Reading(3620, 6.0)]
  }

  lemma Line117Buckets(h: int)
    ensures ValuesIn(Line117Readings(), HourOf, h) == if h == 0 then [2.0] else if h == 1 then [4.0, 6.0] else []
  {
    assert HourOf(3605) == 1 && HourOf(10) == 0 && HourOf(3620) == 1;
    ValuesInThree(Reading(3605, 4.0), Reading(10, 2.0), Reading(3620, 6.0), HourOf, h);
  }

  /** Strictly increasing hours lie at least one apart. */
  lemma {:induction false} HoursSpread(rows: seq<HourRow>)
    requires forall i, j :: 0 <= i < j < |rows| ==> rows[i].hour < rows[j].hour
    ensures |rows| > 0 ==> rows[|rows| - 1].hour - rows[0].hour >= |rows| - 1
    decreases |rows|
  {
    if |rows| > 1 {
      var init := rows[..|rows| - 1];
      HoursSpread(init);
      assert init[0] == rows[0] && init[|init| - 1] == rows[|rows| - 2];
    }
  }

  /** Increasing rows whose hours are 0 and 1, both present, are hour 0 then hour 1. */
  lemma TwoHourRows(rows: seq<HourRow>, i0: nat, i1: nat)
    requires forall i, j :: 0 <= i < j < |rows| ==> rows[i].hour < rows[j].hour
    requires forall i :: 0 <= i < |rows| ==> rows[i].hour == 0 || rows[i].hour == 1
    requires i0 < |rows| && rows[i0].hour == 0 && i1 < |rows| && rows[i1].hour == 1
    ensures |rows| == 2 && rows[0].hour == 0 && rows[1].hour == 1
  {
    HoursSpread(rows);
    assert rows[|rows| - 1].hour <= 1 && rows[0].hour >= 0;
    assert rows[0].hour < rows[1].hour;
  }

  /**
   * Increasing rows, each holding the mean of its hour, where only hours 0 and
   * 1 have readings and both have rows: hour 0 then hour 1.
   */
  lemma TwoHourMeans(rs: seq<Reading>, rows: seq<HourRow>, i0: nat, i1: nat)
    requires forall i, j :: 0 <= i < j < |rows| ==> rows[i].hour < rows[j].hour
    requires forall i :: 0 <= i < |rows| ==> BucketMean(rs, HourOf, rows[i].hour) == Some(rows[i].value)
    requires forall h :: h != 0 && h != 1 ==> ValuesIn(rs, HourOf, h) == []
    requires i0 < |rows| && rows[i0].hour == 0 && i1 < |rows| && rows[i1].hour == 1
    ensures |rows| == 2 && rows[0].hour == 0 && rows[1].hour == 1
    ensures Some(rows[0].value) == BucketMean(rs, HourOf, 0) && Some(rows[1].value) == BucketMean(rs, HourOf, 1)
  {
    forall i | 0 <= i < |rows|
      ensures rows[i].hour == 0 || rows[i].hour == 1
    {
      assert BucketMean(rs, HourOf, rows[i].hour).Some?;
    }
    TwoHourRows(rows, i0, i1);
  }

  /** Readings in hours 0 and 1 only make a frame of exactly those two hours. */
  lemma TwoHourFrame(rs: seq<Reading>, toAqi: ToAqi, k0: nat, k1: nat)
    requires k0 < |rs| && k1 < |rs| && HourOf(rs[k0].time) == 0 && HourOf(rs[k1].time) == 1
    requires forall h :: h != 0 && h != 1 ==> ValuesIn(rs, HourOf, h) == []
    ensures var rows := HourlyFrame(rs, toAqi);
      && |rows| == 2 && rows[0].hour == 0 && rows[1].hour == 1
      && Some(rows[0].value) == BucketMean(rs, HourOf, 0) && Some(rows[1].value) == BucketMean(rs, HourOf, 1)
  {
    var rows := HourlyFrame(rs, toAqi);
    HourlyFrameCovers(rs, toAqi, k0);
    HourlyFrameCovers(rs, toAqi, k1);
    var i0 :| 0 <= i0 < |rows| && rows[i0].hour == 0;
    var i1 :| 0 <= i1 < |rows| && rows[i1].hour == 1;
    TwoHourMeans(rs, rows, i0, i1);
  }

  /**
   * As written, line 117 gives hour 0's mean the label hour 1 and hour 1's
   * mean the label hour 0: the frame is no longer in hour order and each
   * label is wrong.
   */
  lemma Line117Misattributes(toAqi: ToAqi)
    ensures var rs := Line117Readings();
      var out := RelabelAsWritten(HourlyFrame(rs, toAqi), rs);
      |out| == 2 && out[0].hour == 1 && out[0].value == 2.0 && out[1].hour == 0 && out[1].value == 5.0
  {
    var rs := Line117Readings();
    forall h | h != 0 && h != 1
      ensures ValuesIn(rs, HourOf, h) == []
    {
      Line117Buckets(h);
    }
    Line117Buckets(0);
    Line117Buckets(1);
    TwoHourFrame(rs, toAqi, 1, 0);
    MeanOfOne(2.0);
    MeanOfTwo(4.0, 6.0);
  }

  /**
   * `get_daily_data_by_country`, with the corrected hour column: the cached
   * frame when the cache loads; the error of the location listing; "No data
   * found" exactly when no location has a usable sensor with measurements;
   * otherwise a non-empty frame in increasing hour order.
   */
  function DailyOutcome(cache: Cache<seq<HourRow>>, locations: Outcome<seq<Location>>, measure: Measure, toAqi: ToAqi)
    : (r: Outcome<seq<HourRow>>)
    ensures cache.Stored? ==> r == Ok(cache.content)
    ensures !cache.Stored? && locations.Raised? ==> r == Raised(locations.message)
    ensures !cache.Stored? && locations.Ok? ==>
      (r == Raised(NoData) <==> forall j :: 0 <= j < |locations.value| ==> DailyContribution(locations.value[j], measure).None?)
    ensures !cache.Stored? && r.Ok? ==>
      0 < |r.value| && forall i, j :: 0 <= i < j < |r.value| ==> r.value[i].hour < r.value[j].hour
  {
    match cache
    case Stored(rows) => Ok(rows)
    case _ =>
      match locations
      case Raised(e) => Raised(e)
      case Ok(locs) =>
        DailyNoData(locs, measure);
        FrameOf(Capped(Contributions(locs, DailyStep(measure))), toAqi)
  }

  /**
   * `get_daily_data_by_country`: the cached frame when the cache loads;
   * otherwise the hourly frame of the first ten stations with data.
   */
  method GetDailyData(cache: Cache<seq<HourRow>>, locations: Outcome<seq<Location>>, measure: Measure, toAqi: ToAqi)
    returns (r: Outcome<seq<HourRow>>)
    ensures r == DailyOutcome(cache, locations, measure, toAqi)
  {
    if cache.Stored? {
      return Ok(cache.content);
    }
    if locations.Raised? {
      return Raised(locations.message);
    }
    var results, count := CollectDaily(locations.value, measure);
    if results == [] {
      return Raised(NoData);
    }
    r := Ok(HourlyFrame(results, toAqi));
  }

  /**
   * `get_historic_data_by_country`: the cached frame when the cache loads; the
   * error of the location listing; "No data found" when no location has a
   * usable PM2.5 sensor; a frame is non-empty and in increasing hour order.
   */
  function HistoricOutcome(cache: Cache<seq<HourRow>>, locations: Outcome<seq<Location>>, fetch: PageFetch, toAqi: ToAqi)
    : (r: Outcome<seq<HourRow>>)
    ensures cache.Stored? ==> r == Ok(cache.content)
    ensures !cache.Stored? && locations.Raised? ==> r == Raised(locations.message)
    ensures !cache.Stored? && locations.Ok? ==>
      (forall j :: 0 <= j < |locations.value| ==> !Usable(FirstPm25(locations.value[j].sensors))) ==>
      r == Raised(NoData)
    ensures !cache.Stored? && r.Ok? ==>
      0 < |r.value| && forall i, j :: 0 <= i < j < |r.value| ==> r.value[i].hour < r.value[j].hour
  {
    match cache
    case Stored(rows) => Ok(rows)
    case _ =>
      match locations
      case Raised(e) => Raised(e)
      case Ok(locs) =>
        HistoricNoSensor(locs, fetch);
        FrameOf(Capped(Contributions(locs, HistoricStep(fetch))), toAqi)
  }

  /**
   * `get_historic_data_by_country`: the cached frame when the cache loads;
   * otherwise the hourly frame of every page of the first ten stations with a
   * PM2.5 sensor.
   */
  method GetHistoricData(cache: Cache<seq<HourRow>>, locations: Outcome<seq<Location>>, fetch: PageFetch, toAqi: ToAqi)
    returns (r: Outcome<seq<HourRow>>)
    ensures r == HistoricOutcome(cache, locations, fetch, toAqi)
  {
    if cache.Stored? {
      return Ok(cache.content);
    }
    if locations.Raised? {
      return Raised(locations.message);
    }
    var results, count := CollectHistoric(locations.value, fetch);
    if results == [] {
      return Raised(NoData);
    }
    r := Ok(HourlyFrame(results, toAqi));
  }

  /**
   * A fetched frame, daily or historic: one row per hour that has readings of
   * the kept stations, in increasing order, each the mean of every kept
   * reading of that hour; no frame without readings.
   */
  lemma FetchedFrame(rs: seq<Reading>, toAqi: ToAqi)
    ensures var r := FrameOf(rs, toAqi);
      && (r == Raised(NoData) <==> rs == [])
      && (r.Ok? ==>
            && 0 < |r.value| <= |rs|
            && (forall i, j :: 0 <= i < j < |r.value| ==> r.value[i].hour < r.value[j].hour)
            && (forall i :: 0 <= i < |r.value| ==>
                  Mean(ValuesIn(rs, HourOf, r.value[i].hour)) == r.value[i].value))
  {
  }

  // ----------------------------------------------------------------- ranking

  /** A station's latest reading. */
  datatype Entry = Entry(name: string, value: real, timeTo: int)

  /** One row of the ranking frame. */
  datatype RankRow = RankRow(timeTo: int, name: string, value: real, aqi: int)

  /** What `get_ranking_by_country` returns: no frame (`None`) or a frame. */
  datatype Ranking = NoFrame | Frame(rows: seq<RankRow>)

  /** `client.measurements.list(sensors_id=sensor_id, ...)` of the ranking, asked even without a PM2.5 sensor. */
  type Latest = Option<int> -> Outcome<seq<Measurement>>

  /**
   * A location's latest reading: the error of the call, none when it returned
   * no measurements, otherwise the location's name with the value and the time
   * of the last measurement.
   */
  function LatestEntry(loc: Location, latest: Latest): (r: Outcome<Option<Entry>>)
    ensures latest(FirstPm25(loc.sensors)).Raised? ==> r == Raised(latest(FirstPm25(loc.sensors)).message)
    ensures r == Ok(None) <==> latest(FirstPm25(loc.sensors)) == Ok([])
    ensures r.Ok? && r.value.Some? ==>
      var ms := latest(FirstPm25(loc.sensors)).value;
      && ms != []
      && r.value.value == Entry(loc.name, ms[|ms| - 1].value, ms[|ms| - 1].timeTo)
  {
    match latest(FirstPm25(loc.sensors))
    case Raised(e) => Raised(e)
    case Ok(ms) =>
      if ms == [] then Ok(None)
      else Ok(Some(Entry(loc.name, ms[|ms| - 1].value, ms[|ms| - 1].timeTo)))
  }

  /**
   * The entries collected from `locs`: the scan stops once ten stations are
   * counted, and the first call that raises makes the whole scan raise.
   */
  function Scanned(locs: seq<Location>, latest: Latest): (r: Outcome<seq<Entry>>)
    ensures r.Ok? ==> |r.value| <= MaxStations
  {
    if locs == [] then Ok([])
    else
      match Scanned(locs[..|locs| - 1], latest)
      case Raised(e) => Raised(e)
      case Ok(es) =>
        if |es| >= MaxStations then Ok(es)
        else
          match LatestEntry(locs[|locs| - 1], latest)
          case Raised(e) => Raised(e)
          case Ok(None) => Ok(es)
          case Ok(Some(entry)) => Ok(es + [entry])
  }

  /** Once the scan raised or counted ten stations, the remaining locations change nothing. */
  lemma {:induction false} ScannedSettled(locs: seq<Location>, i: nat, latest: Latest)
    requires i <= |locs|
    requires var r := Scanned(locs[..i], latest); r.Raised? || |r.value| >= MaxStations
    ensures Scanned(locs, latest) == Scanned(locs[..i], latest)
    decreases |locs| - i
  {
    if i < |locs| {
      var init := locs[..|locs| - 1];
      assert init[..i] == locs[..i];
      ScannedSettled(init, i, latest);
    } else {
      assert locs[..i] == locs;
    }
  }

  /** The location loop of `get_ranking_by_country`. */
  method ScanLatest(locs: seq<Location>, latest: Latest) returns (r: Outcome<seq<Entry>>)
    ensures r == Scanned(locs, latest)
  {
    var entries: seq<Entry> := [];
    var count := 0;
    for i := 0 to |locs|
      invariant count == |entries|
      invariant Scanned(locs[..i], latest) == Ok(entries)
    {
      if count >= MaxStations {
        ScannedSettled(locs, i, latest);
        return Ok(entries);
      }
      assert locs[..i + 1][..i] == locs[..i];
      var sensorId := PickSensor(locs[i].sensors);
      var answer := latest(sensorId);
      if answer.Raised? {
        assert Scanned(locs[..i + 1], latest).Raised?;
        ScannedSettled(locs, i + 1, latest);
        return Raised(answer.message);
      }
      var ms := answer.value;
      if ms != [] {
        var entry := Entry(locs[i].name, ms[|ms| - 1].value, ms[|ms| - 1].timeTo);
        entries := entries + [entry];
        count := count + 1;
      }
    }
    assert locs[..|locs|] == locs;
    return Ok(entries);
  }

  /** `e` placed in the non-increasing `t` before the first entry not above it. */
  function Insert(e: Entry, t: seq<Entry>): (r: seq<Entry>)
    ensures |r| == |t| + 1
    ensures multiset(r) == multiset(t) + multiset{e}
  {
    if t == [] || t[0].value <= e.value then [e] + t
    else
      assert t == [t[0]] + t[1..];
      [t[0]] + Insert(e, t[1..])
  }

  /** `sort(key=lambda x: x['value'], reverse=True)`, by insertion. */
  function SortDescending(s: seq<Entry>): (r: seq<Entry>)
    ensures |r| == |s|
    ensures multiset(r) == multiset(s)
  {
    if s == [] then []
    else
      assert s == [s[0]] + s[1..];
      Insert(s[0], SortDescending(s[1..]))
  }

  predicate NonIncreasing(s: seq<Entry>)
  {
    forall i, j :: 0 <= i < j < |s| ==> s[i].value >= s[j].value
  }

  /** The entries of `s` with value `v`, in order. */
  function WithValue(s: seq<Entry>, v: real): seq<Entry>
  {
    if s == [] then [] else (if s[0].value == v then [s[0]] else []) + WithValue(s[1..], v)
  }

  lemma {:induction false} InsertSorted(e: Entry, t: seq<Entry>)
    requires NonIncreasing(t)
    ensures NonIncreasing(Insert(e, t))
    ensures Insert(e, t)[0] == e || (t != [] && Insert(e, t)[0] == t[0])
    decreases |t|
  {
    var r := Insert(e, t);
    if t == [] || t[0].value <= e.value {
      forall i, j | 0 <= i < j < |r| ensures r[i].value >= r[j].value {
        assert r[j] == t[j - 1];
        if i > 0 { assert r[i] == t[i - 1]; }
      }
    } else {
      var tail := t[1..];
      assert NonIncreasing(tail) by {
        forall i, j | 0 <= i < j < |tail| ensures tail[i].value >= tail[j].value {
          assert tail[i] == t[i + 1] && tail[j] == t[j + 1];
        }
      }
      InsertSorted(e, tail);
      var rest := Insert(e, tail);
      assert r == [t[0]] + rest;
      assert rest[0].value <= t[0].value by {
        if rest[0] != e { assert rest[0] == t[1]; }
      }
      forall i, j | 0 <= i < j < |r| ensures r[i].value >= r[j].value {
        assert r[j] == rest[j - 1];
        if i > 0 { assert r[i] == rest[i - 1]; } else { assert rest[0].value >= rest[j - 1].value || j == 1; }
      }
    }
  }

  lemma {:induction false} InsertStable(e: Entry, t: seq<Entry>, v: real)
    ensures WithValue(Insert(e, t), v) == if e.value == v then [e] + WithValue(t, v) else WithValue(t, v)
    decreases |t|
  {
    if t == [] || t[0].value <= e.value {
      assert ([e] + t)[1..] == t;
    } else {
      var rest := Insert(e, t[1..]);
      InsertStable(e, t[1..], v);
      assert ([t[0]] + rest)[1..] == rest;
    }
  }

  /**
   * The ranking sort: non-increasing by value, a permutation of its input, and
   * stable (the entries of each value keep their order).
   */
  lemma {:induction false} SortDescendingFacts(s: seq<Entry>)
    ensures NonIncreasing(SortDescending(s))
    ensures multiset(SortDescending(s)) == multiset(s)
    ensures forall v :: WithValue(SortDescending(s), v) == WithValue(s, v)
    decreases |s|
  {
    if s != [] {
      SortDescendingFacts(s[1..]);
      InsertSorted(s[0], SortDescending(s[1..]));
      forall v ensures WithValue(SortDescending(s), v) == WithValue(s, v) {
        InsertStable(s[0], SortDescending(s[1..]), v);
      }
    }
  }

  /** The ranking frame: each entry with the AQI of its value. */
  function RankRows(entries: seq<Entry>, toAqi: ToAqi): (rows: seq<RankRow>)
    ensures |rows| == |entries|
    ensures forall i :: 0 <= i < |entries| ==>
      rows[i] == RankRow(entries[i].timeTo, entries[i].name, entries[i].value, toAqi(entries[i].value))
  {
    seq(|entries|, i requires 0 <= i < |entries| =>
      RankRow(entries[i].timeTo, entries[i].name, entries[i].value, toAqi(entries[i].value)))
  }

  /**
   * `get_ranking_by_country`: the cached frame when the cache loads, no frame
   * when it exists but does not load, the error of the listing or of the scan,
   * the `KeyError` on `'value'` exactly when the scan found no entry, and
   * otherwise one to ten rows, highest value first.
   */
  function RankingOutcome(cache: Cache<seq<RankRow>>, locations: Outcome<seq<Location>>, latest: Latest, toAqi: ToAqi)
    : (r: Outcome<Ranking>)
    ensures cache.Stored? ==> r == Ok(Frame(cache.content))
    ensures cache.Unreadable? ==> r == Ok(NoFrame)
    ensures cache.Missing? && locations.Raised? ==> r == Raised(locations.message)
    ensures cache.Missing? && locations.Ok? && Scanned(locations.value, latest).Raised? ==>
      r == Raised(Scanned(locations.value, latest).message)
    ensures cache.Missing? && locations.Ok? && Scanned(locations.value, latest).Ok? ==>
      (r == Raised(MissingValueColumn) <==> Scanned(locations.value, latest).value == [])
    ensures cache.Missing? && r.Ok? ==>
      && r.value.Frame? && 0 < |r.value.rows| <= MaxStations
      && forall i, j :: 0 <= i < j < |r.value.rows| ==> r.value.rows[i].value >= r.value.rows[j].value
  {
    match cache
    case Stored(rows) => Ok(Frame(rows))
    case Unreadable => Ok(NoFrame)
    case Missing =>
      match locations
      case Raised(e) => Raised(e)
      case Ok(locs) =>
        match Scanned(locs, latest)
        case Raised(e) => Raised(e)
        case Ok(entries) =>
          if entries == [] then Raised(MissingValueColumn)
          else
            SortDescendingFacts(entries);
            Ok(Frame(RankRows(SortDescending(entries), toAqi)))
  }

  /**
   * `get_ranking_by_country`: the cached frame when the cache loads, nothing when
   * it exists but does not load, otherwise the latest reading of at most ten
   * stations, highest value first.
   */
  method GetRanking(cache: Cache<seq<RankRow>>, locations: Outcome<seq<Location>>, latest: Latest, toAqi: ToAqi)
    returns (r: Outcome<Ranking>)
    ensures r == RankingOutcome(cache, locations, latest, toAqi)
  {
    if cache.Stored? {
      return Ok(Frame(cache.content));
    }
    if cache.Unreadable? {
      return Ok(NoFrame);
    }
    if locations.Raised? {
      return Raised(locations.message);
    }
    var scanned := ScanLatest(locations.value, latest);
    if scanned.Raised? {
      return Raised(scanned.message);
    }
    var entries := scanned.value;
    if entries == [] {
      return Raised(MissingValueColumn);
    }
    var sorted := SortDescending(entries);
    r := Ok(Frame(RankRows(sorted, toAqi)));
  }

  /**
   * A fetched ranking holds at most ten rows, highest value first, one per
   * scanned entry with ties in scanning order, each with the AQI of its value.
   */
  lemma FetchedRanking(locs: seq<Location>, latest: Latest, toAqi: ToAqi)
    ensures var r := RankingOutcome(Missing, Ok(locs), latest, toAqi);
      var scanned := Scanned(locs, latest);
      r.Ok? ==>
        && scanned.Ok? && r.value.Frame? && |r.value.rows| <= MaxStations
        && var sorted := SortDescending(scanned.value);
        && r.value.rows == RankRows(sorted, toAqi)
        && NonIncreasing(sorted)
        && multiset(sorted) == multiset(scanned.value)
        && forall v :: WithValue(sorted, v) == WithValue(scanned.value, v)
  {
    var scanned := Scanned(locs, latest);
    if scanned.Ok? {
      SortDescendingFacts(scanned.value);
    }
  }

  // --------------------------------------------------------------- KPI card

  /**
   * The status chain of `get_kpi_card`: the visualizer's bands, with
   * "sensitive groups" in lower case.
   */
  function KpiStatus(aqi: int): (status: string)
    ensures status == if Visualizer.Severity(aqi) == 2 then "Unhealthy for sensitive groups" else Visualizer.AqiStatus(aqi)
  {
    if aqi < 51 then "Good"
    else if aqi < 101 then "Moderate"
    else if aqi < 151 then "Unhealthy for sensitive groups"
    else if aqi < 201 then "Unhealthy"
    else if aqi < 301 then "Very Unhealthy"
    else "Hazardous"
  }

  /** What `get_kpi_card` prints: the AQI of the average value and its status. */
  datatype Kpi = Kpi(average: real, aqi: int, status: string)

  /**
   * `get_kpi_card`: the average lies between two of the values, the AQI is that
   * of the average, and the status is the band of the AQI.
   */
  function KpiCard(values: seq<real>, toAqi: ToAqi): (card: Kpi)
    requires |values| > 0
    ensures exists i :: 0 <= i < |values| && values[i] <= card.average
    ensures exists j :: 0 <= j < |values| && card.average <= values[j]
    ensures card.aqi == toAqi(card.average)
    ensures card.status == KpiStatus(card.aqi)
  {
    MeanWithinValues(values);
    var average := Mean(values);
    var aqi := toAqi(average);
    Kpi(average, aqi, KpiStatus(aqi))
  }

  /** The card's status is the band of the AQI of the average, which lies between the smallest and the largest value. */
  lemma KpiCardBand(values: seq<real>, toAqi: ToAqi, lo: real, hi: real)
    requires |values| > 0
    requires forall i :: 0 <= i < |values| ==> lo <= values[i] <= hi
    ensures var card := KpiCard(values, toAqi);
      && lo <= card.average <= hi
      && card.aqi == toAqi(card.average)
      && card.status == KpiStatus(card.aqi)
  {
    MeanBetween(values, lo, hi);
  }

  // ---------------------------------------------------------- country lookup

  datatype Country = Country(id: int, name: string)

  /** A country id, or the message string `get_country_by_name` returns instead. */
  datatype Lookup = CountryId(id: int) | Message(text: string)

  /** The id of the first country whose lower-cased name is `key`. */
  function FindByKey(countries: seq<Country>, key: string): Option<int>
  {
    if countries == [] then None
    else if key == Lower(countries[0].name) then Some(countries[0].id)
    else FindByKey(countries[1..], key)
  }

  /** FindByKey finds a country exactly when one matches, and it is the first match. */
  lemma {:induction false} FindByKeyIsFirst(countries: seq<Country>, key: string)
    ensures var r := FindByKey(countries, key);
      && (r.None? <==> forall i :: 0 <= i < |countries| ==> key != Lower(countries[i].name))
      && (r.Some? ==> exists i :: 0 <= i < |countries| && key == Lower(countries[i].name) && countries[i].id == r.value
                                  && forall j :: 0 <= j < i ==> key != Lower(countries[j].name))
  {
    if countries != [] && key != Lower(countries[0].name) {
      var rest := countries[1..];
      FindByKeyIsFirst(rest, key);
      assert forall i :: 1 <= i < |countries| ==> countries[i] == rest[i - 1];
      if FindByKey(rest, key).Some? {
        var i :| 0 <= i < |rest| && key == Lower(rest[i].name) && rest[i].id == FindByKey(rest, key).value
                 && forall j :: 0 <= j < i ==> key != Lower(rest[j].name);
        assert countries[i + 1] == rest[i];
      }
    }
  }

  /** The key the query is compared with: `selected_country.lower().strip()`. */
  function QueryKey(selected: string): string
  {
    Strip(Lower(selected))
  }

  /**
   * `get_country_by_name`: the error message when the listing raised; the id
   * of the first country whose lower-cased name is the query lower-cased and
   * stripped; "Cannot find results" exactly when no country matches.
   */
  function CountryLookup(selected: string, countries: Outcome<seq<Country>>): (r: Lookup)
    ensures countries.Raised? ==> r == Message("Error finding countris: " + countries.message)
    ensures countries.Ok? ==>
      (r == Message("Cannot find results for " + selected) <==>
       forall i :: 0 <= i < |countries.value| ==> QueryKey(selected) != Lower(countries.value[i].name))
    ensures r.CountryId? ==> countries.Ok?
    ensures r.CountryId? ==>
      exists i :: 0 <= i < |countries.value| && QueryKey(selected) == Lower(countries.value[i].name)
        && countries.value[i].id == r.id
        && forall j :: 0 <= j < i ==> QueryKey(selected) != Lower(countries.value[j].name)
  {
    match countries
    case Raised(e) => Message("Error finding countris: " + e)
    case Ok(cs) =>
      FindByKeyIsFirst(cs, QueryKey(selected));
      match FindByKey(cs, QueryKey(selected))
      case Some(id) => CountryId(id)
      case None => Message("Cannot find results for " + selected)
  }

  /** `get_country_by_name`. */
  method GetCountryByName(selected: string, countries: Outcome<seq<Country>>) returns (r: Lookup)
    ensures r == CountryLookup(selected, countries)
  {
    if countries.Raised? {
      return Message("Error finding countris: " + countries.message);
    }
    var cs := countries.value;
    for i := 0 to |cs|
      invariant FindByKey(cs[i..], QueryKey(selected)) == FindByKey(cs, QueryKey(selected))
    {
      if QueryKey(selected) == Lower(cs[i].name) {
        return CountryId(cs[i].id);
      }
      assert cs[i..][1..] == cs[i + 1..];
    }
    return Message("Cannot find results for " + selected);
  }

  lemma StripIdempotent(s: string)
    ensures Strip(Strip(s)) == Strip(s)
  {
    var r := Strip(s);
    if r != [] {
      assert StripStart(r) == r;
      assert StripEnd(r) == r;
    }
  }

  /** The lookup ignores the case of the query and the whitespace around it. */
  lemma LookupIgnoresCaseAndSpace(countries: seq<Country>, selected: string)
    ensures FindByKey(countries, QueryKey(Lower(selected))) == FindByKey(countries, QueryKey(selected))
    ensures FindByKey(countries, QueryKey(Strip(selected))) == FindByKey(countries, QueryKey(selected))
  {
    LowerIdempotent(selected);
    StripLowerCommute(selected);
    StripIdempotent(Lower(selected));
  }

}

/**
 * `fetchWeatherData` (src/fetch_weather.ts, lines 19-100): normalise the
 * configured cities, then for each city, in order, fetch its hourly series
 * and push at most one record, the 07:00 slot of today's date. Per-city
 * failures are caught and the loop goes on.
 *
 * The network and the clock are inputs: `outcomes[i]` is what the fetch of
 * the i-th normalised city produced, and `now` is the ISO timestamp of the
 * current instant.
 */
module FetchWeather {
  import opened Options
  import opened JsValue
  import opened CityList
  import opened HourlySlot
  import opened CityStep

  /** The records a city adds: its record, or nothing when it is skipped. */
  function Emitted(r: CityResult): seq<WeatherData> {
    match r
    case Recorded(rec) => [rec]
    case Skipped(_) => []
  }

  /** The records the loop has pushed after the cities whose results are `results`. */
  function Records(results: seq<CityResult>): (records: seq<WeatherData>)
    ensures |records| <= |results|
  {
    if results == [] then []
    else
      var n := |results| - 1;
      Records(results[..n]) + Emitted(results[n])
  }

  /** One more city appends what it produced to the records of the ones before it. */
  lemma RecordsStep(results: seq<CityResult>, i: nat)
    requires i < |results|
    ensures Records(results[..i + 1]) == Records(results[..i]) + Emitted(results[i])
  {
    assert results[..i + 1][..i] == results[..i];
  }

  /** The positions of the cities that produced a record, in increasing order. */
  function Contributors(results: seq<CityResult>): (idx: seq<nat>)
    ensures forall k | 0 <= k < |idx| :: idx[k] < |results|
    ensures forall k, l | 0 <= k < l < |idx| :: idx[k] < idx[l]
    ensures forall i | 0 <= i < |results| :: i in idx <==> results[i].Recorded?
  {
    if results == [] then []
    else
      var n := |results| - 1;
      var rest := Contributors(results[..n]);
      if results[n].Recorded? then rest + [n] else rest
  }

  /**
   * The records follow the cities: the k-th record is the one produced by
   * the k-th contributing city, so records keep the cities' relative order,
   * each city gives at most one, and every city that yields a record is
   * represented.
   */
  lemma {:induction false} RecordsFollowCities(results: seq<CityResult>)
    ensures var records, idx := Records(results), Contributors(results);
      |records| == |idx| &&
      forall k | 0 <= k < |idx| :: records[k] == results[idx[k]].record
  {
    if results != [] {
      var n := |results| - 1;
      var front := results[..n];
      RecordsFollowCities(front);
      var records, idx := Records(front), Contributors(front);
      var all := Records(results);
      assert all == records + Emitted(results[n]);
      if results[n].Recorded? {
        assert Contributors(results) == idx + [n];
        forall k | 0 <= k < |idx| + 1
          ensures all[k] == results[(idx + [n])[k]].record
        {
          if k < |idx| {
            assert all[k] == records[k];
          }
        }
      } else {
        assert Contributors(results) == idx;
        assert all == records;
        forall k | 0 <= k < |idx|
          ensures all[k] == results[idx[k]].record
        {
          assert results[idx[k]] == front[idx[k]];
        }
      }
    }
  }

  /**
   * Each city's contribution is independent of the others: the records of
   * a concatenation of city results are the concatenation of their records.
   */
  lemma {:induction false} RecordsAppend(a: seq<CityResult>, b: seq<CityResult>)
    ensures Records(a + b) == Records(a) + Records(b)
  {
    if b == [] {
      assert a + b == a;
    } else {
      var n := |b| - 1;
      var ab := a + b;
      assert ab[..|ab| - 1] == a + b[..n];
      assert ab[|ab| - 1] == b[n];
      RecordsAppend(a, b[..n]);
      var x, y, e := Records(a), Records(b[..n]), Emitted(b[n]);
      assert Records(ab) == (x + y) + e;
      assert (x + y) + e == x + (y + e);
    }
  }

  /**
   * A city that is skipped, for whatever reason, does not stop the loop:
   * the records of the cities before it are kept and those after it are
   * still collected.
   */
  lemma {:induction false} SkippedCityKeepsOthers(results: seq<CityResult>, i: nat)
    requires i < |results| && results[i].Skipped?
    ensures Records(results) == Records(results[..i]) + Records(results[i + 1..])
  {
    var upto, after := results[..i + 1], results[i + 1..];
    RecordsAppend(upto, after);
    assert upto + after == results;
    assert upto[..i] == results[..i];
    assert Emitted(upto[i]) == [];
    assert Records(upto) == Records(results[..i]) + [];
  }

  /** The result of each city in turn. */
  function Results(cities: seq<Value>, outcomes: seq<Fetched>, prefix: string): seq<CityResult>
    requires |cities| == |outcomes|
  {
    seq(|cities|, i requires 0 <= i < |cities| => ProcessCity(cities[i], outcomes[i], prefix))
  }

  /** Every record the loop pushes is a 07:00 entry of the target date. */
  lemma RecordsMatchTarget(cities: seq<Value>, outcomes: seq<Fetched>, prefix: string)
    requires |cities| == |outcomes|
    ensures forall k | 0 <= k < |Records(Results(cities, outcomes, prefix))| ::
      StartsWith(Records(Results(cities, outcomes, prefix))[k].time, prefix)
  {
    var results := Results(cities, outcomes, prefix);
    RecordsFollowCities(results);
    var idx := Contributors(results);
    forall k | 0 <= k < |Records(results)|
      ensures StartsWith(Records(results)[k].time, prefix)
    {
      RecordedTimeMatches(cities[idx[k]], outcomes[idx[k]], prefix);
    }
  }

  /** The normalised cities, none when the configuration is rejected. */
  function CitiesOf(config: Value): seq<Value> {
    Normalize(config).GetOr([])
  }

  /** What `fetchWeatherData` resolves to, with a catch handler that cannot throw. */
  function FetchSpec(config: Value, now: string, outcomes: seq<Fetched>): seq<WeatherData>
    requires |outcomes| == |CitiesOf(config)|
  {
    match Normalize(config)
    case None => []
    case Some(cities) => Records(Results(cities, outcomes, TargetHour(now)))
  }

  /** A rejected configuration gives an empty result and processes no city. */
  lemma InvalidConfigGivesEmpty(config: Value, now: string)
    requires Normalize(config).None?
    ensures CitiesOf(config) == [] && FetchSpec(config, now, []) == []
  {
  }

  /** A configuration that is a number, a string, a boolean, null or undefined gives an empty result. */
  lemma PrimitiveConfigRejected(raw: Value, now: string)
    requires raw.Num? || raw.Str? || raw.Bool? || raw.Null? || raw.Undefined?
    ensures Normalize(raw) == None && FetchSpec(raw, now, []) == []
  {
  }

  /**
   * The script's loop over the normalised cities: one iteration per city, in
   * order, pushing the city's record when it yields one.
   */
  method PushRecords(cities: seq<Value>, outcomes: seq<Fetched>, targetHourString: string)
    returns (weatherData: seq<WeatherData>)
    requires |outcomes| == |cities|
    ensures weatherData == Records(Results(cities, outcomes, targetHourString))
  {
    weatherData := [];
    ghost var results := Results(cities, outcomes, targetHourString);
    for i := 0 to |cities|
      invariant weatherData == Records(results[..i])
    {
      RecordsStep(results, i);
      var city := cities[i];
      assert results[i] == ProcessCity(city, outcomes[i], targetHourString);
      // a nullish city or a failed fetch throws; the catch skips the city
      if !IsNullish(city) && outcomes[i].Fetched? {
        var data := outcomes[i].data;
        if HasSeries(data) {
          var index := FindIndex(Times(data), targetHourString);
          if index != -1 {
            var item := BuildRecord(city, data, index);
            if item.Normal? {
              weatherData := weatherData + [item.value];
            }
          }
        }
      }
    }
    assert results[..|cities|] == results;
  }

  /**
   * The script's own algorithm: unwrap and shape the cities by reassigning
   * one variable, return early when they are not valid, and push the
   * records in a loop.
   */
  method FetchWeatherData(config: Value, now: string, outcomes: seq<Fetched>)
    returns (weatherData: seq<WeatherData>)
    requires |outcomes| == |CitiesOf(config)|
    ensures weatherData == FetchSpec(config, now, outcomes)
    ensures |weatherData| <= |outcomes|
    ensures forall k | 0 <= k < |weatherData| :: StartsWith(weatherData[k].time, DatePart(now) + "T07")
  {
    weatherData := [];
    var cities := config;
    if Truthy(cities) && Truthy(Get(cities, "city")) {
      cities := Get(cities, "city");
    }
    assert cities == Unwrap(config);
    if !cities.Arr? {
      if Truthy(cities) && TypeofObject(cities) {
        if Truthy(Get(cities, "$")) {
          cities := Arr([cities]);
        } else {
          cities := Arr(ObjectValues(cities.props));
        }
      } else {
        return;
      }
    }
    assert Normalize(config) == Some(cities.items);
    var targetHourString := DatePart(now) + "T07";
    weatherData := PushRecords(cities.items, outcomes, targetHourString);
    RecordsMatchTarget(cities.items, outcomes, targetHourString);
  }

  /** The loop as written: the first exception escaping a catch rejects the whole call. */
  function RecordsAsWritten(steps: seq<Completion<CityResult>>): Completion<seq<WeatherData>> {
    if steps == [] then Normal([])
    else
      var n := |steps| - 1;
      match RecordsAsWritten(steps[..n])
      case Throw => Throw
      case Normal(rest) =>
        match steps[n]
        case Throw => Throw
        case Normal(r) => Normal(rest + Emitted(r))
  }

  /** `fetchWeatherData` as written: it rejects, or resolves to its records. */
  function FetchAsWritten(config: Value, now: string, outcomes: seq<Fetched>): Completion<seq<WeatherData>>
    requires |outcomes| == |CitiesOf(config)|
  {
    match Normalize(config)
    case None => Normal([])
    case Some(cities) =>
      RecordsAsWritten(seq(|cities|, i requires 0 <= i < |cities| =>
        ProcessCityAsWritten(cities[i], outcomes[i], TargetHour(now))))
  }

  /**
   * As written, the call rejects exactly when some iteration throws out of
   * its catch; otherwise it resolves to the records of the iterations.
   */
  lemma {:induction false} AsWrittenRejectsOnEscape(steps: seq<Completion<CityResult>>, results: seq<CityResult>)
    requires |steps| == |results|
    requires forall i | 0 <= i < |steps| :: steps[i].Normal? ==> steps[i].value == results[i]
    ensures RecordsAsWritten(steps).Throw? <==> exists i | 0 <= i < |steps| :: steps[i].Throw?
    ensures RecordsAsWritten(steps).Normal? ==> RecordsAsWritten(steps).value == Records(results)
  {
    if steps != [] {
      var n := |steps| - 1;
      AsWrittenRejectsOnEscape(steps[..n], results[..n]);
      if exists i | 0 <= i < n :: steps[..n][i].Throw? {
        var i :| 0 <= i < n && steps[..n][i].Throw?;
        assert steps[i].Throw?;
      }
      if exists i | 0 <= i < |steps| :: steps[i].Throw? {
        var i :| 0 <= i < |steps| && steps[i].Throw?;
        if i < n {
          assert steps[..n][i].Throw?;
        }
      }
    }
  }

  /**
   * As written, `fetchWeatherData` rejects exactly when some normalised
   * entry is nullish; otherwise it resolves to what the corrected loop
   * computes.
   */
  lemma AsWrittenRejectsOnNullish(config: Value, now: string, outcomes: seq<Fetched>)
    requires |outcomes| == |CitiesOf(config)|
    ensures FetchAsWritten(config, now, outcomes).Throw? <==>
      exists i | 0 <= i < |CitiesOf(config)| :: IsNullish(CitiesOf(config)[i])
    ensures FetchAsWritten(config, now, outcomes).Normal? ==>
      FetchAsWritten(config, now, outcomes).value == FetchSpec(config, now, outcomes)
  {
    if Normalize(config).Some? {
      var cities := Normalize(config).value;
      var prefix := TargetHour(now);
      var steps := seq(|cities|, i requires 0 <= i < |cities| =>
        ProcessCityAsWritten(cities[i], outcomes[i], prefix));
      AsWrittenRejectsOnEscape(steps, Results(cities, outcomes, prefix));
      assert forall i | 0 <= i < |cities| :: steps[i].Throw? <==> IsNullish(cities[i]);
    }
  }

  /** The configuration `[null]`: as written the call rejects; corrected it resolves to no records. */
  lemma NullCityRejectsAsWritten(now: string, outcome: Fetched)
    ensures CitiesOf(Arr([Null])) == [Null]
    ensures FetchAsWritten(Arr([Null]), now, [outcome]) == Throw
    ensures FetchSpec(Arr([Null]), now, [outcome]) == []
  {
    AsWrittenRejectsOnNullish(Arr([Null]), now, [outcome]);
    var results := Results([Null], [outcome], TargetHour(now));
    assert results[..0] == [];
  }
}

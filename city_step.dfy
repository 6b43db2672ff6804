/**
 * One iteration of the loop of `fetchWeatherData` (src/fetch_weather.ts,
 * lines 53-97): the `try` block that fetches a city's series and builds its
 * record, and the `catch` that logs and moves on.
 *
 * The network is an input: a city's `Fetched` value is what
 * `fetchWithRetry` produced for it.
 */
module CityStep {
  import opened Options
  import opened JsValue
  import opened HourlySlot

  /**
   * The result of `fetchWithRetry` for one city: a rejection (or a body
   * whose `hourly` cannot be read) is Failed.
   */
  datatype Fetched = Failed | Fetched(data: Response)

  /** Why a city produced no record: skipped silently, warned about, or an error caught. */
  datatype SkipReason = NoHourlyData | NoMorningSlot | Caught

  datatype CityResult = Recorded(record: WeatherData) | Skipped(reason: SkipReason)

  /**
   * Lines 55-93, the body of the `try`: building the URL reads
   * `city.latitude`, which throws for a nullish entry; a failed fetch
   * throws; indexing an absent column throws.
   */
  function TryBlock(city: Value, outcome: Fetched, prefix: string): Completion<CityResult> {
    if IsNullish(city) || outcome.Failed? then Throw
    else if !HasSeries(outcome.data) then Normal(Skipped(NoHourlyData))
    else
      var i := FindIndex(Times(outcome.data), prefix);
      if i == -1 then Normal(Skipped(NoMorningSlot))
      else
        match BuildRecord(city, outcome.data, i)
        case Throw => Throw
        case Normal(rec) => Normal(Recorded(rec))
  }

  /** Some entry of the fetched series starts with `prefix`. */
  predicate HasSlot(data: Response, prefix: string)
    requires HasSeries(data)
  {
    exists j | 0 <= j < |Times(data)| :: StartsWith(Times(data)[j], prefix)
  }

  /**
   * One iteration with a catch handler that cannot itself throw: whatever
   * goes wrong, the city is skipped and the loop goes on.
   */
  function ProcessCity(city: Value, outcome: Fetched, prefix: string): CityResult {
    match TryBlock(city, outcome, prefix)
    case Normal(r) => r
    case Throw => Skipped(Caught)
  }

  /**
   * A city yields a record exactly when its entry is not nullish, its fetch
   * succeeded, its series is non-empty, some entry starts with the prefix
   * and both measurement columns exist; that record is built from the first
   * such entry. A missing or empty series is skipped silently, a series
   * without the slot with a warning, and everything else is caught.
   */
  lemma ProcessCityCases(city: Value, outcome: Fetched, prefix: string)
    ensures ProcessCity(city, outcome, prefix).Recorded? <==>
      !IsNullish(city) && outcome.Fetched? && HasSeries(outcome.data) &&
      HasSlot(outcome.data, prefix) &&
      outcome.data.hourly.value.temperature2m.Some? &&
      outcome.data.hourly.value.relativeHumidity2m.Some?
    ensures ProcessCity(city, outcome, prefix).Recorded? ==>
      exists i :: IsFirstMatch(Times(outcome.data), prefix, i) &&
        FromSlot(ProcessCity(city, outcome, prefix).record, city, outcome.data, i)
    ensures ProcessCity(city, outcome, prefix) == Skipped(NoHourlyData) <==>
      !IsNullish(city) && outcome.Fetched? && !HasSeries(outcome.data)
    ensures ProcessCity(city, outcome, prefix) == Skipped(NoMorningSlot) <==>
      !IsNullish(city) && outcome.Fetched? && HasSeries(outcome.data) &&
      !HasSlot(outcome.data, prefix)
  {
    if !IsNullish(city) && outcome.Fetched? && HasSeries(outcome.data) {
      var i := FindIndex(Times(outcome.data), prefix);
      if i != -1 {
        assert IsFirstMatch(Times(outcome.data), prefix, i);
        assert StartsWith(Times(outcome.data)[i], prefix);
      }
    }
  }

  /** Every record a city yields carries a time that starts with the prefix. */
  lemma RecordedTimeMatches(city: Value, outcome: Fetched, prefix: string)
    requires ProcessCity(city, outcome, prefix).Recorded?
    ensures StartsWith(ProcessCity(city, outcome, prefix).record.time, prefix)
  {
    ProcessCityCases(city, outcome, prefix);
  }

  /**
   * One iteration as written: the catch handler logs `city.name`, which
   * throws again when the entry is `null` or `undefined` (the `try` already
   * threw on `city.latitude`), and that exception leaves the loop.
   */
  function ProcessCityAsWritten(city: Value, outcome: Fetched, prefix: string): (r: Completion<CityResult>)
    ensures r.Throw? <==> IsNullish(city)
    ensures r.Normal? ==> r.value == ProcessCity(city, outcome, prefix)
  {
    match TryBlock(city, outcome, prefix)
    case Normal(res) => Normal(res)
    case Throw => if IsNullish(city) then Throw else Normal(Skipped(Caught))
  }
}

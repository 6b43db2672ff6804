/**
 * The 07:00 slot of an hourly series and the record built from it
 * (src/fetch_weather.ts, lines 6-17 and 62-87): the first `time` entry that
 * starts with `<date>T07` is located, and the entries at the same index of
 * the parallel `temperature_2m` and `relative_humidity_2m` columns are
 * copied into a record.
 */
module HourlySlot {
  import opened Options
  import opened JsValue

  /** A copied measurement, or `undefined` when the column is shorter than the time series. */
  datatype Reading = Reading(value: Number) | NoReading

  /**
   * The `hourly` object of a response. A None `time` is absent or falsy; a
   * None measurement column is absent or null, so that indexing it throws.
   */
  datatype Hourly = Hourly(
    time: Option<seq<string>>,
    temperature2m: Option<seq<Number>>,
    relativeHumidity2m: Option<seq<Number>>)

  /** The JSON body the weather API returns for one city. */
  datatype Response = Response(
    latitude: Number,
    longitude: Number,
    elevation: Number,
    utcOffsetSeconds: Number,
    timezone: string,
    timezoneAbbreviation: string,
    hourly: Option<Hourly>)

  /** The `WeatherData` record; `city` is whatever the configured entry's `name` holds. */
  datatype WeatherData = WeatherData(
    city: Value,
    latitude: Number,
    longitude: Number,
    elevation: Number,
    utcOffsetSeconds: Number,
    timezone: string,
    timezoneAbbreviation: string,
    time: string,
    temperature2m: Reading,
    humidity2m: Reading)

  /** `s.startsWith(prefix)` */
  predicate StartsWith(s: string, prefix: string) {
    |prefix| <= |s| && s[..|prefix|] == prefix
  }

  /** `iso.slice(0, 10)`: the `YYYY-MM-DD` part of an ISO timestamp. */
  function DatePart(iso: string): (date: string)
    ensures |date| == if |iso| < 10 then |iso| else 10
    ensures StartsWith(iso, date)
  {
    if |iso| <= 10 then iso else iso[..10]
  }

  /** The prefix `<date>T07` searched for, from the ISO timestamp of the current instant. */
  function TargetHour(now: string): string {
    DatePart(now) + "T07"
  }

  /** `i` is the position of the first entry of `times` that starts with `prefix`. */
  predicate IsFirstMatch(times: seq<string>, prefix: string, i: int) {
    0 <= i < |times| && StartsWith(times[i], prefix) &&
    forall j | 0 <= j < i :: !StartsWith(times[j], prefix)
  }

  /** `times.findIndex(t => t.startsWith(prefix))`, with -1 for "no such entry". */
  function FindIndex(times: seq<string>, prefix: string): (i: int)
    ensures -1 <= i < |times|
    ensures i == -1 <==> forall j | 0 <= j < |times| :: !StartsWith(times[j], prefix)
    ensures i != -1 ==> IsFirstMatch(times, prefix, i)
  {
    if times == [] then -1
    else if StartsWith(times[0], prefix) then 0
    else
      var k := FindIndex(times[1..], prefix);
      if k == -1 then -1 else k + 1
  }

  /** The first match is unique: any position that is a first match is the one found. */
  lemma FindIndexIsFirstMatch(times: seq<string>, prefix: string, i: int)
    requires IsFirstMatch(times, prefix, i)
    ensures FindIndex(times, prefix) == i
  {
  }

  /** `data.hourly && data.hourly.time && data.hourly.time.length > 0` */
  predicate HasSeries(data: Response) {
    data.hourly.Some? && data.hourly.value.time.Some? && |data.hourly.value.time.value| > 0
  }

  function Times(data: Response): seq<string>
    requires HasSeries(data)
  {
    data.hourly.value.time.value
  }

  /** `column[i]` for a column that exists: `undefined` past its end. */
  function ReadingAt(column: seq<Number>, i: nat): Reading {
    if i < |column| then Reading(column[i]) else NoReading
  }

  /**
   * `rec` is the record for index `i` of the series: the time, temperature
   * and humidity all come from that one index, the city is the configured
   * entry's `name`, and the location fields are the response's own.
   */
  predicate FromSlot(rec: WeatherData, city: Value, data: Response, i: nat)
    requires !IsNullish(city) && HasSeries(data) && i < |Times(data)|
    requires data.hourly.value.temperature2m.Some? && data.hourly.value.relativeHumidity2m.Some?
  {
    var h := data.hourly.value;
    rec.time == h.time.value[i] &&
    rec.temperature2m == ReadingAt(h.temperature2m.value, i) &&
    rec.humidity2m == ReadingAt(h.relativeHumidity2m.value, i) &&
    rec.city == Get(city, "name") &&
    rec.latitude == data.latitude && rec.longitude == data.longitude &&
    rec.elevation == data.elevation && rec.utcOffsetSeconds == data.utcOffsetSeconds &&
    rec.timezone == data.timezone && rec.timezoneAbbreviation == data.timezoneAbbreviation
  }

  /**
   * Lines 76-87: the record for index `i` of the series. Indexing an absent
   * column throws a TypeError, which the caller's catch handles.
   */
  function BuildRecord(city: Value, data: Response, i: nat): (r: Completion<WeatherData>)
    requires !IsNullish(city) && HasSeries(data) && i < |Times(data)|
    ensures r.Normal? <==>
      data.hourly.value.temperature2m.Some? && data.hourly.value.relativeHumidity2m.Some?
    ensures r.Normal? ==> FromSlot(r.value, city, data, i)
  {
    var h := data.hourly.value;
    if h.temperature2m.None? || h.relativeHumidity2m.None? then Throw
    else
      Normal(WeatherData(
        Get(city, "name"),
        data.latitude, data.longitude, data.elevation, data.utcOffsetSeconds,
        data.timezone, data.timezoneAbbreviation,
        h.time.value[i],
        ReadingAt(h.temperature2m.value, i),
        ReadingAt(h.relativeHumidity2m.value, i)))
  }
}

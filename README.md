# fetchWeatherData, modelled in Dafny

A model of the weather fetch script `src/fetch_weather.ts`. Its one function,
`fetchWeatherData`, reads the configured cities, fetches each city's hourly
forecast from the weather API, and keeps one `WeatherData` record per city:
the reading whose `time` is the first one starting with `<today>T07`. Errors
for one city are caught, and the loop goes on to the next city.

The model has five modules:

- `JsValue` (`js_value.dfy`) models the loosely typed JavaScript values a
  configuration can hold: `undefined`, `null`, booleans, numbers, strings,
  arrays, and objects whose properties are listed in enumeration order. It
  also gives the three operations the script uses on them: truthiness, a
  property read, and `Object.values`.
- `CityList` (`city_list.dfy`) turns the raw `cities` value into the ordered
  list of city entries (lines 27-49). It returns None when the script logs
  "Cities config is not valid" and returns early.
- `HourlySlot` (`hourly_slot.dfy`) covers the `findIndex`/`startsWith` search
  for the `<date>T07` slot and the construction of the record from the
  parallel hourly columns (lines 6-17 and 62-87).
- `CityStep` (`city_step.dfy`) models one loop iteration: the `try` block,
  and the `catch` that skips the city.
- `FetchWeather` (`fetch_weather.dfy`) holds the method `FetchWeatherData`.
  It follows the script: it reassigns the cities variable and returns early
  on an invalid configuration. Then `PushRecords` appends the records in a
  `for` loop over the normalised cities. Both methods are proved equal to a
  specification function over the per-city results, and that function's
  order, length and isolation properties are lemmas.

The network and the clock are inputs. `outcomes[i]` is what `fetchWithRetry`
gave for the i-th normalised city. `now` is the ISO timestamp that
`new Date().toISOString()` would return, and the target date is its first
ten characters.

One might expect `{ city: {name: "A", ...} }` to give a one-element list, but
the code does not do that. The code wraps an object only when it has a
truthy `$` property (the xml2js attribute marker). Any other object becomes
`Object.values` of itself, so that example gives three entries: the name, the
latitude and the longitude. The model follows the code
(`CityList.SingleCityWithoutMarker`, `CityList.SingleCityWithMarker`).

## Model

| member | source | states |
|---|---|---|
| `JsValue.Lookup` | src/fetch_weather.ts:30-38 | a property read returns the value stored under that name; it is `undefined` when the object has no property of that name |
| `JsValue.ObjectValues` | src/fetch_weather.ts:43 | `Object.values` returns one entry per property, the i-th being the i-th property's value |
| `CityList.Normalize` | src/fetch_weather.ts:27-49 | the configuration is rejected exactly when the value, after unwrapping `city`, is neither an array nor an object; every listed city is that value itself or one of its items or property values |
| `CityList.ArrayUsedUnchanged` | src/fetch_weather.ts:30-34 | an array is used unchanged, whether it is given directly or under a truthy `city` property |
| `CityList.CityUnwrappedFirst` | src/fetch_weather.ts:29-32 | a truthy value with a truthy `city` property is replaced by that property before any shape check, and is not unwrapped a second time |
| `CityList.MarkedObjectIsOneCity` | src/fetch_weather.ts:36-40 | an object with a truthy `$` property becomes a one-element list holding that object |
| `CityList.UnmarkedObjectGivesValues` | src/fetch_weather.ts:41-44 | any other object becomes the list of its property values, in enumeration order, one entry per property |
| `CityList.NonObjectRejected` | src/fetch_weather.ts:45-48 | null, undefined and primitives such as a number are rejected, so no city is processed |
| `CityList.NormalizeCanonical` | src/fetch_weather.ts:27-49 | a normalised list passed back in as an array normalises to itself |
| `CityList.SingleCityWithoutMarker` | src/fetch_weather.ts:36-44 | `{city: {name, latitude, longitude}}` with no `$` gives three entries (name, latitude, longitude), not one city |
| `CityList.SingleCityWithMarker` | src/fetch_weather.ts:36-40 | the same single city (name, latitude, longitude) with a truthy `$` property gives a one-element list holding it |
| `HourlySlot.DatePart` | src/fetch_weather.ts:65 | `slice(0, 10)` returns the first ten characters of the timestamp, or all of it when it is shorter |
| `HourlySlot.FindIndex` | src/fetch_weather.ts:71-73 | `findIndex` returns -1 exactly when no entry starts with the prefix; otherwise it returns the index of the first entry that does |
| `HourlySlot.FindIndexIsFirstMatch` | src/fetch_weather.ts:71-73 | the first matching index is unique, and `findIndex` returns it |
| `HourlySlot.BuildRecord` | src/fetch_weather.ts:76-87 | the record is built exactly when both measurement columns exist; its time, temperature and humidity come from the same index; its city is the entry's `name`; its location and timezone fields are copied from the response |
| `CityStep.ProcessCityCases` | src/fetch_weather.ts:54-96 | a city yields a record exactly when: the entry is not nullish, the fetch succeeded, the series is non-empty, some entry has the prefix, and both columns exist. The record comes from the first entry with the prefix. A missing or empty series means a silent skip, and no match means a skip with a warning |
| `CityStep.RecordedTimeMatches` | src/fetch_weather.ts:68-84 | the `time` of every record a city yields starts with `<date>T07` |
| `CityStep.ProcessCityAsWritten` | src/fetch_weather.ts:94-96 | as written, an iteration throws out of its `catch` exactly when the city entry is nullish; otherwise it ends as the corrected iteration does |
| `FetchWeather.Records` | src/fetch_weather.ts:53-99 | the loop never pushes more records than there are cities |
| `FetchWeather.Contributors` | src/fetch_weather.ts:53-97 | the positions of the cities that yield a record, strictly increasing; a city is listed exactly when it yields a record |
| `FetchWeather.RecordsFollowCities` | src/fetch_weather.ts:53-99 | the k-th record is the record of the k-th contributing city. So records keep the cities' order, each city gives at most one, and every recordable city is included |
| `FetchWeather.RecordsAppend` | src/fetch_weather.ts:53-97 | the records of two runs of cities joined together are the records of each run, joined |
| `FetchWeather.SkippedCityKeepsOthers` | src/fetch_weather.ts:62-96 | a skipped city (no series, no 07 slot, or a caught error) stops nothing: the records of the cities before and after it are kept |
| `FetchWeather.RecordsMatchTarget` | src/fetch_weather.ts:64-84 | every record the loop pushes has a time that starts with `<date>T07` |
| `FetchWeather.PrimitiveConfigRejected` | src/fetch_weather.ts:34-48 | a configuration that is a number, string, boolean, null or undefined is rejected and gives an empty result |
| `FetchWeather.InvalidConfigGivesEmpty` | src/fetch_weather.ts:45-48 | a rejected configuration processes no city and gives an empty result |
| `FetchWeather.PushRecords` | src/fetch_weather.ts:53-97 | the loop over the normalised cities pushes exactly the records of the per-city results, in city order, with the `catch` skipping a failed city |
| `FetchWeather.FetchWeatherData` | src/fetch_weather.ts:19-100 | the method returns the records `FetchSpec` defines, without throwing. It returns at most one record per city, and every record's time starts with the first ten characters of `now` followed by `T07` |
| `FetchWeather.AsWrittenRejectsOnEscape` | src/fetch_weather.ts:53-97 | as written, the call rejects exactly when some iteration throws out of its `catch`; otherwise it returns the records of the iterations |
| `FetchWeather.AsWrittenRejectsOnNullish` | src/fetch_weather.ts:94-96 | as written, the call rejects exactly when some normalised city entry is `null` or `undefined`; otherwise its result equals the corrected one |
| `FetchWeather.NullCityRejectsAsWritten` | src/fetch_weather.ts:53-96 | for the configuration `[null]`, the code as written rejects, while the corrected loop returns an empty list |

## Findings

| source | as written | input that shows it | evidently intended | confidence | as-written member | corrected member |
|---|---|---|---|---|---|---|
| src/fetch_weather.ts:94-96 | the `catch` block logs `city.name`; for a `null` or `undefined` entry, that read throws a second TypeError (the first came from `city.latitude` in the URL), which escapes the function | cities configuration `[null]` (or an object with a `null` property value) | the city is skipped like any other failed city, and the function never rejects | medium, not executed | `FetchWeather.NullCityRejectsAsWritten` | `FetchWeather.FetchWeatherData` |

`FetchWeather.FetchWeatherData` and `FetchWeather.FetchSpec` use the corrected
iteration `CityStep.ProcessCity`, whose `catch` cannot throw. The code as
written is modelled by `CityStep.ProcessCityAsWritten` and
`FetchWeather.FetchAsWritten`. `FetchWeather.AsWrittenRejectsOnNullish` shows
that the two differ only when the as-written call rejects.

## Left out

- `fetchWithRetry` and its retry policy (`./api_client` is not part of this model): each city's result is an input. A rejected fetch, or a body whose `hourly` cannot be read (`null`), is `Failed`.
- `configManager.getWeatherAPIConfig()` (`./config_manager` is not part of this model): the raw `cities` value is a parameter. `url` and `parameters.hourly` are used only to build the request URL, which is left out. It is a string with no behaviour to verify.
- The clock: `now` is a parameter, read once. The script calls `new Date()` again for every city, so a run across midnight could use two dates. The model uses one instant for all cities. It also does not resolve that the date is taken in UTC while the request names `Asia/Ho_Chi_Minh`.
- `console.error` and `console.warn`: a skipped city carries its reason (`NoHourlyData`, `NoMorningSlot`, `Caught`) instead. `async`/`await` is left out too, since the loop is sequential. So are the unused `fs`, `path` and `controlDBManager` imports.
- Numbers: a number is a value that is only copied. Only its truthiness is modelled, and there is no arithmetic or floating-point behaviour.
- JavaScript values: arrays and primitives carry no named properties, so reading `city`, `$` or `name` on them gives `undefined`. Functions, getters, prototypes and duplicate property names are not modelled. The properties of an object are taken to be listed already in JavaScript's enumeration order.
- The response: its location and timezone fields are always present and copied as they are. `hourly.time` and the two columns are arrays or absent. A `time` that is present but not an array, and non-string entries, are not modelled. A column shorter than the series gives `undefined`, which is `NoReading`.
- The configuration's `url` and `parameters` are taken to be present. If `parameters` were missing, reading `parameters.hourly` on line 56 would throw in every iteration, and every city would be skipped as a caught error; the model does not capture that case.
- `FetchWeather.FetchWeatherData`: it requires one fetch result per normalised city, and none for a rejected configuration. This is how the model supplies the network. It is not a demand the script makes of its callers.

# live_weather forecast pipeline in Dafny

This project models the weather service of live_weather (`Develop/server/src/service/weatherService.ts`).
The service takes a city name and geocodes it through the provider's `/geo/1.0/direct` endpoint.
It fetches the `/data/2.5/forecast` series for the resulting coordinates.
It returns a list of `Weather` records: the current conditions taken from the first slot of the series, then one record per slot whose `dt_txt` ends with `" 12:00:00"`.

Modules, one per part of the service:

- `Wrappers`: `Option` and a `Result` that works with `:-`. A thrown error is a `Failure`, and `:-` re-throws it unchanged.
- `WeatherModel`: the provider payloads (`GeoMatch`, `ForecastEntry`, `WeatherApiResponse`), the `WeatherData` and `Weather` records, the `Error` kinds, and the `Weather` constructor (`NewWeather`) with its Kelvin to Fahrenheit conversion. It also holds `Derives`, a predicate that says which fields of an entry a record must carry.
- `Location`: `buildGeocodeQuery`, `fetchLocationData` and `fetchAndDestructureLocationData`.
- `Forecast`: `buildWeatherQuery`, `fetchWeatherData`, `parseCurrentWeather`, the noon-slot filter and `buildForecastArray`.
- `Service`: `WeatherForCity`, the whole call as a function of the provider replies; the `WeatherService` class, whose `GetWeatherForCity` method assigns the `cityName` field and then runs the stages; worked scenarios.

How the outside world enters the model:

- The network is a `Network` value holding two functions, one per endpoint. Each maps the requested URL to a `Reply`: `Delivered(body)`, `NotOk(statusText)` (a response whose `ok` is false), or `FetchRejected(reason)` (`fetch` itself threw).
- "The forecast endpoint is never called" is stated as: the result does not depend on the forecast function.
- Three JavaScript library calls depend on the engine and locale: rendering a number in a template string, `toLocaleString`, and `toLocaleDateString`. They are the three functions of a `Runtime` value and stay uninterpreted.
- The temperature conversion is computed over exact reals. `Round2` is `toFixed(2)` followed by `parseFloat`: the nearest hundredth, with a tie going to the larger magnitude, so a negative tie rounds away from zero.
- The private helpers that read `this.cityName` (`buildGeocodeQuery`, `fetchAndDestructureLocationData`) take the field's value as a parameter. `GetWeatherForCity` passes them its `cityName` field after assigning it.

Points of the code the model keeps as written:

- `cityName` is a mutable field of the one shared service object. Every call overwrites it before it does anything else.
- The decoded forecast body is not validated. A missing `list[0]` or `weather[0]` throws a `TypeError`, modelled as `MissingForecastEntry` and `MissingWeatherCondition`.
- The current record's date is `toLocaleString()` of `dt * 1000`, which the constructor then passes through `toLocaleDateString`. Forecast records pass `dt_txt` straight to the constructor.

## Model

| member | source | states |
|---|---|---|
| WeatherModel.Round2 | Develop/server/src/service/weatherService.ts:36 | the result is a whole number of hundredths, within 0.005 of the input on either side |
| WeatherModel.Round2Ties | Develop/server/src/service/weatherService.ts:36 | a tie rounds to the larger magnitude: 0.125 gives 0.13 and -0.125 gives -0.13 |
| WeatherModel.Round2Monotonic | Develop/server/src/service/weatherService.ts:36 | rounding to two decimals never reverses the order of two values |
| WeatherModel.FahrenheitFromKelvin | Develop/server/src/service/weatherService.ts:36 | the stored temperature is a whole number of hundredths of a degree, within 0.005 of `(K - 273.15) * 9/5 + 32` |
| WeatherModel.Round2KeepsHundredths | Develop/server/src/service/weatherService.ts:36 | a value that already has two decimals survives `toFixed(2)`/`parseFloat` unchanged |
| WeatherModel.Round2Idempotent | Develop/server/src/service/weatherService.ts:36 | rounding an already rounded temperature changes nothing |
| WeatherModel.FahrenheitMonotonic | Develop/server/src/service/weatherService.ts:36 | a higher Kelvin reading never gives a lower Fahrenheit value |
| WeatherModel.FahrenheitFixedPoints | Develop/server/src/service/weatherService.ts:36 | 273.15 K gives exactly 32.00 F and 373.15 K exactly 212.00 F |
| WeatherModel.NewWeather | Develop/server/src/service/weatherService.ts:31-39 | the constructor copies city, icon, description, humidity and wind speed unchanged; the date is the `toLocaleDateString` rendering of the date text it receives; the temperature is the Kelvin reading converted to Fahrenheit and rounded to two decimals |
| Location.IsSet | Develop/server/src/service/weatherService.ts:99 | the `!this.cityName` test (here and again at line 113) lets the call through exactly when the name is not null and not empty |
| Location.BuildGeocodeQuery | Develop/server/src/service/weatherService.ts:98-105 | fails with "City name is not set" exactly when the name is null or empty; otherwise the URL's length is the sum of its five parts |
| Location.GeocodeQueryRoundTrip | Develop/server/src/service/weatherService.ts:102 | the query starts with `baseURL + "/geo/1.0/direct?q="`, ends with `"&limit=1&appid=" + apiKey`, and the city name can be read back from between them |
| Location.GeocodeQueryInjective | Develop/server/src/service/weatherService.ts:102 | two different city names never produce the same geocoding query |
| Location.SelectLocation | Develop/server/src/service/weatherService.ts:83-91 | a null or empty body is "No location found"; otherwise the coordinates are `lat`/`lon` of element 0 |
| Location.FetchLocationData | Develop/server/src/service/weatherService.ts:73-96 | succeeds exactly when the reply is delivered and holds at least one match, and then returns element 0's coordinates; a non-ok reply fails with its status text; a rejected fetch is re-thrown |
| Location.FetchAndDestructureLocationData | Develop/server/src/service/weatherService.ts:112-118 | an unset name fails with "City name is undefined" before any request; otherwise the result is the lookup of the geocoding query; the inner "City name is not set" error is never produced |
| Forecast.NoonSlotIffSuffix | Develop/server/src/service/weatherService.ts:152 | a `dt_txt` passes the filter exactly when it is some text followed by `" 12:00:00"` |
| Forecast.BuildWeatherQuery | Develop/server/src/service/weatherService.ts:107-110 | the query is `lat=`, the latitude's text, `&lon=`, the longitude's text, each at its place and nothing else |
| Forecast.ForecastQuery | Develop/server/src/service/weatherService.ts:123 | the forecast URL is `baseURL + "/data/2.5/forecast?"`, then exactly the `buildWeatherQuery` text, then `"&appid=" + apiKey` |
| Forecast.FetchWeatherData | Develop/server/src/service/weatherService.ts:120-134 | succeeds exactly when the reply to the forecast URL is delivered, with that body; a non-ok reply fails with its status text; a rejected fetch is re-thrown |
| Forecast.ParseCurrentWeather | Develop/server/src/service/weatherService.ts:136-147 | fails when `list[0]` or its `weather[0]` is missing; otherwise the data keeps the raw Kelvin `main.temp`, and the record built from it has the response's `city.name`, the formatted `dt * 1000` date, icon and description from `weather[0]`, the converted temperature, and unchanged humidity and wind speed |
| Forecast.NoonEntries | Develop/server/src/service/weatherService.ts:151-152 | the filter keeps no more entries than it is given, and every entry it keeps is a noon slot |
| Forecast.NoonPositions | Develop/server/src/service/weatherService.ts:151-152 | lists, in strictly increasing order, every index of a noon slot and no other index |
| Forecast.NoonEntriesAtPositions | Develop/server/src/service/weatherService.ts:151-152 | the filter's k-th kept entry is the entry at the k-th noon index, so it keeps exactly the noon slots in their original order |
| Forecast.NoonEntriesCount | Develop/server/src/service/weatherService.ts:151-152 | the filter keeps as many entries as there are noon slots in the series |
| Forecast.ForecastData | Develop/server/src/service/weatherService.ts:154-162 | the object literal takes the city from the current record, the date text from `dt_txt`, icon and description from `weather[0]`, the raw Kelvin `main.temp`, humidity and wind speed from the entry |
| Forecast.MapForecast | Develop/server/src/service/weatherService.ts:153-163 | fails exactly when some selected slot lacks `weather[0]`; otherwise one record per slot, in order, each with the current record's city and its own slot's fields |
| Forecast.BuildForecastArray | Develop/server/src/service/weatherService.ts:149-164 | its length is the number of noon slots; record k comes from the k-th noon slot, with the city taken from the current record, never from the entry; it fails only when a noon slot lacks `weather[0]` |
| Service.WeatherForCity | Develop/server/src/service/weatherService.ts:166-188 | an empty name fails with "City name is undefined"; "City name is not set" never escapes; a success holds at least the current record |
| Service.WeatherForCityShape | Develop/server/src/service/weatherService.ts:177-183 | for a delivered forecast: success exactly when `list[0]` and every noon slot have `weather[0]`; then the length is 1 + the number of noon slots, record 0 derives from `list[0]` whether or not it is a noon slot, record k+1 from the k-th noon slot, and every city is `city.name` |
| Service.LocationFailureEndsCall | Develop/server/src/service/weatherService.ts:171-174 | a failed location lookup is the call's error, whatever the forecast endpoint would answer |
| Service.EmptyCityMakesNoRequest | Develop/server/src/service/weatherService.ts:112-115 | an empty city name fails with "City name is undefined", whatever the network would answer |
| Service.ForecastFailurePropagates | Develop/server/src/service/weatherService.ts:123-132 | a forecast reply that is not delivered becomes the call's error with no partial result: a non-ok reply carries its status text, a rejected fetch its reason |
| Service.WeatherService.constructor | Develop/server/src/service/weatherService.ts:66-71 | stores the base URL and key; the city name starts out null |
| Service.WeatherService.GetWeatherForCity | Develop/server/src/service/weatherService.ts:166-188 | afterwards `cityName` is the argument; the result is `WeatherForCity` of the argument, whatever city name the object held before |
| Service.RepeatedCallsAgree | Develop/server/src/service/weatherService.ts:167 | two calls with the same replies return the same result |
| Service.BostonSingleNoonSlot | Develop/server/src/service/weatherService.ts:180-183 | Boston with one noon slot at 273.15 K gives two records, both 32.00 F and both for Boston |
| Service.OneDayOfSlots | Develop/server/src/service/weatherService.ts:151-152 | eight three-hour slots with one noon slot give two records: record 0 from the midnight slot, record 1 from the noon slot |

## Left out

- `fetch`, the `ok`/`statusText` test and `response.json()` are not modelled as I/O. Each endpoint is a function from the URL to a `Reply`. A body that fails to decode as JSON is not modelled.
- Logging (`console.log`, `console.error`) is left out. It does not affect results.
- `dotenv` and `process.env` loading, and the module-level singleton, are left out. The base URL and key are constructor arguments.
- Date formatting is left out. `toLocaleString` and `toLocaleDateString` depend on the locale and time zone, so they are uninterpreted `Runtime` functions.
- Rendering `lat`/`lon` into `buildWeatherQuery`'s text is left out. It is engine number formatting, so it is the uninterpreted `Runtime.numberText`.
- Field presence in the decoded forecast body is assumed, except for the two array reads `list[0]` and `weather[0]`. The payload datatypes hold every other field as a typed field. In the code, a missing `city` (line 139), `dt_txt` (line 152), `main` or `wind` (lines 143-145 and 159-161) throws a `TypeError`. A missing scalar such as `main.temp` yields `undefined`, and the temperature becomes `NaN`. Neither case is modelled.
- WeatherModel.FahrenheitFromKelvin: computes over exact reals, not IEEE doubles. The result can differ from the JavaScript value in the last binary digits, and on ties that a double does not represent exactly.
- WeatherModel.Round2: rounds exact reals. The source's `toFixed(2)` rounds the binary value of a double, so a decimal tie that a double holds just below or above the tie may round the other way.
- `Develop/server/src/routes/api/weatherRoutes.ts` is left out. It is HTTP routing and status-code mapping, and the history service it calls is not part of this model.
- Concurrent calls sharing the one `cityName` field are left out. Each call is modelled on its own, as one step from the object's state before the call to its state after it.

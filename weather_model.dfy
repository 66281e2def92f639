/**
 * The entities of the weather service: the provider's responses as the
 * service reads them, the intermediate WeatherData record, the Weather
 * record it returns, the errors it throws, and the `Weather` constructor
 * with its Kelvin to Fahrenheit conversion.
 */
module WeatherModel {

  import opened Wrappers

  /** A geographic position, as returned by location selection. */
  datatype Coordinates = Coordinates(lat: real, lon: real)

  /** One element of the geocoding provider's result array. */
  datatype GeoMatch = GeoMatch(lat: real, lon: real)

  /** One element of an entry's `weather` array. */
  datatype Condition = Condition(icon: string, description: string)

  /**
   * One slot of the forecast time series: `dt` (seconds since the epoch),
   * `dt_txt`, the `weather` array (possibly empty), `main.temp` in Kelvin,
   * `main.humidity` and `wind.speed`.
   */
  datatype ForecastEntry = ForecastEntry(
    dt: int,
    dtTxt: string,
    weather: seq<Condition>,
    temp: real,
    humidity: real,
    windSpeed: real)

  /** The forecast provider's body: `city.name` and the time series `list`. */
  datatype WeatherApiResponse = WeatherApiResponse(cityName: string, list: seq<ForecastEntry>)

  /**
   * The record handed to the Weather constructor. Its `tempF` field still
   * holds the raw Kelvin reading: the constructor converts it.
   */
  datatype WeatherData = WeatherData(
    city: string,
    date: string,
    icon: string,
    iconDescription: string,
    tempF: real,
    humidity: real,
    windSpeed: real)

  /** The record the service returns; `tempF` is in degrees Fahrenheit. */
  datatype Weather = Weather(
    city: string,
    date: string,
    icon: string,
    iconDescription: string,
    tempF: real,
    humidity: real,
    windSpeed: real)

  /** Everything the service throws on its way to a result. */
  datatype Error =
    | CityNameUndefined                       // guard of fetchAndDestructureLocationData
    | CityNameNotSet                          // guard of buildGeocodeQuery
    | LocationFetchFailed(statusText: string) // geocode response not ok
    | NoLocationFound                         // geocode body null or empty
    | WeatherFetchFailed(statusText: string)  // forecast response not ok
    | NetworkFailure(reason: string)          // fetch itself rejected; re-thrown as is
    | MissingForecastEntry                    // list[0] is undefined
    | MissingWeatherCondition                 // weather[0] is undefined

  /** What one HTTP request yields. */
  datatype Reply<T> =
    | Delivered(body: T)
    | NotOk(statusText: string)
    | FetchRejected(reason: string)

  /**
   * The two provider endpoints as functions from the requested URL to the
   * reply. The geocoding body is `None` when the decoded JSON is null.
   */
  datatype Network = Network(
    geocode: string -> Reply<Option<seq<GeoMatch>>>,
    forecast: string -> Reply<WeatherApiResponse>)

  /**
   * The JavaScript library calls whose output depends on the engine and the
   * locale, left uninterpreted: rendering a number inside a template string,
   * `new Date(ms).toLocaleString()`, and
   * `new Date(s).toLocaleDateString('en-US', {2-digit month and day, numeric year})`.
   */
  datatype Runtime = Runtime(
    numberText: real -> string,
    localeDateTime: int -> string,
    usShortDate: string -> string)

  /** The textbook conversion `(K - 273.15) * 9/5 + 32`, without rounding. */
  function ExactFahrenheit(kelvin: real): real {
    (kelvin - 273.15) * 9.0 / 5.0 + 32.0
  }

  /** The nearest multiple of 1/100, the larger one on a tie. */
  function RoundHalfUp2(x: real): (r: real)
    ensures x - 0.005 < r <= x + 0.005
    ensures (r * 100.0).Floor as real == r * 100.0
  {
    var n := (x * 100.0 + 0.5).Floor;
    assert (n as real / 100.0) * 100.0 == n as real;
    n as real / 100.0
  }

  lemma RoundHalfUp2Monotonic(x: real, y: real)
    requires x <= y
    ensures RoundHalfUp2(x) <= RoundHalfUp2(y)
  {
    assert (x * 100.0 + 0.5).Floor <= (y * 100.0 + 0.5).Floor;
  }

  /**
   * `parseFloat(x.toFixed(2))` over the reals. `toFixed` rounds the magnitude
   * to the nearest hundredth, the larger one on a tie, and puts the sign
   * back: a negative tie rounds away from zero.
   */
  function Round2(x: real): (r: real)
    ensures x - 0.005 <= r <= x + 0.005
    ensures (r * 100.0).Floor as real == r * 100.0
  {
    if x < 0.0 then
      var u := RoundHalfUp2(-x);
      assert (-u * 100.0).Floor == -((u * 100.0).Floor);
      -u
    else
      RoundHalfUp2(x)
  }

  /**
   * The constructor's temperature conversion: a whole number of hundredths
   * of a degree, within 0.005 degrees of the exact conversion.
   */
  function FahrenheitFromKelvin(kelvin: real): (f: real)
    ensures ExactFahrenheit(kelvin) - 0.005 <= f <= ExactFahrenheit(kelvin) + 0.005
    ensures (f * 100.0).Floor as real == f * 100.0
  {
    Round2(ExactFahrenheit(kelvin))
  }

  /** Ties round up for positive values and away from zero for negative ones. */
  lemma Round2Ties()
    ensures Round2(0.125) == 0.13
    ensures Round2(-0.125) == -0.13
  {
    assert (0.125 * 100.0 + 0.5).Floor == 13;
  }

  /** A value that already has two decimals is left unchanged by the rounding. */
  lemma Round2KeepsHundredths(n: int)
    ensures Round2(n as real / 100.0) == n as real / 100.0
  {
    var m := if n < 0 then -n else n;
    var y := (m as real / 100.0) * 100.0 + 0.5;
    assert y == m as real + 0.5;
    assert y.Floor == m;
  }

  /** Rounding twice is rounding once. */
  lemma Round2Idempotent(x: real)
    ensures Round2(Round2(x)) == Round2(x)
  {
    var r := Round2(x);
    var n := (r * 100.0).Floor;
    assert r == n as real / 100.0;
    Round2KeepsHundredths(n);
  }

  /** The rounding never reverses the order of two values. */
  lemma Round2Monotonic(x: real, y: real)
    requires x <= y
    ensures Round2(x) <= Round2(y)
  {
    if y < 0.0 {
      RoundHalfUp2Monotonic(-y, -x);
    } else if x < 0.0 {
      RoundHalfUp2Monotonic(0.0, -x);
      RoundHalfUp2Monotonic(0.0, y);
      assert RoundHalfUp2(0.0) == 0.0 by {
        assert (0.0 * 100.0 + 0.5).Floor == 0;
      }
    } else {
      RoundHalfUp2Monotonic(x, y);
    }
  }

  /** A warmer reading never becomes a colder record. */
  lemma FahrenheitMonotonic(k1: real, k2: real)
    requires k1 <= k2
    ensures FahrenheitFromKelvin(k1) <= FahrenheitFromKelvin(k2)
  {
    Round2Monotonic(ExactFahrenheit(k1), ExactFahrenheit(k2));
  }

  /** Water's freezing and boiling points convert to 32 and 212 degrees Fahrenheit. */
  lemma FahrenheitFixedPoints()
    ensures FahrenheitFromKelvin(273.15) == 32.0
    ensures FahrenheitFromKelvin(373.15) == 212.0
  {
    assert ExactFahrenheit(273.15) == 3200 as real / 100.0;
    Round2KeepsHundredths(3200);
    assert ExactFahrenheit(373.15) == 21200 as real / 100.0;
    Round2KeepsHundredths(21200);
  }

  /**
   * The `Weather` constructor: copies city, icon, description, humidity and
   * wind speed, formats the date, and converts the Kelvin reading held in
   * `tempF`.
   */
  function NewWeather(data: WeatherData, rt: Runtime): (w: Weather)
    ensures w.city == data.city && w.icon == data.icon && w.iconDescription == data.iconDescription
    ensures w.humidity == data.humidity && w.windSpeed == data.windSpeed
    ensures w.date == rt.usShortDate(data.date)
    ensures w.tempF == FahrenheitFromKelvin(data.tempF)
  {
    Weather(
      data.city,
      rt.usShortDate(data.date),
      data.icon,
      data.iconDescription,
      FahrenheitFromKelvin(data.tempF),
      data.humidity,
      data.windSpeed)
  }

  /**
   * `w` is the record the service should make from entry `e`, given the city
   * and the date text handed to the constructor: icon and description from
   * `weather[0]`, the temperature converted exactly once from the raw
   * `main.temp`, humidity and wind speed unchanged.
   */
  predicate Derives(w: Weather, city: string, dateText: string, e: ForecastEntry, rt: Runtime) {
    && |e.weather| > 0
    && w.city == city
    && w.date == rt.usShortDate(dateText)
    && w.icon == e.weather[0].icon
    && w.iconDescription == e.weather[0].description
    && w.tempF == FahrenheitFromKelvin(e.temp)
    && w.humidity == e.humidity
    && w.windSpeed == e.windSpeed
  }
}

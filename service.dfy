/**
 * The WeatherService: the whole pipeline for one city as a function of the
 * provider replies, and the class whose `getWeatherForCity` stores the city
 * name in its field and then runs the stages one after the other.
 */
module Service {

  import opened Wrappers
  import opened WeatherModel
  import opened Location
  import opened Forecast

  /**
   * What getWeatherForCity returns once `cityName` holds `city`: the current
   * record followed by the forecast array; the first failing stage's error
   * otherwise.
   */
  function WeatherForCity(baseURL: string, apiKey: string, city: string, net: Network, rt: Runtime)
    : (r: Result<seq<Weather>, Error>)
    ensures city == "" ==> r == Failure(CityNameUndefined)
    ensures r.Failure? ==> r.error != CityNameNotSet
    ensures r.Success? ==> |r.value| >= 1
  {
    var coordinates :- FetchAndDestructureLocationData(baseURL, apiKey, Some(city), net);
    var weatherData :- FetchWeatherData(baseURL, apiKey, coordinates, net, rt);
    var currentWeather :- ParseCurrentWeather(weatherData, rt);
    var forecastArray :- BuildForecastArray(currentWeather, weatherData.list, rt);
    Success([NewWeather(currentWeather, rt)] + forecastArray)
  }

  /**
   * Once the location and the forecast body are known: the call succeeds
   * exactly when `list[0]` and every noon slot have a `weather[0]`; then the
   * result has one more record than there are noon slots, record 0 comes from
   * `list[0]` (noon slot or not), record k+1 from the k-th noon slot, and every
   * record carries the response's city name.
   */
  lemma WeatherForCityShape(baseURL: string, apiKey: string, city: string, net: Network, rt: Runtime,
                            coordinates: Coordinates, response: WeatherApiResponse)
    requires FetchAndDestructureLocationData(baseURL, apiKey, Some(city), net) == Success(coordinates)
    requires net.forecast(ForecastQuery(baseURL, apiKey, coordinates, rt)) == Delivered(response)
    ensures var r := WeatherForCity(baseURL, apiKey, city, net, rt);
            var list := response.list;
            var positions := NoonPositions(list);
            && (r.Success? <==>
                  |list| > 0 && |list[0].weather| > 0
                  && forall k :: 0 <= k < |positions| ==> |list[positions[k]].weather| > 0)
            && (r.Failure? ==> r.error == MissingForecastEntry || r.error == MissingWeatherCondition)
            && (r.Success? ==> |r.value| == 1 + NoonCount(list) == 1 + |positions|)
            && (r.Success? ==> Derives(r.value[0], response.cityName, rt.localeDateTime(list[0].dt * 1000), list[0], rt))
            && (r.Success? ==> forall k :: 0 <= k < |positions| ==>
                  Derives(r.value[k + 1], response.cityName, list[positions[k]].dtTxt, list[positions[k]], rt))
  {
    var r := WeatherForCity(baseURL, apiKey, city, net, rt);
    var parsed := ParseCurrentWeather(response, rt);
    if parsed.Success? {
      var forecast := BuildForecastArray(parsed.value, response.list, rt);
      if forecast.Success? {
        assert r == Success([NewWeather(parsed.value, rt)] + forecast.value);
        assert parsed.value.city == response.cityName;
      }
    }
  }

  /**
   * A failed location lookup ends the call with that error, whatever the
   * forecast endpoint would have answered: it is never consulted.
   */
  lemma LocationFailureEndsCall(baseURL: string, apiKey: string, city: string, net: Network, other: Network, rt: Runtime)
    requires FetchAndDestructureLocationData(baseURL, apiKey, Some(city), net).Failure?
    requires other.geocode == net.geocode
    ensures WeatherForCity(baseURL, apiKey, city, net, rt)
         == WeatherForCity(baseURL, apiKey, city, other, rt)
         == Failure(FetchAndDestructureLocationData(baseURL, apiKey, Some(city), net).error)
  {
    var query := baseURL + GeocodePath + city + GeocodeTail + apiKey;
    if city != "" {
      assert other.geocode(query) == net.geocode(query);
    }
  }

  /** An empty city name fails before any request is made. */
  lemma EmptyCityMakesNoRequest(baseURL: string, apiKey: string, net: Network, rt: Runtime)
    ensures WeatherForCity(baseURL, apiKey, "", net, rt) == Failure(CityNameUndefined)
  {
  }

  /**
   * A forecast reply that is not delivered, whether not ok or a rejected
   * fetch, is thrown as is: no partial result.
   */
  lemma ForecastFailurePropagates(baseURL: string, apiKey: string, city: string, net: Network, rt: Runtime,
                                  coordinates: Coordinates)
    requires FetchAndDestructureLocationData(baseURL, apiKey, Some(city), net) == Success(coordinates)
    requires !net.forecast(ForecastQuery(baseURL, apiKey, coordinates, rt)).Delivered?
    ensures var reply := net.forecast(ForecastQuery(baseURL, apiKey, coordinates, rt));
            var r := WeatherForCity(baseURL, apiKey, city, net, rt);
            && r == Failure(FetchWeatherData(baseURL, apiKey, coordinates, net, rt).error)
            && (reply.NotOk? ==> r == Failure(WeatherFetchFailed(reply.statusText)))
            && (reply.FetchRejected? ==> r == Failure(NetworkFailure(reply.reason)))
  {
  }

  /**
   * The service object. `baseURL` and `apiKey` are set once by the
   * constructor; `cityName` is the field getWeatherForCity overwrites.
   */
  class WeatherService {
    const baseURL: string
    const apiKey: string
    var cityName: Option<string>

    constructor(baseURL: string, apiKey: string)
      ensures this.baseURL == baseURL && this.apiKey == apiKey
      ensures cityName == None
    {
      this.baseURL := baseURL;
      this.apiKey := apiKey;
      cityName := None;
    }

    /**
     * getWeatherForCity: stores the city name, then resolves the location,
     * fetches the forecast, parses the current conditions and builds the
     * forecast array; any stage's error is re-thrown. The result does not
     * depend on the city name the previous call left behind.
     */
    method GetWeatherForCity(city: string, net: Network, rt: Runtime) returns (r: Result<seq<Weather>, Error>)
      modifies this
      ensures cityName == Some(city)
      ensures r == WeatherForCity(baseURL, apiKey, city, net, rt)
    {
      cityName := Some(city);
      var coordinates :- FetchAndDestructureLocationData(baseURL, apiKey, cityName, net);
      var weatherData :- FetchWeatherData(baseURL, apiKey, coordinates, net, rt);
      var currentWeather :- ParseCurrentWeather(weatherData, rt);
      var forecastArray :- BuildForecastArray(currentWeather, weatherData.list, rt);
      r := Success([NewWeather(currentWeather, rt)] + forecastArray);
    }
  }

  /** Two calls with the same replies give the same result. */
  method RepeatedCallsAgree(service: WeatherService, city: string, net: Network, rt: Runtime)
    returns (first: Result<seq<Weather>, Error>, second: Result<seq<Weather>, Error>)
    modifies service
    ensures first == second
    ensures service.cityName == Some(city)
  {
    first := service.GetWeatherForCity(city, net, rt);
    second := service.GetWeatherForCity(city, net, rt);
  }

  // Worked scenarios

  function Slot(hour: string, temp: real): ForecastEntry {
    ForecastEntry(1704067200, "2024-01-01 " + hour + ":00:00", [Condition("01d", "clear sky")], temp, 80.0, 3.5)
  }

  function BostonNetwork(list: seq<ForecastEntry>): Network {
    Network(
      query => Delivered(Some([GeoMatch(42.36, -71.06)])),
      query => Delivered(WeatherApiResponse("Boston", list)))
  }

  /**
   * Boston, a single noon slot at 273.15 K: the current record and one
   * forecast record, both at 32 degrees Fahrenheit and both for Boston.
   */
  lemma BostonSingleNoonSlot(baseURL: string, apiKey: string, rt: Runtime)
    ensures var r := WeatherForCity(baseURL, apiKey, "Boston", BostonNetwork([Slot("12", 273.15)]), rt);
            && r.Success? && |r.value| == 2
            && r.value[0].tempF == 32.0 && r.value[1].tempF == 32.0
            && r.value[0].city == "Boston" && r.value[1].city == "Boston"
  {
    var list := [Slot("12", 273.15)];
    var net := BostonNetwork(list);
    var coordinates := Coordinates(42.36, -71.06);
    assert IsSet(Some("Boston"));
    assert FetchAndDestructureLocationData(baseURL, apiKey, Some("Boston"), net) == Success(coordinates);
    assert IsNoonSlot(list[0].dtTxt);
    assert NoonPositions(list) == [0];
    FahrenheitFixedPoints();
    WeatherForCityShape(baseURL, apiKey, "Boston", net, rt, coordinates, WeatherApiResponse("Boston", list));
  }

  lemma SlotHourDecidesNoon(hour: string, temp: real)
    requires |hour| == 2
    ensures IsNoonSlot(Slot(hour, temp).dtTxt) <==> hour == "12"
  {
    var t := Slot(hour, temp).dtTxt;
    assert t[|t| - |NoonSuffix|..] == " " + hour + ":00:00";
    if IsNoonSlot(t) {
      assert hour == (" " + hour + ":00:00")[1..3] == NoonSuffix[1..3];
    }
  }

  /** A day of eight three-hour slots, 00:00 to 21:00. */
  function OneDay(): seq<ForecastEntry> {
    [Slot("00", 270.0), Slot("03", 269.0), Slot("06", 271.0), Slot("09", 274.0),
     Slot("12", 277.0), Slot("15", 276.0), Slot("18", 273.0), Slot("21", 272.0)]
  }

  /** In that day only the slot at index 4 falls at noon. */
  lemma OneDayNoonSlots()
    ensures forall i :: 0 <= i < |OneDay()| ==> (IsNoonSlot(OneDay()[i].dtTxt) <==> i == 4)
  {
    var list := OneDay();
    var hours := ["00", "03", "06", "09", "12", "15", "18", "21"];
    forall i | 0 <= i < |list|
      ensures IsNoonSlot(list[i].dtTxt) <==> i == 4
    {
      assert list[i] == Slot(hours[i], list[i].temp);
      SlotHourDecidesNoon(hours[i], list[i].temp);
    }
  }

  /** So the filter keeps index 4 alone. */
  lemma OneDayNoonPositions()
    ensures NoonPositions(OneDay()) == [4]
  {
    OneDayNoonSlots();
    var list := OneDay();
    var positions := NoonPositions(list);
    assert (set i | 0 <= i < |list| && IsNoonSlot(list[i].dtTxt)) == {4};
    NoonEntriesAtPositions(list);
    NoonEntriesCount(list);
    assert |positions| == 1 && 4 in positions;
  }

  /**
   * The day of eight slots gives two records: record 0 from the midnight
   * slot that opens the series, record 1 from the noon slot.
   */
  lemma OneDayOfSlots(baseURL: string, apiKey: string, rt: Runtime)
    ensures var r := WeatherForCity(baseURL, apiKey, "Boston", BostonNetwork(OneDay()), rt);
            && r.Success? && |r.value| == 2
            && r.value[0].tempF == FahrenheitFromKelvin(270.0)
            && r.value[1].tempF == FahrenheitFromKelvin(277.0)
  {
    var net := BostonNetwork(OneDay());
    var coordinates := Coordinates(42.36, -71.06);
    assert IsSet(Some("Boston"));
    assert FetchAndDestructureLocationData(baseURL, apiKey, Some("Boston"), net) == Success(coordinates);
    OneDayNoonPositions();
    WeatherForCityShape(baseURL, apiKey, "Boston", net, rt, coordinates, WeatherApiResponse("Boston", OneDay()));
  }
}

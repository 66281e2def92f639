/**
 * The forecast side of the service: the forecast request, the current
 * conditions taken from the first slot, and the noon-slot filter and map
 * that build the forecast array.
 */
module Forecast {

  import opened Wrappers
  import opened WeatherModel

  const ForecastPath := "/data/2.5/forecast?"
  const NoonSuffix := " 12:00:00"

  /** `dt_txt.endsWith(' 12:00:00')`. */
  predicate IsNoonSlot(dtTxt: string) {
    |NoonSuffix| <= |dtTxt| && dtTxt[|dtTxt| - |NoonSuffix|..] == NoonSuffix
  }

  /** A timestamp text is a noon slot exactly when it is some text followed by " 12:00:00". */
  lemma NoonSlotIffSuffix(dtTxt: string)
    ensures IsNoonSlot(dtTxt) <==> exists day :: dtTxt == day + NoonSuffix
  {
    if IsNoonSlot(dtTxt) {
      var day := dtTxt[..|dtTxt| - |NoonSuffix|];
      assert dtTxt == day + NoonSuffix;
    }
    if exists day :: dtTxt == day + NoonSuffix {
      var day :| dtTxt == day + NoonSuffix;
      assert dtTxt[|dtTxt| - |NoonSuffix|..] == NoonSuffix;
    }
  }

  /** buildWeatherQuery: the coordinates as query parameters. */
  function BuildWeatherQuery(coordinates: Coordinates, rt: Runtime): (query: string)
    ensures var lat := rt.numberText(coordinates.lat);
            var lon := rt.numberText(coordinates.lon);
            && |query| == |"lat="| + |lat| + |"&lon="| + |lon|
            && query[..4] == "lat=" && query[4..4 + |lat|] == lat
            && query[4 + |lat|..9 + |lat|] == "&lon=" && query[9 + |lat|..] == lon
  {
    "lat=" + rt.numberText(coordinates.lat) + "&lon=" + rt.numberText(coordinates.lon)
  }

  /** The URL fetchWeatherData requests. */
  function ForecastQuery(baseURL: string, apiKey: string, coordinates: Coordinates, rt: Runtime): (url: string)
    ensures var head := baseURL + ForecastPath;
            var tail := "&appid=" + apiKey;
            && |head| + |tail| <= |url|
            && url[..|head|] == head
            && url[|head|..|url| - |tail|] == BuildWeatherQuery(coordinates, rt)
            && url[|url| - |tail|..] == tail
  {
    var head := baseURL + ForecastPath;
    var query := BuildWeatherQuery(coordinates, rt);
    var tail := "&appid=" + apiKey;
    var url := head + query + tail;
    assert url[..|head|] == head;
    assert url[|head|..|url| - |tail|] == query;
    assert url[|url| - |tail|..] == tail;
    url
  }

  /** fetchWeatherData: a reply that is not ok, or a rejected fetch, is thrown. */
  function FetchWeatherData(baseURL: string, apiKey: string, coordinates: Coordinates, net: Network, rt: Runtime)
    : (r: Result<WeatherApiResponse, Error>)
    ensures var reply := net.forecast(ForecastQuery(baseURL, apiKey, coordinates, rt));
            && (r.Success? <==> reply.Delivered?)
            && (r.Success? ==> r.value == reply.body)
            && (reply.NotOk? ==> r.error == WeatherFetchFailed(reply.statusText))
            && (reply.FetchRejected? ==> r.error == NetworkFailure(reply.reason))
  {
    match net.forecast(ForecastQuery(baseURL, apiKey, coordinates, rt))
    case NotOk(statusText) => Failure(WeatherFetchFailed(statusText))
    case FetchRejected(reason) => Failure(NetworkFailure(reason))
    case Delivered(body) => Success(body)
  }

  /**
   * parseCurrentWeather: the first slot's fields under the response's city
   * name; reading `list[0]` or `weather[0]` when absent throws.
   */
  function ParseCurrentWeather(response: WeatherApiResponse, rt: Runtime): (r: Result<WeatherData, Error>)
    ensures r.Success? <==> |response.list| > 0 && |response.list[0].weather| > 0
    ensures |response.list| == 0 ==> r == Failure(MissingForecastEntry)
    ensures |response.list| > 0 && r.Failure? ==> r.error == MissingWeatherCondition
    ensures r.Success? ==> r.value.tempF == response.list[0].temp
    ensures r.Success? ==>
              Derives(NewWeather(r.value, rt), response.cityName,
                      rt.localeDateTime(response.list[0].dt * 1000), response.list[0], rt)
  {
    if |response.list| == 0 then Failure(MissingForecastEntry)
    else
      var first := response.list[0];
      if |first.weather| == 0 then Failure(MissingWeatherCondition)
      else
        Success(WeatherData(
          response.cityName,
          rt.localeDateTime(first.dt * 1000),
          first.weather[0].icon,
          first.weather[0].description,
          first.temp,
          first.humidity,
          first.windSpeed))
  }

  /** The `filter` step: the noon slots, in the order of the series. */
  function NoonEntries(entries: seq<ForecastEntry>): (noon: seq<ForecastEntry>)
    ensures |noon| <= |entries|
    ensures forall k :: 0 <= k < |noon| ==> IsNoonSlot(noon[k].dtTxt)
  {
    if entries == [] then []
    else
      var last := entries[|entries| - 1];
      NoonEntries(entries[..|entries| - 1]) + (if IsNoonSlot(last.dtTxt) then [last] else [])
  }

  /**
   * `positions` lists, in increasing order, exactly the indices of the noon
   * slots of `entries`.
   */
  ghost predicate NoonPositionsOf(entries: seq<ForecastEntry>, positions: seq<int>) {
    && (forall k :: 0 <= k < |positions| ==>
          0 <= positions[k] < |entries| && IsNoonSlot(entries[positions[k]].dtTxt))
    && (forall k, l :: 0 <= k < l < |positions| ==> positions[k] < positions[l])
    && (forall i :: 0 <= i < |entries| && IsNoonSlot(entries[i].dtTxt) ==> i in positions)
  }

  /** The indices of the noon slots, an independent account of what the filter keeps. */
  function NoonPositions(entries: seq<ForecastEntry>): (positions: seq<int>)
    ensures NoonPositionsOf(entries, positions)
  {
    if entries == [] then []
    else
      var n := |entries| - 1;
      var front := entries[..n];
      var earlier := NoonPositions(front);
      assert forall i :: 0 <= i < n ==> entries[i] == front[i];
      earlier + (if IsNoonSlot(entries[n].dtTxt) then [n] else [])
  }

  /** The number of noon slots in the series. */
  function NoonCount(entries: seq<ForecastEntry>): nat {
    |set i | 0 <= i < |entries| && IsNoonSlot(entries[i].dtTxt)|
  }

  /** The filter keeps exactly the entries at the noon positions, in order. */
  lemma {:induction false} NoonEntriesAtPositions(entries: seq<ForecastEntry>)
    ensures |NoonEntries(entries)| == |NoonPositions(entries)|
    ensures forall k :: 0 <= k < |NoonEntries(entries)| ==>
              NoonEntries(entries)[k] == entries[NoonPositions(entries)[k]]
  {
    if entries != [] {
      var n := |entries| - 1;
      var front := entries[..n];
      NoonEntriesAtPositions(front);
      assert forall i :: 0 <= i < n ==> entries[i] == front[i];
    }
  }

  /** The filter keeps as many entries as there are noon slots. */
  lemma {:induction false} NoonEntriesCount(entries: seq<ForecastEntry>)
    ensures |NoonEntries(entries)| == NoonCount(entries)
  {
    if entries != [] {
      var n := |entries| - 1;
      var front := entries[..n];
      NoonEntriesCount(front);
      var all := set i | 0 <= i < |entries| && IsNoonSlot(entries[i].dtTxt);
      var before := set i | 0 <= i < n && IsNoonSlot(front[i].dtTxt);
      if IsNoonSlot(entries[n].dtTxt) {
        assert all == before + {n};
        assert n !in before;
      } else {
        assert all == before;
      }
    }
  }

  /** The object literal of the `map` step: the entry's fields under the current city. */
  function ForecastData(current: WeatherData, entry: ForecastEntry): (data: WeatherData)
    requires |entry.weather| > 0
    ensures data.city == current.city
    ensures data.date == entry.dtTxt
    ensures data.icon == entry.weather[0].icon && data.iconDescription == entry.weather[0].description
    ensures data.tempF == entry.temp
    ensures data.humidity == entry.humidity && data.windSpeed == entry.windSpeed
  {
    WeatherData(
      current.city,
      entry.dtTxt,
      entry.weather[0].icon,
      entry.weather[0].description,
      entry.temp,
      entry.humidity,
      entry.windSpeed)
  }

  /**
   * The `map` step over the selected slots: one Weather per slot, in order;
   * a slot without `weather[0]` throws.
   */
  function MapForecast(current: WeatherData, noon: seq<ForecastEntry>, rt: Runtime): (r: Result<seq<Weather>, Error>)
    ensures r.Success? <==> forall k :: 0 <= k < |noon| ==> |noon[k].weather| > 0
    ensures r.Failure? ==> r.error == MissingWeatherCondition
    ensures r.Success? ==> |r.value| == |noon|
    ensures r.Success? ==>
              forall k :: 0 <= k < |noon| ==> Derives(r.value[k], current.city, noon[k].dtTxt, noon[k], rt)
  {
    if noon == [] then Success([])
    else if |noon[0].weather| == 0 then Failure(MissingWeatherCondition)
    else
      var rest :- MapForecast(current, noon[1..], rt);
      Success([NewWeather(ForecastData(current, noon[0]), rt)] + rest)
  }

  /**
   * buildForecastArray: one record per noon slot, in the series' order, each
   * carrying the current record's city; fails when a noon slot has no
   * `weather[0]`.
   */
  function BuildForecastArray(current: WeatherData, entries: seq<ForecastEntry>, rt: Runtime)
    : (r: Result<seq<Weather>, Error>)
    ensures var positions := NoonPositions(entries);
            && (r.Success? <==> forall k :: 0 <= k < |positions| ==> |entries[positions[k]].weather| > 0)
            && (r.Failure? ==> r.error == MissingWeatherCondition)
            && (r.Success? ==> |r.value| == |positions| == NoonCount(entries))
            && (r.Success? ==> forall k :: 0 <= k < |positions| ==>
                  Derives(r.value[k], current.city, entries[positions[k]].dtTxt, entries[positions[k]], rt))
  {
    NoonEntriesAtPositions(entries);
    NoonEntriesCount(entries);
    MapForecast(current, NoonEntries(entries), rt)
  }
}

/**
 * Location resolution: the geocoding query built from the stored city name,
 * the request, and the "first result wins" selection of coordinates.
 */
module Location {

  import opened Wrappers
  import opened WeatherModel

  const GeocodePath := "/geo/1.0/direct?q="
  const GeocodeTail := "&limit=1&appid="

  /** JavaScript truthiness of the `string | null` city name: neither null nor "". */
  predicate IsSet(cityName: Option<string>): (isSet: bool)
    ensures isSet <==> cityName != None && |cityName.value| > 0
  {
    cityName.Some? && cityName.value != ""
  }

  /** buildGeocodeQuery: throws when the city name is unset, else the geocoding URL. */
  function BuildGeocodeQuery(baseURL: string, apiKey: string, cityName: Option<string>): (r: Result<string, Error>)
    ensures r.Failure? <==> !IsSet(cityName)
    ensures r.Failure? ==> r.error == CityNameNotSet
    ensures r.Success? ==> |r.value| == |baseURL| + |GeocodePath| + |cityName.value| + |GeocodeTail| + |apiKey|
  {
    if !IsSet(cityName) then Failure(CityNameNotSet)
    else Success(baseURL + GeocodePath + cityName.value + GeocodeTail + apiKey)
  }

  /** The city name read back out of a geocoding URL for the given base URL and key. */
  function CityOfGeocodeQuery(baseURL: string, apiKey: string, query: string): string
    requires |baseURL| + |GeocodePath| + |GeocodeTail| + |apiKey| <= |query|
  {
    query[|baseURL| + |GeocodePath| .. |query| - |GeocodeTail| - |apiKey|]
  }

  /** The query carries the city name verbatim: reading it back gives the name. */
  lemma GeocodeQueryRoundTrip(baseURL: string, apiKey: string, cityName: Option<string>)
    requires IsSet(cityName)
    ensures BuildGeocodeQuery(baseURL, apiKey, cityName).Success?
    ensures var q := BuildGeocodeQuery(baseURL, apiKey, cityName).value;
            |baseURL| + |GeocodePath| + |GeocodeTail| + |apiKey| <= |q|
            && q[..|baseURL| + |GeocodePath|] == baseURL + GeocodePath
            && q[|q| - |GeocodeTail| - |apiKey|..] == GeocodeTail + apiKey
            && CityOfGeocodeQuery(baseURL, apiKey, q) == cityName.value
  {
    var name := cityName.value;
    var head := baseURL + GeocodePath;
    var tail := GeocodeTail + apiKey;
    var q := BuildGeocodeQuery(baseURL, apiKey, cityName).value;
    assert q == head + name + tail;
    assert q[..|head|] == head;
    assert q[|q| - |tail|..] == tail;
    assert q[|head|..|q| - |tail|] == name;
  }

  /** Different city names never share a geocoding URL. */
  lemma GeocodeQueryInjective(baseURL: string, apiKey: string, a: Option<string>, b: Option<string>)
    requires IsSet(a) && IsSet(b) && a != b
    ensures BuildGeocodeQuery(baseURL, apiKey, a) != BuildGeocodeQuery(baseURL, apiKey, b)
  {
    GeocodeQueryRoundTrip(baseURL, apiKey, a);
    GeocodeQueryRoundTrip(baseURL, apiKey, b);
  }

  /**
   * The selection part of fetchLocationData: a null or empty body is an
   * error, otherwise element 0 gives the coordinates and the rest is ignored.
   */
  function SelectLocation(body: Option<seq<GeoMatch>>): (r: Result<Coordinates, Error>)
    ensures r.Success? <==> body.Some? && |body.value| > 0
    ensures r.Failure? ==> r.error == NoLocationFound
    ensures r.Success? ==> r.value.lat == body.value[0].lat && r.value.lon == body.value[0].lon
  {
    if body.None? || |body.value| == 0 then Failure(NoLocationFound)
    else Success(Coordinates(body.value[0].lat, body.value[0].lon))
  }

  /** fetchLocationData: request the query, then select. */
  function FetchLocationData(query: string, net: Network): (r: Result<Coordinates, Error>)
    ensures net.geocode(query).NotOk? ==> r == Failure(LocationFetchFailed(net.geocode(query).statusText))
    ensures net.geocode(query).FetchRejected? ==> r == Failure(NetworkFailure(net.geocode(query).reason))
    ensures r.Success? <==>
              net.geocode(query).Delivered? && net.geocode(query).body.Some? && |net.geocode(query).body.value| > 0
    ensures r.Success? ==> r.value == Coordinates(net.geocode(query).body.value[0].lat, net.geocode(query).body.value[0].lon)
    ensures net.geocode(query).Delivered? && r.Failure? ==> r.error == NoLocationFound
  {
    match net.geocode(query)
    case NotOk(statusText) => Failure(LocationFetchFailed(statusText))
    case FetchRejected(reason) => Failure(NetworkFailure(reason))
    case Delivered(body) => SelectLocation(body)
  }

  /**
   * fetchAndDestructureLocationData, with the `cityName` field passed in:
   * its own guard comes first, so the guard inside buildGeocodeQuery is never
   * the one that fires.
   */
  function FetchAndDestructureLocationData(baseURL: string, apiKey: string, cityName: Option<string>, net: Network)
    : (r: Result<Coordinates, Error>)
    ensures !IsSet(cityName) ==> r == Failure(CityNameUndefined)
    ensures IsSet(cityName) ==>
              r == FetchLocationData(baseURL + GeocodePath + cityName.value + GeocodeTail + apiKey, net)
    ensures r != Failure(CityNameNotSet)
  {
    if !IsSet(cityName) then Failure(CityNameUndefined)
    else
      match BuildGeocodeQuery(baseURL, apiKey, cityName)
      case Failure(e) => Failure(e)
      case Success(query) => FetchLocationData(query, net)
  }
}

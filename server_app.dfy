/** The weather server's HTTP layer: coordinate validation, the standard
    response envelope, and the two weather routes, each an ordered ladder of
    checks that ends in 400, 400, 404, 500 or 200. Parsing a query value as
    a float, the coordinate-to-city mapping, the weather data files and the
    clock are parameters. */
module ServerApp {
  import opened Wrappers

  /** JSON values as the envelope carries them. */
  datatype Json =
    | JNull
    | JBool(b: bool)
    | JNumber(n: real)
    | JString(s: string)
    | JArray(items: seq<Json>)
    | JObject(fields: seq<(string, Json)>)

  /** The envelope every route returns: always these four keys. */
  datatype Envelope = Envelope(data: Json, status: string, timestamp: string, message: string)

  /** A route's result: the envelope and the HTTP status code. */
  datatype Response = Response(envelope: Envelope, httpStatus: int)

  /** What a weather data lookup does: return the file's JSON, or raise with
      the given text. */
  datatype ProviderResult = Loaded(data: Json) | Raised(error: string)

  const MissingParametersMessage: string := "Missing lat or lon parameters"
  const InvalidRangeMessage: string := "Invalid coordinates range. Use: -90≤lat≤90, -180≤lon≤180"
  const NotAvailableMessage: string := "Weather data not available for these coordinates"
  const CurrentSuccessMessage: string := "Current weather retrieved successfully"
  const ForecastSuccessMessage: string := "5-day forecast retrieved successfully"

  /** `validate_coordinates(lat, lon)`: both values must be present and
      parse, and lie in the inclusive ranges; a missing or unparsable value
      gives false instead of an exception. */
  function ValidateCoordinates(lat: Option<string>, lon: Option<string>, parse: string -> Option<real>): bool {
    if lat.None? || lon.None? then false
    else match (parse(lat.value), parse(lon.value))
      case (Some(la), Some(lo)) => -90.0 <= la <= 90.0 && -180.0 <= lo <= 180.0
      case _ => false
  }

  /** `create_response(...)`, with the clock reading as `now`. */
  function CreateResponse(now: string, data: Json := JNull, status: string := "success",
                          message: string := "", httpStatus: int := 200): (r: Response)
    ensures r.envelope.timestamp == now
  {
    Response(Envelope(data, status, now, message), httpStatus)
  }

  /** `/status`. */
  function Status(now: string): Response {
    CreateResponse(now, data := JObject([("server", JString("running")), ("version", JString("1.0"))]),
                   message := "Server is operational")
  }

  /** Python's truthiness test on a query value: absent or empty is false. */
  predicate Present(v: Option<string>) {
    v.Some? && v.value != ""
  }

  /** `get_city_by_coords(lat, lon)`: the mapping is keyed by the raw query
      values joined with a comma. */
  function CityFor(cities: map<string, string>, lat: string, lon: string): Option<string> {
    var key := lat + "," + lon;
    if key in cities then Some(cities[key]) else None
  }

  /** `/weather/current`. */
  function WeatherCurrent(now: string, lat: Option<string>, lon: Option<string>, parse: string -> Option<real>,
                          cities: map<string, string>, current: string -> ProviderResult): Response {
    if !Present(lat) || !Present(lon) then
      CreateResponse(now, status := "error", message := MissingParametersMessage, httpStatus := 400)
    else if !ValidateCoordinates(lat, lon, parse) then
      CreateResponse(now, status := "error", message := InvalidRangeMessage, httpStatus := 400)
    else
      var city := CityFor(cities, lat.value, lon.value);
      if city.None? || city.value == "" then
        CreateResponse(now, status := "error", message := NotAvailableMessage, httpStatus := 404)
      else match current(city.value)
        case Loaded(d) => CreateResponse(now, data := d, message := CurrentSuccessMessage)
        case Raised(m) => CreateResponse(now, status := "error", message := "Server error: " + m, httpStatus := 500)
  }

  /** `/weather/forecast`. */
  function WeatherForecast(now: string, lat: Option<string>, lon: Option<string>, parse: string -> Option<real>,
                           cities: map<string, string>, forecast: string -> ProviderResult): Response {
    if !Present(lat) || !Present(lon) then
      CreateResponse(now, status := "error", message := MissingParametersMessage, httpStatus := 400)
    else if !ValidateCoordinates(lat, lon, parse) then
      CreateResponse(now, status := "error", message := InvalidRangeMessage, httpStatus := 400)
    else
      var city := CityFor(cities, lat.value, lon.value);
      if city.None? || city.value == "" then
        CreateResponse(now, status := "error", message := NotAvailableMessage, httpStatus := 404)
      else match forecast(city.value)
        case Loaded(d) => CreateResponse(now, data := d, message := ForecastSuccessMessage)
        case Raised(m) => CreateResponse(now, status := "error", message := "Server error: " + m, httpStatus := 500)
  }

  /** Validation holds exactly when both values are present and parse, with
      the bounds included. */
  lemma ValidateCoordinatesExactly(lat: Option<string>, lon: Option<string>, parse: string -> Option<real>)
    ensures ValidateCoordinates(lat, lon, parse) <==>
      lat.Some? && lon.Some? && parse(lat.value).Some? && parse(lon.value).Some?
      && -90.0 <= parse(lat.value).value <= 90.0 && -180.0 <= parse(lon.value).value <= 180.0
  {
  }

  /** The corners of the range are accepted and anything beyond is not. */
  lemma BoundsAreInclusive(parse: string -> Option<real>, a: string, b: string, c: string)
    requires parse(a) == Some(90.0) && parse(b) == Some(-180.0)
    requires parse(c).Some? && parse(c).value > 90.0
    ensures ValidateCoordinates(Some(a), Some(b), parse)
    ensures !ValidateCoordinates(Some(c), Some(b), parse)
  {
  }

  /** The defaults of `create_response`. */
  lemma CreateResponseDefaults(now: string)
    ensures CreateResponse(now) == Response(Envelope(JNull, "success", now, ""), 200)
    ensures Status(now).httpStatus == 200 && Status(now).envelope.status == "success"
    ensures Status(now).envelope.message == "Server is operational"
  {
  }

  /** The current-weather ladder, step by step: a missing or empty
      parameter is reported before any range check, then the range, then
      the city, then the provider. */
  lemma CurrentLadder(now: string, lat: Option<string>, lon: Option<string>, parse: string -> Option<real>,
                      cities: map<string, string>, current: string -> ProviderResult)
    ensures var r := WeatherCurrent(now, lat, lon, parse, cities, current);
      && (!Present(lat) || !Present(lon) ==> r.httpStatus == 400 && r.envelope.message == MissingParametersMessage)
      && (Present(lat) && Present(lon) && !ValidateCoordinates(lat, lon, parse) ==>
            r.httpStatus == 400 && r.envelope.message == InvalidRangeMessage)
      && (Present(lat) && Present(lon) && ValidateCoordinates(lat, lon, parse) ==>
            var city := CityFor(cities, lat.value, lon.value);
            && (city.None? || city.value == "" ==> r.httpStatus == 404 && r.envelope.message == NotAvailableMessage)
            && (city.Some? && city.value != "" ==>
                  match current(city.value)
                  case Loaded(d) => r == Response(Envelope(d, "success", now, CurrentSuccessMessage), 200)
                  case Raised(m) => r.httpStatus == 500 && r.envelope.message == "Server error: " + m))
  {
  }

  /** Every route answer is "success" exactly when it is a 200, and every
      error carries no data. */
  lemma ErrorsCarryNoData(now: string, lat: Option<string>, lon: Option<string>, parse: string -> Option<real>,
                          cities: map<string, string>, current: string -> ProviderResult, forecast: string -> ProviderResult)
    ensures var r := WeatherCurrent(now, lat, lon, parse, cities, current);
      && r.httpStatus in {200, 400, 404, 500}
      && (r.httpStatus == 200 <==> r.envelope.status == "success")
      && (r.httpStatus != 200 ==> r.envelope.status == "error" && r.envelope.data == JNull)
    ensures var r := WeatherForecast(now, lat, lon, parse, cities, forecast);
      && r.httpStatus in {200, 400, 404, 500}
      && (r.httpStatus == 200 <==> r.envelope.status == "success")
      && (r.httpStatus != 200 ==> r.envelope.status == "error" && r.envelope.data == JNull)
  {
  }

  /** The forecast route applies the same ladder: given the same data
      lookup, both routes answer with the same status code and the same
      envelope, except for the success message. */
  lemma SameLadder(now: string, lat: Option<string>, lon: Option<string>, parse: string -> Option<real>,
                   cities: map<string, string>, provide: string -> ProviderResult)
    ensures var c := WeatherCurrent(now, lat, lon, parse, cities, provide);
      var f := WeatherForecast(now, lat, lon, parse, cities, provide);
      && c.httpStatus == f.httpStatus
      && (c.httpStatus != 200 ==> c == f)
      && (c.httpStatus == 200 ==>
            f == c.(envelope := c.envelope.(message := ForecastSuccessMessage))
            && c.envelope.message == CurrentSuccessMessage)
  {
  }
}

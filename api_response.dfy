/** The wire-level records the client deserializes: the response envelope
    and the two weather payloads (plain records with no behaviour). */
module ApiModel {
  import opened Wrappers

  /** A current-weather payload. Temperatures and speeds are doubles in the
      client and are kept as reals. */
  datatype CurrentWeather = CurrentWeather(
    city: Option<string>,
    temperature: real,
    condition: Option<string>,
    humidity: int,
    windSpeed: real,
    windDirection: Option<string>,
    timestamp: Option<string>)

  datatype ForecastItem = ForecastItem(
    datetime: Option<string>,
    temperatureMin: int,
    temperatureMax: int,
    condition: Option<string>)

  /** A forecast payload: the city and the entries in delivery order. */
  datatype ForecastData = ForecastData(city: Option<string>, forecast: Option<seq<ForecastItem>>)

  /** The response envelope `ApiResponse<T>`; every field may be absent from
      the JSON and is then null. The getters return the fields unchanged. */
  datatype ApiResponse<T> = ApiResponse(
    data: Option<T>,
    status: Option<string>,
    timestamp: Option<string>,
    message: Option<string>)
  {
    /** `"success".equals(status)`: exact, case- and whitespace-sensitive,
        and false for a null status. */
    predicate IsSuccess() {
      status == Some("success")
    }
  }

  /** Only the exact status "success" is success: a null status, a
      different case or surrounding whitespace are not, and the other fields
      play no part. */
  lemma IsSuccessExactly<T>(r: ApiResponse<T>, d: Option<T>, m: Option<string>)
    ensures r.IsSuccess() <==> r.status.Some? && r.status.value == "success"
    ensures r.status.None? ==> !r.IsSuccess()
    ensures !r.(status := Some("Success")).IsSuccess()
    ensures !r.(status := Some(" success")).IsSuccess()
    ensures !r.(status := Some("success ")).IsSuccess()
    ensures r.(data := d, message := m).IsSuccess() == r.IsSuccess()
  {
  }
}

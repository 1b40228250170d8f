/** The client's weather repository: two coordinate-keyed caches (current
    weather, forecast) in front of the remote API, with a "latest value"
    variant that publishes into observable channels and a one-shot callback
    variant. The remote call is asynchronous in the client; here each fetch
    is one synchronous step whose HTTP outcome is a parameter, as is the
    connectivity probe. */
module Repository {
  import opened Wrappers
  import opened Text
  import opened ErrorTypes
  import opened ErrorStates
  import opened ErrorHandling
  import opened ApiModel

  /** The cache key, an abstraction of the client's string key (the two
      doubles' decimal renderings joined by a comma): two requests share an
      entry here exactly when their coordinates are equal as numbers, so
      keys that differ only in rendering (0.0 and -0.0) are merged. */
  datatype Coordinates = Coordinates(latitude: real, longitude: real)

  const CurrentEndpoint: string := "current_weather"
  const ForecastEndpoint: string := "forecast"
  const OfflineMessage: string := "Please check your internet connection"

  /** What the remote call produced: a transport failure (`onFailure`), or an
      HTTP response with its status code, reason phrase and deserialized
      body (null when there is none). */
  datatype HttpOutcome<T> =
    | Transport(failure: Throwable)
    | Http(code: int, reason: string, body: Option<ApiResponse<T>>)

  /** `Response.isSuccessful()`: a 2xx status. */
  predicate IsSuccessful(code: int) {
    200 <= code < 300
  }

  /** How the remote call resolved: the delivered payload (which a successful
      envelope may carry as null), or an error. */
  datatype Resolution<T> = Delivered(data: Option<T>) | Rejected(error: ErrorState)

  /** The path a fetch took: served from the cache, stopped by the
      connectivity check, or resolved by the remote call. */
  datatype FetchStep<T> = CacheHit(value: T) | Offline(error: ErrorState) | Remote(resolution: Resolution<T>)

  function HttpErrorType(code: int): ErrorType {
    if code >= 500 then ServerError else InvalidData
  }

  function HttpErrorMessage(code: int, reason: string, endpoint: string): string {
    "HTTP Error " + IntToString(code) + " (" + endpoint + "): " + reason
  }

  function ApiErrorMessage(message: Option<string>, endpoint: string): string {
    "API Error (" + endpoint + "): " + JavaString(message)
  }

  /** `onResponse` / `onFailure`, with the error helpers
      (`handleApiError`, `handleHttpError`, `handleNetworkError` and their
      callback twins). */
  function Resolve<T>(outcome: HttpOutcome<T>, endpoint: string): Resolution<T> {
    match outcome
    case Transport(th) =>
      var t := FromThrowable(th);
      Rejected(NewErrorState(t, Some(DetailedErrorMessage(t, Some(th))), Some(th), false))
    case Http(code, reason, body) =>
      if IsSuccessful(code) && body.Some? then
        if body.value.IsSuccess() then Delivered(body.value.data)
        else Rejected(NewErrorState(ServerError, Some(ApiErrorMessage(body.value.message, endpoint)), None, false))
      else
        Rejected(NewErrorState(HttpErrorType(code), Some(HttpErrorMessage(code, reason, endpoint)), None, code >= 500))
  }

  /** One fetch: the cache first, then the connectivity check, then the
      remote call. `offlineCritical` is true for current weather and false
      for the forecast. */
  function Fetch<T>(cached: Option<T>, online: bool, outcome: HttpOutcome<T>, endpoint: string, offlineCritical: bool): FetchStep<T> {
    if cached.Some? then CacheHit(cached.value)
    else if !online then Offline(NewErrorState(NetworkUnavailable, Some(OfflineMessage), None, offlineCritical))
    else Remote(Resolve(outcome, endpoint))
  }

  /** `cache.get(key)`: a missing key and a stored null both read as null. */
  function Lookup<T>(cache: map<Coordinates, Option<T>>, key: Coordinates): Option<T> {
    if key in cache then cache[key] else None
  }

  /** The error a step reports, if any. */
  function ErrorOf<T>(step: FetchStep<T>): Option<ErrorState> {
    match step
    case CacheHit(_) => None
    case Offline(e) => Some(e)
    case Remote(Delivered(_)) => None
    case Remote(Rejected(e)) => Some(e)
  }

  /** The errors a step hands to the error handler (which logs each). */
  function Logged<T>(step: FetchStep<T>): seq<ErrorState> {
    if ErrorOf(step).Some? then [ErrorOf(step).value] else []
  }

  /** Whether the step writes the cache: a remote success only. */
  predicate Stores<T>(step: FetchStep<T>) {
    step.Remote? && step.resolution.Delivered?
  }

  function CacheAfter<T>(cache: map<Coordinates, Option<T>>, key: Coordinates, step: FetchStep<T>): map<Coordinates, Option<T>> {
    if Stores(step) then cache[key := step.resolution.data] else cache
  }

  /** The single call the callback variant makes on its callback. */
  datatype CallbackEvent<T> = OnSuccess(data: Option<T>) | OnError(error: ErrorState)

  function CallbackOf<T>(step: FetchStep<T>): CallbackEvent<T> {
    match step
    case CacheHit(v) => OnSuccess(Some(v))
    case Offline(e) => OnError(e)
    case Remote(Delivered(d)) => OnSuccess(d)
    case Remote(Rejected(e)) => OnError(e)
  }

  /** The older string-only callback and the adapter onto it. */
  datatype SimpleCallbackEvent<T> = OnSimpleSuccess(data: Option<T>) | OnSimpleError(message: string)

  function ToSimple<T>(ev: CallbackEvent<T>): SimpleCallbackEvent<T> {
    match ev
    case OnSuccess(d) => OnSimpleSuccess(d)
    case OnError(e) => OnSimpleError(e.message)
  }

  /** What the "latest value" variant sets on its channels, as its observers
      see it: a data value, or an error (with its message on the string
      channel). */
  datatype Publication<T> = DataPublished(data: Option<T>) | ErrorPublished(error: ErrorState)

  function PublicationOf<T>(step: FetchStep<T>): Publication<T> {
    match CallbackOf(step)
    case OnSuccess(d) => DataPublished(d)
    case OnError(e) => ErrorPublished(e)
  }

  /** The data channel after a step: set on a cache hit and on a remote
      success, left alone on every error path. */
  function DataAfter<T>(previous: Option<T>, step: FetchStep<T>): Option<T> {
    match step
    case CacheHit(v) => Some(v)
    case Remote(Delivered(d)) => d
    case _ => previous
  }

  /** The shared error channel after a step: a remote success clears it, an
      error sets it, a cache hit leaves it alone. */
  function ErrorChannelAfter<T>(previous: Option<ErrorState>, step: FetchStep<T>): Option<ErrorState> {
    match step
    case CacheHit(_) => previous
    case Remote(Delivered(_)) => None
    case _ => ErrorOf(step)
  }

  function MessageChannelAfter<T>(previous: Option<string>, step: FetchStep<T>): Option<string> {
    match ErrorChannelAfter(None, step)
    case Some(e) => Some(e.message)
    case None => if step.CacheHit? then previous else None
  }

  /** A call issued to the remote API. */
  datatype RemoteCall = CurrentRequest(key: Coordinates) | ForecastRequest(key: Coordinates)

  /** The four observable channels of the "latest value" variant. */
  datatype Channels = Channels(
    currentWeather: Option<CurrentWeather>,
    forecast: Option<ForecastData>,
    errorState: Option<ErrorState>,
    simpleErrorMessage: Option<string>)

  /** Everything the repository holds: both caches, the four channels, the
      issued calls and its handler's log. */
  datatype RepositoryState = RepositoryState(
    currentCache: map<Coordinates, Option<CurrentWeather>>,
    forecastCache: map<Coordinates, Option<ForecastData>>,
    channels: Channels,
    remoteCalls: seq<RemoteCall>,
    logged: seq<ErrorState>)

  /** The repository after `getCurrentWeather(key)` in the "latest value"
      variant. */
  function AfterCurrent(r: RepositoryState, key: Coordinates, online: bool, outcome: HttpOutcome<CurrentWeather>): RepositoryState {
    var step := Fetch(Lookup(r.currentCache, key), online, outcome, CurrentEndpoint, true);
    r.(currentCache := CacheAfter(r.currentCache, key, step),
       channels := r.channels.(currentWeather := DataAfter(r.channels.currentWeather, step),
                               errorState := ErrorChannelAfter(r.channels.errorState, step),
                               simpleErrorMessage := MessageChannelAfter(r.channels.simpleErrorMessage, step)),
       remoteCalls := r.remoteCalls + (if step.Remote? then [CurrentRequest(key)] else []),
       logged := r.logged + Logged(step))
  }

  /** The repository after `getForecast(key)` in the "latest value" variant. */
  function AfterForecast(r: RepositoryState, key: Coordinates, online: bool, outcome: HttpOutcome<ForecastData>): RepositoryState {
    var step := Fetch(Lookup(r.forecastCache, key), online, outcome, ForecastEndpoint, false);
    r.(forecastCache := CacheAfter(r.forecastCache, key, step),
       channels := r.channels.(forecast := DataAfter(r.channels.forecast, step),
                               errorState := ErrorChannelAfter(r.channels.errorState, step),
                               simpleErrorMessage := MessageChannelAfter(r.channels.simpleErrorMessage, step)),
       remoteCalls := r.remoteCalls + (if step.Remote? then [ForecastRequest(key)] else []),
       logged := r.logged + Logged(step))
  }

  class WeatherRepository {
    const handler: ErrorHandler
    var currentCache: map<Coordinates, Option<CurrentWeather>>
    var forecastCache: map<Coordinates, Option<ForecastData>>
    var currentWeatherData: Option<CurrentWeather>
    var forecastData: Option<ForecastData>
    var errorState: Option<ErrorState>
    var simpleErrorMessage: Option<string>
    /** Every remote API call issued, in order. */
    var remoteCalls: seq<RemoteCall>

    ghost predicate Valid()
      reads this, handler
    {
      handler.Valid()
    }

    ghost function LiveChannels(): Channels
      reads this
    {
      Channels(currentWeatherData, forecastData, errorState, simpleErrorMessage)
    }

    ghost function Snapshot(): RepositoryState
      reads this, handler
    {
      RepositoryState(currentCache, forecastCache, LiveChannels(), remoteCalls, handler.logged)
    }

    constructor ()
      ensures Valid() && fresh(handler)
      ensures handler.logged == []
      ensures currentCache == map[] && forecastCache == map[] && remoteCalls == []
      ensures LiveChannels() == Channels(None, None, None, None)
    {
      handler := new ErrorHandler();
      currentCache, forecastCache := map[], map[];
      currentWeatherData, forecastData := None, None;
      errorState, simpleErrorMessage := None, None;
      remoteCalls := [];
    }

    /** The remote call and its resolution, shared by all four fetches; the
        caller has already recorded the request. */
    method ResolveRemote<T>(outcome: HttpOutcome<T>, endpoint: string) returns (r: Resolution<T>)
      requires Valid()
      modifies handler
      ensures Valid()
      ensures r == Resolve(outcome, endpoint)
      ensures handler.logged == old(handler.logged) + (if r.Rejected? then [r.error] else [])
    {
      match outcome
      case Transport(th) =>
        var e := handler.HandleThrowable(th, false);
        r := Rejected(e);
      case Http(code, reason, body) =>
        if IsSuccessful(code) && body.Some? {
          var apiResp := body.value;
          if apiResp.IsSuccess() {
            r := Delivered(apiResp.data);
          } else {
            var e := handler.HandleTypeWithMessage(ServerError, Some(ApiErrorMessage(apiResp.message, endpoint)), false);
            r := Rejected(e);
          }
        } else {
          var e := handler.HandleTypeWithMessage(HttpErrorType(code), Some(HttpErrorMessage(code, reason, endpoint)), code >= 500);
          r := Rejected(e);
        }
    }

    /** The fetch path shared by the variants for current weather: the cache
        lookup, the connectivity check, the recorded request, the remote
        resolution and the cache write. It touches no channel. */
    method FetchCurrent(key: Coordinates, online: bool, outcome: HttpOutcome<CurrentWeather>)
      returns (step: FetchStep<CurrentWeather>)
      requires Valid()
      modifies this, handler
      ensures Valid()
      ensures step == Fetch(Lookup(old(currentCache), key), online, outcome, CurrentEndpoint, true)
      ensures currentCache == CacheAfter(old(currentCache), key, step)
      ensures remoteCalls == old(remoteCalls) + (if step.Remote? then [CurrentRequest(key)] else [])
      ensures handler.logged == old(handler.logged) + Logged(step)
      ensures forecastCache == old(forecastCache) && LiveChannels() == old(LiveChannels())
    {
      var cached := Lookup(currentCache, key);
      if cached.Some? {
        step := CacheHit(cached.value);
      } else if !online {
        var e := handler.HandleTypeWithMessage(NetworkUnavailable, Some(OfflineMessage), true);
        step := Offline(e);
      } else {
        var r := RemoteCurrent(key, outcome);
        step := Remote(r);
      }
    }

    /** The remote half of `FetchCurrent`: the recorded request, the
        resolution and, on success, the cache write. */
    method RemoteCurrent(key: Coordinates, outcome: HttpOutcome<CurrentWeather>) returns (r: Resolution<CurrentWeather>)
      requires Valid()
      modifies this, handler
      ensures Valid()
      ensures r == Resolve(outcome, CurrentEndpoint)
      ensures currentCache == CacheAfter(old(currentCache), key, Remote(r))
      ensures remoteCalls == old(remoteCalls) + [CurrentRequest(key)]
      ensures handler.logged == old(handler.logged) + Logged(Remote(r))
      ensures forecastCache == old(forecastCache) && LiveChannels() == old(LiveChannels())
    {
      remoteCalls := remoteCalls + [CurrentRequest(key)];
      r := ResolveRemote(outcome, CurrentEndpoint);
      if r.Delivered? {
        currentCache := currentCache[key := r.data];
      }
    }

    /** The same path for the forecast, whose offline error is not critical. */
    method FetchForecast(key: Coordinates, online: bool, outcome: HttpOutcome<ForecastData>)
      returns (step: FetchStep<ForecastData>)
      requires Valid()
      modifies this, handler
      ensures Valid()
      ensures step == Fetch(Lookup(old(forecastCache), key), online, outcome, ForecastEndpoint, false)
      ensures forecastCache == CacheAfter(old(forecastCache), key, step)
      ensures remoteCalls == old(remoteCalls) + (if step.Remote? then [ForecastRequest(key)] else [])
      ensures handler.logged == old(handler.logged) + Logged(step)
      ensures currentCache == old(currentCache) && LiveChannels() == old(LiveChannels())
    {
      var cached := Lookup(forecastCache, key);
      if cached.Some? {
        step := CacheHit(cached.value);
      } else if !online {
        var e := handler.HandleTypeWithMessage(NetworkUnavailable, Some(OfflineMessage), false);
        step := Offline(e);
      } else {
        var r := RemoteForecast(key, outcome);
        step := Remote(r);
      }
    }

    /** The remote half of `FetchForecast`: the recorded request, the
        resolution and, on success, the cache write. */
    method RemoteForecast(key: Coordinates, outcome: HttpOutcome<ForecastData>) returns (r: Resolution<ForecastData>)
      requires Valid()
      modifies this, handler
      ensures Valid()
      ensures r == Resolve(outcome, ForecastEndpoint)
      ensures forecastCache == CacheAfter(old(forecastCache), key, Remote(r))
      ensures remoteCalls == old(remoteCalls) + [ForecastRequest(key)]
      ensures handler.logged == old(handler.logged) + Logged(Remote(r))
      ensures currentCache == old(currentCache) && LiveChannels() == old(LiveChannels())
    {
      remoteCalls := remoteCalls + [ForecastRequest(key)];
      r := ResolveRemote(outcome, ForecastEndpoint);
      if r.Delivered? {
        forecastCache := forecastCache[key := r.data];
      }
    }

    /** `getCurrentWeather(lat, lon, WeatherCallback)`. */
    method GetCurrentWeatherWithCallback(lat: real, lon: real, online: bool, outcome: HttpOutcome<CurrentWeather>)
      returns (events: seq<CallbackEvent<CurrentWeather>>)
      requires Valid()
      modifies this, handler
      ensures Valid()
      ensures var key := Coordinates(lat, lon);
        var step := Fetch(Lookup(old(currentCache), key), online, outcome, CurrentEndpoint, true);
        && events == [CallbackOf(step)]
        && currentCache == CacheAfter(old(currentCache), key, step)
        && remoteCalls == old(remoteCalls) + (if step.Remote? then [CurrentRequest(key)] else [])
        && handler.logged == old(handler.logged) + Logged(step)
      ensures forecastCache == old(forecastCache) && LiveChannels() == old(LiveChannels())
    {
      var step := FetchCurrent(Coordinates(lat, lon), online, outcome);
      match step
      case CacheHit(v) => events := [OnSuccess(Some(v))];
      case Offline(e) => events := [OnError(e)];
      case Remote(Delivered(d)) => events := [OnSuccess(d)];
      case Remote(Rejected(e)) => events := [OnError(e)];
    }

    /** `getForecast(lat, lon, WeatherCallback)`. */
    method GetForecastWithCallback(lat: real, lon: real, online: bool, outcome: HttpOutcome<ForecastData>)
      returns (events: seq<CallbackEvent<ForecastData>>)
      requires Valid()
      modifies this, handler
      ensures Valid()
      ensures var key := Coordinates(lat, lon);
        var step := Fetch(Lookup(old(forecastCache), key), online, outcome, ForecastEndpoint, false);
        && events == [CallbackOf(step)]
        && forecastCache == CacheAfter(old(forecastCache), key, step)
        && remoteCalls == old(remoteCalls) + (if step.Remote? then [ForecastRequest(key)] else [])
        && handler.logged == old(handler.logged) + Logged(step)
      ensures currentCache == old(currentCache) && LiveChannels() == old(LiveChannels())
    {
      var step := FetchForecast(Coordinates(lat, lon), online, outcome);
      match step
      case CacheHit(v) => events := [OnSuccess(Some(v))];
      case Offline(e) => events := [OnError(e)];
      case Remote(Delivered(d)) => events := [OnSuccess(d)];
      case Remote(Rejected(e)) => events := [OnError(e)];
    }

    /** `getCurrentWeather(lat, lon, SimpleWeatherCallback)`: the callback
        variant with the error reduced to its message. */
    method GetCurrentWeatherWithSimpleCallback(lat: real, lon: real, online: bool, outcome: HttpOutcome<CurrentWeather>)
      returns (events: seq<SimpleCallbackEvent<CurrentWeather>>)
      requires Valid()
      modifies this, handler
      ensures Valid()
      ensures var key := Coordinates(lat, lon);
        var step := Fetch(Lookup(old(currentCache), key), online, outcome, CurrentEndpoint, true);
        && events == [ToSimple(CallbackOf(step))]
        && currentCache == CacheAfter(old(currentCache), key, step)
        && remoteCalls == old(remoteCalls) + (if step.Remote? then [CurrentRequest(key)] else [])
        && handler.logged == old(handler.logged) + Logged(step)
      ensures forecastCache == old(forecastCache) && LiveChannels() == old(LiveChannels())
    {
      var inner := GetCurrentWeatherWithCallback(lat, lon, online, outcome);
      events := [ToSimple(inner[0])];
    }

    /** `getForecast(lat, lon, SimpleWeatherCallback)`. */
    method GetForecastWithSimpleCallback(lat: real, lon: real, online: bool, outcome: HttpOutcome<ForecastData>)
      returns (events: seq<SimpleCallbackEvent<ForecastData>>)
      requires Valid()
      modifies this, handler
      ensures Valid()
      ensures var key := Coordinates(lat, lon);
        var step := Fetch(Lookup(old(forecastCache), key), online, outcome, ForecastEndpoint, false);
        && events == [ToSimple(CallbackOf(step))]
        && forecastCache == CacheAfter(old(forecastCache), key, step)
        && remoteCalls == old(remoteCalls) + (if step.Remote? then [ForecastRequest(key)] else [])
        && handler.logged == old(handler.logged) + Logged(step)
      ensures currentCache == old(currentCache) && LiveChannels() == old(LiveChannels())
    {
      var inner := GetForecastWithCallback(lat, lon, online, outcome);
      events := [ToSimple(inner[0])];
    }

    /** `getCurrentWeather(lat, lon)`, the "latest value" variant: a cache hit
        or a remote success sets the data channel (a success also clears both
        error channels); an error sets both error channels. Returns what was
        published. */
    method GetCurrentWeather(lat: real, lon: real, online: bool, outcome: HttpOutcome<CurrentWeather>)
      returns (published: Publication<CurrentWeather>)
      requires Valid()
      modifies this, handler
      ensures Valid()
      ensures var key := Coordinates(lat, lon);
        var step := Fetch(Lookup(old(currentCache), key), online, outcome, CurrentEndpoint, true);
        && published == PublicationOf(step)
        && currentCache == CacheAfter(old(currentCache), key, step)
        && currentWeatherData == DataAfter(old(currentWeatherData), step)
        && errorState == ErrorChannelAfter(old(errorState), step)
        && simpleErrorMessage == MessageChannelAfter(old(simpleErrorMessage), step)
        && remoteCalls == old(remoteCalls) + (if step.Remote? then [CurrentRequest(key)] else [])
        && handler.logged == old(handler.logged) + Logged(step)
      ensures forecastCache == old(forecastCache) && forecastData == old(forecastData)
      ensures Snapshot() == AfterCurrent(old(Snapshot()), Coordinates(lat, lon), online, outcome)
    {
      var step := FetchCurrent(Coordinates(lat, lon), online, outcome);
      match step
      case CacheHit(v) =>
        currentWeatherData := Some(v);
        published := DataPublished(Some(v));
      case Remote(Delivered(d)) =>
        currentWeatherData := d;
        errorState, simpleErrorMessage := None, None;
        published := DataPublished(d);
      case Offline(e) =>
        errorState, simpleErrorMessage := Some(e), Some(e.message);
        published := ErrorPublished(e);
      case Remote(Rejected(e)) =>
        errorState, simpleErrorMessage := Some(e), Some(e.message);
        published := ErrorPublished(e);
    }

    /** `getForecast(lat, lon)`, the "latest value" variant. */
    method GetForecast(lat: real, lon: real, online: bool, outcome: HttpOutcome<ForecastData>)
      returns (published: Publication<ForecastData>)
      requires Valid()
      modifies this, handler
      ensures Valid()
      ensures var key := Coordinates(lat, lon);
        var step := Fetch(Lookup(old(forecastCache), key), online, outcome, ForecastEndpoint, false);
        && published == PublicationOf(step)
        && forecastCache == CacheAfter(old(forecastCache), key, step)
        && forecastData == DataAfter(old(forecastData), step)
        && errorState == ErrorChannelAfter(old(errorState), step)
        && simpleErrorMessage == MessageChannelAfter(old(simpleErrorMessage), step)
        && remoteCalls == old(remoteCalls) + (if step.Remote? then [ForecastRequest(key)] else [])
        && handler.logged == old(handler.logged) + Logged(step)
      ensures currentCache == old(currentCache) && currentWeatherData == old(currentWeatherData)
      ensures Snapshot() == AfterForecast(old(Snapshot()), Coordinates(lat, lon), online, outcome)
    {
      var step := FetchForecast(Coordinates(lat, lon), online, outcome);
      match step
      case CacheHit(v) =>
        forecastData := Some(v);
        published := DataPublished(Some(v));
      case Remote(Delivered(d)) =>
        forecastData := d;
        errorState, simpleErrorMessage := None, None;
        published := DataPublished(d);
      case Offline(e) =>
        errorState, simpleErrorMessage := Some(e), Some(e.message);
        published := ErrorPublished(e);
      case Remote(Rejected(e)) =>
        errorState, simpleErrorMessage := Some(e), Some(e.message);
        published := ErrorPublished(e);
    }

    /** `clearCache()`: both caches emptied. */
    method ClearCache()
      modifies this
      ensures currentCache == map[] && forecastCache == map[]
      ensures LiveChannels() == old(LiveChannels()) && remoteCalls == old(remoteCalls)
    {
      currentCache := map[];
      forecastCache := map[];
    }

    /** `clearCache(lat, lon)`: that key removed from both caches, every other
        entry kept. */
    method ClearCacheAt(lat: real, lon: real)
      modifies this
      ensures currentCache == old(currentCache) - {Coordinates(lat, lon)}
      ensures forecastCache == old(forecastCache) - {Coordinates(lat, lon)}
      ensures LiveChannels() == old(LiveChannels()) && remoteCalls == old(remoteCalls)
    {
      var key := Coordinates(lat, lon);
      currentCache := currentCache - {key};
      forecastCache := forecastCache - {key};
    }
  }

  /** A cached entry is served before connectivity is checked: offline or
      not, whatever the remote would have answered, no request is made, the
      cache is not written, the error channels are untouched and the value
      delivered is the cached one. */
  lemma CacheHitBypassesNetwork<T>(cache: map<Coordinates, Option<T>>, key: Coordinates, online: bool,
                                   outcome: HttpOutcome<T>, endpoint: string, critical: bool,
                                   data: Option<T>, err: Option<ErrorState>, msg: Option<string>)
    requires Lookup(cache, key).Some?
    ensures var step := Fetch(Lookup(cache, key), online, outcome, endpoint, critical);
      && !step.Remote? && Logged(step) == []
      && CacheAfter(cache, key, step) == cache
      && CallbackOf(step) == OnSuccess(Lookup(cache, key))
      && DataAfter(data, step) == Lookup(cache, key)
      && ErrorChannelAfter(err, step) == err && MessageChannelAfter(msg, step) == msg
  {
  }

  /** Offline with a cache miss: "no network", critical exactly when the
      caller says so (current weather yes, forecast no), the fixed message,
      no request, and the data channel untouched. */
  lemma OfflineMissIsNetworkUnavailable<T>(cache: map<Coordinates, Option<T>>, key: Coordinates,
                                           outcome: HttpOutcome<T>, endpoint: string, critical: bool, data: Option<T>)
    requires Lookup(cache, key).None?
    ensures var step := Fetch(Lookup(cache, key), false, outcome, endpoint, critical);
      && step == Offline(ErrorState(NetworkUnavailable, OfflineMessage, None, critical))
      && !step.Remote? && CacheAfter(cache, key, step) == cache
      && DataAfter(data, step) == data
  {
  }

  /** An HTTP failure (any non-2xx code, or a 2xx without a body) is a server
      error, critical, from 500 on, and invalid data, not critical, below;
      its message names the code, the endpoint and the reason phrase. */
  lemma HttpErrorClassification<T>(code: int, reason: string, body: Option<ApiResponse<T>>, endpoint: string)
    requires !IsSuccessful(code) || body.None?
    ensures var r := Resolve(Http(code, reason, body), endpoint);
      && r.Rejected? && r.error.throwable.None?
      && (code >= 500 ==> r.error.errorType == ServerError && r.error.isCritical)
      && (code < 500 ==> r.error.errorType == InvalidData && !r.error.isCritical)
      && r.error.message == "HTTP Error " + IntToString(code) + " (" + endpoint + "): " + reason
  {
  }

  /** A 2xx with an envelope that is not "success": a non-critical server
      error carrying the envelope's message (or "null"). A transport failure:
      the type of the throwable's class, not critical, throwable kept. */
  lemma EnvelopeAndTransportFailures<T>(code: int, reason: string, env: ApiResponse<T>, th: Throwable, endpoint: string)
    ensures IsSuccessful(code) && !env.IsSuccess() ==>
      Resolve(Http(code, reason, Some(env)), endpoint)
        == Rejected(ErrorState(ServerError, "API Error (" + endpoint + "): " + JavaString(env.message), None, false))
    ensures var r := Resolve<T>(Transport(th), endpoint);
      && r.Rejected? && r.error.errorType == FromThrowable(th) && !r.error.isCritical
      && r.error.throwable == Some(th)
  {
  }

  /** The cache is written exactly when the key missed, the device was
      online, the response was a 2xx with a body and the envelope said
      "success"; the value stored is the value delivered to the caller. */
  lemma CacheWrittenOnlyOnRemoteSuccess<T>(cache: map<Coordinates, Option<T>>, key: Coordinates, online: bool,
                                           outcome: HttpOutcome<T>, endpoint: string, critical: bool)
    ensures var step := Fetch(Lookup(cache, key), online, outcome, endpoint, critical);
      && (Stores(step) <==>
            Lookup(cache, key).None? && online && outcome.Http? && IsSuccessful(outcome.code)
            && outcome.body.Some? && outcome.body.value.IsSuccess())
      && (Stores(step) ==>
            var stored := CacheAfter(cache, key, step)[key];
            CallbackOf(step) == OnSuccess(stored) && stored == outcome.body.value.data)
      && (!Stores(step) ==> CacheAfter(cache, key, step) == cache)
  {
  }

  /** Every path ends in exactly one callback call, which is an error call
      exactly when the step reports an error; success and error are never
      both made. */
  lemma ExactlyOneCallback<T>(step: FetchStep<T>)
    ensures CallbackOf(step).OnError? <==> ErrorOf(step).Some?
    ensures CallbackOf(step).OnError? ==> CallbackOf(step).error == ErrorOf(step).value
    ensures ToSimple(CallbackOf(step)).OnSimpleError? <==> ErrorOf(step).Some?
  {
  }

  /** In the "latest value" variant an error never overwrites the data
      channel; a remote success clears both error channels; the two error
      channels always agree. */
  lemma ChannelDiscipline<T>(data: Option<T>, err: Option<ErrorState>, msg: Option<string>, step: FetchStep<T>)
    ensures ErrorOf(step).Some? ==> DataAfter(data, step) == data
    ensures Stores(step) ==> ErrorChannelAfter(err, step).None? && MessageChannelAfter(msg, step).None?
    ensures !step.CacheHit? ==>
      match ErrorChannelAfter(err, step)
      case Some(e) => MessageChannelAfter(msg, step) == Some(e.message)
      case None => MessageChannelAfter(msg, step).None?
  {
  }

  /** Once a remote success delivered a non-null payload for a key, the next
      fetch for the same key is served from the cache with that same
      payload, offline or not, without a request. */
  lemma SecondFetchServedFromCache<T>(cache: map<Coordinates, Option<T>>, key: Coordinates,
                                      online: bool, outcome: HttpOutcome<T>,
                                      online2: bool, outcome2: HttpOutcome<T>, endpoint: string, critical: bool)
    requires var step := Fetch(Lookup(cache, key), online, outcome, endpoint, critical);
      Stores(step) && step.resolution.data.Some?
    ensures var step := Fetch(Lookup(cache, key), online, outcome, endpoint, critical);
      var cache2 := CacheAfter(cache, key, step);
      Fetch(Lookup(cache2, key), online2, outcome2, endpoint, critical) == CacheHit(step.resolution.data.value)
  {
  }

  /** After the key is cleared (globally or for that key), an online fetch
      for it always reaches the remote API. */
  lemma ClearedKeyGoesRemote<T>(cache: map<Coordinates, Option<T>>, key: Coordinates, other: Coordinates,
                                outcome: HttpOutcome<T>, endpoint: string, critical: bool)
    ensures Fetch(Lookup(map[], key), true, outcome, endpoint, critical).Remote?
    ensures Fetch(Lookup(cache - {key}, key), true, outcome, endpoint, critical).Remote?
    ensures other != key ==> Lookup(cache - {key}, other) == Lookup(cache, other)
  {
  }
}

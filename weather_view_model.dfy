/** The weather screen's view model: it records the last requested
    coordinates, checks connectivity, asks the repository for data and turns
    what the repository publishes into its own channels (data, error state,
    error text, loading flag). In the client the view model listens to the
    repository through use-case objects; here it reacts directly to the
    publication each repository fetch returns. */
module WeatherViewModels {
  import opened Wrappers
  import opened Text
  import opened ErrorTypes
  import opened ErrorStates
  import opened ErrorHandling
  import opened ApiModel
  import opened Repository

  /** The coordinates used when nothing has been requested yet (Moscow). */
  const DefaultLatitude: real := 55.7558
  const DefaultLongitude: real := 37.6173

  /** The view model's observable state. */
  datatype VmState = VmState(
    currentWeather: Option<CurrentWeather>,
    forecastData: Option<ForecastData>,
    errorState: Option<ErrorState>,
    isLoading: bool,
    simpleError: Option<string>,
    lastLatitude: real,
    lastLongitude: real)

  /** `handleUseCaseError`'s classifier: the first keyword group the message
      contains, case-sensitively, in this order. */
  function ClassifyUseCaseError(msg: string): ErrorType {
    if Contains(msg, "network") || Contains(msg, "connection") then NetworkUnavailable
    else if Contains(msg, "server") || Contains(msg, "unavailable") then ServerUnavailable
    else if Contains(msg, "timeout") then NetworkTimeout
    else if Contains(msg, "location") || Contains(msg, "GPS") then LocationUnavailable
    else if Contains(msg, "invalid") || Contains(msg, "parse") then InvalidData
    else UnknownError
  }

  /** The error state `handleUseCaseError` builds: the classified type with
      its default message, except that an unrecognised message is kept as
      the message of an unknown error. */
  function UseCaseErrorState(msg: string, isCritical: bool): ErrorState {
    var t := ClassifyUseCaseError(msg);
    if t == UnknownError then NewErrorState(t, Some(msg), None, isCritical)
    else NewErrorState(t, None, None, isCritical)
  }

  /** The state after `handleUseCaseError(msg, false)`. */
  function AfterUseCaseError(s: VmState, msg: string): VmState {
    s.(errorState := Some(UseCaseErrorState(msg, false)), simpleError := Some(msg), isLoading := false)
  }

  /** The observers on the current-weather data and error channels: a
      non-null value is taken, both errors cleared and loading ended; a null
      value is ignored; an error goes through `handleUseCaseError`. */
  function ReactCurrent(s: VmState, p: Publication<CurrentWeather>): VmState {
    match p
    case DataPublished(None) => s
    case DataPublished(Some(w)) =>
      s.(currentWeather := Some(w), isLoading := false, errorState := None, simpleError := None)
    case ErrorPublished(e) => AfterUseCaseError(s, e.message)
  }

  /** The forecast observers: as for current weather, except that a
      forecast leaves the loading flag alone. */
  function ReactForecast(s: VmState, p: Publication<ForecastData>): VmState {
    match p
    case DataPublished(None) => s
    case DataPublished(Some(f)) =>
      s.(forecastData := Some(f), errorState := None, simpleError := None)
    case ErrorPublished(e) => AfterUseCaseError(s, e.message)
  }

  /** The error reported when the device is offline before a load. */
  function OfflineError(isCritical: bool): ErrorState {
    ErrorState(NetworkUnavailable, Message(NetworkUnavailable), None, isCritical)
  }

  /** `loadCurrentWeather(lat, lon)`, given what the repository publishes
      when it is asked (`answer`, used only when online). */
  function LoadCurrentSpec(s: VmState, lat: real, lon: real, online: bool, answer: Publication<CurrentWeather>): VmState {
    var s1 := s.(lastLatitude := lat, lastLongitude := lon);
    if !online then s1.(errorState := Some(OfflineError(true)), isLoading := false)
    else ReactCurrent(s1.(isLoading := true), answer)
  }

  /** `loadForecast(lat, lon)`. */
  function LoadForecastSpec(s: VmState, lat: real, lon: real, online: bool, answer: Publication<ForecastData>): VmState {
    var s1 := s.(lastLatitude := lat, lastLongitude := lon);
    if !online then s1.(errorState := Some(OfflineError(false)))
    else ReactForecast(s1, answer)
  }

  /** The errors the view model's own handler logs for one load. */
  function LoadLogged<T>(online: bool, offlineCritical: bool, answer: Publication<T>): seq<ErrorState> {
    if !online then [OfflineError(offlineCritical)]
    else if answer.ErrorPublished? then [UseCaseErrorState(answer.error.message, false)]
    else []
  }

  /** Where `retryLastRequest` reloads: the last coordinates when both are
      nonzero, the default location otherwise. */
  function RetryTarget(lastLatitude: real, lastLongitude: real): (r: (real, real))
    ensures r == (lastLatitude, lastLongitude) || r == (DefaultLatitude, DefaultLongitude)
    ensures r.0 != 0.0 && r.1 != 0.0
    ensures lastLatitude != 0.0 && lastLongitude != 0.0 <==> r == (lastLatitude, lastLongitude)
  {
    if lastLatitude != 0.0 && lastLongitude != 0.0 then (lastLatitude, lastLongitude)
    else (DefaultLatitude, DefaultLongitude)
  }

  /** What the repository publishes for an online fetch. */
  function Answer<T>(cache: map<Coordinates, Option<T>>, lat: real, lon: real, outcome: HttpOutcome<T>,
                     endpoint: string, critical: bool): Publication<T> {
    PublicationOf(Fetch(Lookup(cache, Coordinates(lat, lon)), true, outcome, endpoint, critical))
  }

  /** The repository after a current-weather load followed by a forecast
      load at `key`: both fetches when online, untouched when offline (the
      view model answers the offline case itself). */
  function BothLoaded(r: RepositoryState, key: Coordinates, online: bool,
                      currentOutcome: HttpOutcome<CurrentWeather>, forecastOutcome: HttpOutcome<ForecastData>): RepositoryState {
    if online then AfterForecast(AfterCurrent(r, key, true, currentOutcome), key, true, forecastOutcome)
    else r
  }

  class WeatherViewModel {
    const repo: WeatherRepository
    const handler: ErrorHandler
    var currentWeather: Option<CurrentWeather>
    var forecastData: Option<ForecastData>
    var errorState: Option<ErrorState>
    var isLoading: bool
    var simpleError: Option<string>
    var lastLatitude: real
    var lastLongitude: real

    ghost predicate Valid()
      reads this, repo, handler, repo.handler
    {
      handler != repo.handler && repo.Valid() && handler.Valid()
    }

    ghost function State(): VmState
      reads this
    {
      VmState(currentWeather, forecastData, errorState, isLoading, simpleError, lastLatitude, lastLongitude)
    }

    /** A fresh view model over the given repository, with its own handler:
        nothing loaded, not loading, last coordinates (0, 0). */
    constructor (repository: WeatherRepository)
      requires repository.Valid()
      ensures Valid() && repo == repository && fresh(handler) && handler.logged == []
      ensures State() == VmState(None, None, None, false, None, 0.0, 0.0)
    {
      repo := repository;
      handler := new ErrorHandler();
      currentWeather, forecastData, errorState := None, None, None;
      isLoading, simpleError := false, None;
      lastLatitude, lastLongitude := 0.0, 0.0;
    }

    /** `handleUseCaseError(msg, isCritical)`. */
    method HandleUseCaseError(msg: string, isCritical: bool)
      requires Valid()
      modifies this, handler
      ensures Valid()
      ensures State() == old(State()).(errorState := Some(UseCaseErrorState(msg, isCritical)),
                                       simpleError := Some(msg), isLoading := false)
      ensures handler.logged == old(handler.logged) + [UseCaseErrorState(msg, isCritical)]
    {
      var t: ErrorType;
      if Contains(msg, "network") || Contains(msg, "connection") {
        t := NetworkUnavailable;
      } else if Contains(msg, "server") || Contains(msg, "unavailable") {
        t := ServerUnavailable;
      } else if Contains(msg, "timeout") {
        t := NetworkTimeout;
      } else if Contains(msg, "location") || Contains(msg, "GPS") {
        t := LocationUnavailable;
      } else if Contains(msg, "invalid") || Contains(msg, "parse") {
        t := InvalidData;
      } else {
        t := UnknownError;
      }
      assert t == ClassifyUseCaseError(msg);
      var e: ErrorState;
      if t == UnknownError {
        e := handler.HandleTypeWithMessage(t, Some(msg), isCritical);
      } else {
        e := handler.HandleType(t, isCritical);
      }
      errorState := Some(e);
      simpleError := Some(msg);
      isLoading := false;
    }

    /** The current-weather observers reacting to one publication. */
    method OnCurrentPublished(p: Publication<CurrentWeather>)
      requires Valid()
      modifies this, handler
      ensures Valid()
      ensures State() == ReactCurrent(old(State()), p)
      ensures handler.logged == old(handler.logged) + (if p.ErrorPublished? then [UseCaseErrorState(p.error.message, false)] else [])
    {
      match p
      case DataPublished(weather) =>
        if weather.Some? {
          currentWeather := weather;
          isLoading := false;
          errorState := None;
          simpleError := None;
        }
      case ErrorPublished(e) =>
        HandleUseCaseError(e.message, false);
    }

    /** The forecast observers reacting to one publication. */
    method OnForecastPublished(p: Publication<ForecastData>)
      requires Valid()
      modifies this, handler
      ensures Valid()
      ensures State() == ReactForecast(old(State()), p)
      ensures handler.logged == old(handler.logged) + (if p.ErrorPublished? then [UseCaseErrorState(p.error.message, false)] else [])
    {
      match p
      case DataPublished(forecast) =>
        if forecast.Some? {
          forecastData := forecast;
          errorState := None;
          simpleError := None;
        }
      case ErrorPublished(e) =>
        HandleUseCaseError(e.message, false);
    }

    /** `loadCurrentWeather(lat, lon)`; `online` is the connectivity probe and
        `outcome` what the remote call would produce. */
    method LoadCurrentWeather(lat: real, lon: real, online: bool, outcome: HttpOutcome<CurrentWeather>)
      requires Valid()
      modifies this, handler, repo, repo.handler
      ensures Valid()
      ensures State() == LoadCurrentSpec(old(State()), lat, lon, online,
                                         Answer(old(repo.currentCache), lat, lon, outcome, CurrentEndpoint, true))
      ensures handler.logged == old(handler.logged)
        + LoadLogged(online, true, Answer(old(repo.currentCache), lat, lon, outcome, CurrentEndpoint, true))
      ensures repo.forecastCache == old(repo.forecastCache)
      ensures !online ==> repo.currentCache == old(repo.currentCache) && repo.remoteCalls == old(repo.remoteCalls)
      ensures repo.Snapshot() == if online then AfterCurrent(old(repo.Snapshot()), Coordinates(lat, lon), true, outcome)
                                 else old(repo.Snapshot())
    {
      lastLatitude := lat;
      lastLongitude := lon;
      if !online {
        var e := handler.HandleType(NetworkUnavailable, true);
        errorState := Some(e);
        isLoading := false;
        return;
      }
      isLoading := true;
      FetchCurrentOnline(lat, lon, outcome);
    }

    /** The online half of `loadCurrentWeather`: the repository call and the
        view model's reaction to what it publishes. */
    method FetchCurrentOnline(lat: real, lon: real, outcome: HttpOutcome<CurrentWeather>)
      requires Valid()
      modifies this, handler, repo, repo.handler
      ensures Valid()
      ensures State() == ReactCurrent(old(State()), Answer(old(repo.currentCache), lat, lon, outcome, CurrentEndpoint, true))
      ensures handler.logged == old(handler.logged)
        + LoadLogged(true, true, Answer(old(repo.currentCache), lat, lon, outcome, CurrentEndpoint, true))
      ensures repo.Snapshot() == AfterCurrent(old(repo.Snapshot()), Coordinates(lat, lon), true, outcome)
    {
      var p := repo.GetCurrentWeather(lat, lon, true, outcome);
      OnCurrentPublished(p);
    }

    /** `loadForecast(lat, lon)`. */
    method LoadForecast(lat: real, lon: real, online: bool, outcome: HttpOutcome<ForecastData>)
      requires Valid()
      modifies this, handler, repo, repo.handler
      ensures Valid()
      ensures State() == LoadForecastSpec(old(State()), lat, lon, online,
                                          Answer(old(repo.forecastCache), lat, lon, outcome, ForecastEndpoint, false))
      ensures handler.logged == old(handler.logged)
        + LoadLogged(online, false, Answer(old(repo.forecastCache), lat, lon, outcome, ForecastEndpoint, false))
      ensures repo.currentCache == old(repo.currentCache)
      ensures !online ==> repo.forecastCache == old(repo.forecastCache) && repo.remoteCalls == old(repo.remoteCalls)
      ensures repo.Snapshot() == if online then AfterForecast(old(repo.Snapshot()), Coordinates(lat, lon), true, outcome)
                                 else old(repo.Snapshot())
    {
      lastLatitude := lat;
      lastLongitude := lon;
      if !online {
        var e := handler.HandleType(NetworkUnavailable, false);
        errorState := Some(e);
        return;
      }
      FetchForecastOnline(lat, lon, outcome);
    }

    /** The online half of `loadForecast`. */
    method FetchForecastOnline(lat: real, lon: real, outcome: HttpOutcome<ForecastData>)
      requires Valid()
      modifies this, handler, repo, repo.handler
      ensures Valid()
      ensures State() == ReactForecast(old(State()), Answer(old(repo.forecastCache), lat, lon, outcome, ForecastEndpoint, false))
      ensures handler.logged == old(handler.logged)
        + LoadLogged(true, false, Answer(old(repo.forecastCache), lat, lon, outcome, ForecastEndpoint, false))
      ensures repo.Snapshot() == AfterForecast(old(repo.Snapshot()), Coordinates(lat, lon), true, outcome)
    {
      var p := repo.GetForecast(lat, lon, true, outcome);
      OnForecastPublished(p);
    }

    /** Current weather, then the forecast, at one location: the pair of
        calls both `retryLastRequest` and `loadWeatherForLastLocation` make. */
    method LoadBoth(lat: real, lon: real, online: bool,
                    currentOutcome: HttpOutcome<CurrentWeather>, forecastOutcome: HttpOutcome<ForecastData>)
      requires Valid()
      modifies this, handler, repo, repo.handler
      ensures Valid()
      ensures State() == LoadForecastSpec(
        LoadCurrentSpec(old(State()), lat, lon, online,
                        Answer(old(repo.currentCache), lat, lon, currentOutcome, CurrentEndpoint, true)),
        lat, lon, online,
        Answer(old(repo.forecastCache), lat, lon, forecastOutcome, ForecastEndpoint, false))
      ensures handler.logged == old(handler.logged)
        + LoadLogged(online, true, Answer(old(repo.currentCache), lat, lon, currentOutcome, CurrentEndpoint, true))
        + LoadLogged(online, false, Answer(old(repo.forecastCache), lat, lon, forecastOutcome, ForecastEndpoint, false))
      ensures repo.Snapshot() == BothLoaded(old(repo.Snapshot()), Coordinates(lat, lon), online, currentOutcome, forecastOutcome)
    {
      LoadCurrentWeather(lat, lon, online, currentOutcome);
      LoadForecast(lat, lon, online, forecastOutcome);
    }

    /** `retryLastRequest()`: current weather, then the forecast, at
        `RetryTarget` of the last coordinates. */
    method RetryLastRequest(online: bool, currentOutcome: HttpOutcome<CurrentWeather>, forecastOutcome: HttpOutcome<ForecastData>)
      requires Valid()
      modifies this, handler, repo, repo.handler
      ensures Valid()
      ensures var t := RetryTarget(old(lastLatitude), old(lastLongitude));
        State() == LoadForecastSpec(
          LoadCurrentSpec(old(State()), t.0, t.1, online,
                          Answer(old(repo.currentCache), t.0, t.1, currentOutcome, CurrentEndpoint, true)),
          t.0, t.1, online,
          Answer(old(repo.forecastCache), t.0, t.1, forecastOutcome, ForecastEndpoint, false))
      ensures var t := RetryTarget(old(lastLatitude), old(lastLongitude));
        handler.logged == old(handler.logged)
          + LoadLogged(online, true, Answer(old(repo.currentCache), t.0, t.1, currentOutcome, CurrentEndpoint, true))
          + LoadLogged(online, false, Answer(old(repo.forecastCache), t.0, t.1, forecastOutcome, ForecastEndpoint, false))
      ensures var t := RetryTarget(old(lastLatitude), old(lastLongitude));
        repo.Snapshot() == BothLoaded(old(repo.Snapshot()), Coordinates(t.0, t.1), online, currentOutcome, forecastOutcome)
    {
      if lastLatitude != 0.0 && lastLongitude != 0.0 {
        LoadBoth(lastLatitude, lastLongitude, online, currentOutcome, forecastOutcome);
      } else {
        LoadBoth(DefaultLatitude, DefaultLongitude, online, currentOutcome, forecastOutcome);
      }
    }

    /** `loadWeatherForLastLocation()`: both loads at the last coordinates,
        and nothing at all when either of them is 0. */
    method LoadWeatherForLastLocation(online: bool, currentOutcome: HttpOutcome<CurrentWeather>, forecastOutcome: HttpOutcome<ForecastData>)
      requires Valid()
      modifies this, handler, repo, repo.handler
      ensures Valid()
      ensures var lat, lon := old(lastLatitude), old(lastLongitude);
        if lat != 0.0 && lon != 0.0 then
          State() == LoadForecastSpec(
            LoadCurrentSpec(old(State()), lat, lon, online,
                            Answer(old(repo.currentCache), lat, lon, currentOutcome, CurrentEndpoint, true)),
            lat, lon, online,
            Answer(old(repo.forecastCache), lat, lon, forecastOutcome, ForecastEndpoint, false))
        else
          State() == old(State()) && handler.logged == old(handler.logged)
          && repo.remoteCalls == old(repo.remoteCalls) && repo.handler.logged == old(repo.handler.logged)
      ensures var lat, lon := old(lastLatitude), old(lastLongitude);
        if lat != 0.0 && lon != 0.0 then
          handler.logged == old(handler.logged)
            + LoadLogged(online, true, Answer(old(repo.currentCache), lat, lon, currentOutcome, CurrentEndpoint, true))
            + LoadLogged(online, false, Answer(old(repo.forecastCache), lat, lon, forecastOutcome, ForecastEndpoint, false))
          && repo.Snapshot() == BothLoaded(old(repo.Snapshot()), Coordinates(lat, lon), online, currentOutcome, forecastOutcome)
        else
          repo.Snapshot() == old(repo.Snapshot())
    {
      if lastLatitude != 0.0 && lastLongitude != 0.0 {
        LoadBoth(lastLatitude, lastLongitude, online, currentOutcome, forecastOutcome);
      }
    }

    /** `handleExternalError(e)`: the error channel set to `e` (possibly null)
        and loading ended; nothing else changes. */
    method HandleExternalError(e: Option<ErrorState>)
      modifies this
      ensures State() == old(State()).(errorState := e, isLoading := false)
    {
      errorState := e;
      isLoading := false;
    }

    /** `clearError()`: both error channels reset, data and loading kept. */
    method ClearError()
      modifies this
      ensures State() == old(State()).(errorState := None, simpleError := None)
    {
      errorState := None;
      simpleError := None;
    }
  }

  /** The classifier is a first-match chain over nine case-sensitive
      keywords: each outcome holds exactly when its group matches and no
      earlier group does, and an unknown error is exactly the message that
      contains none of them. */
  lemma ClassifierFirstMatch(msg: string)
    ensures var t := ClassifyUseCaseError(msg);
      var net := Contains(msg, "network") || Contains(msg, "connection");
      var srv := Contains(msg, "server") || Contains(msg, "unavailable");
      var tmo := Contains(msg, "timeout");
      var loc := Contains(msg, "location") || Contains(msg, "GPS");
      var inv := Contains(msg, "invalid") || Contains(msg, "parse");
      && (t == NetworkUnavailable <==> net)
      && (t == ServerUnavailable <==> !net && srv)
      && (t == NetworkTimeout <==> !net && !srv && tmo)
      && (t == LocationUnavailable <==> !net && !srv && !tmo && loc)
      && (t == InvalidData <==> !net && !srv && !tmo && !loc && inv)
      && (t == UnknownError <==> !net && !srv && !tmo && !loc && !inv)
  {
  }

  /** Order matters: "network timeout" is a network error, not a timeout. */
  lemma FirstGroupWins()
    ensures ClassifyUseCaseError("network timeout") == NetworkUnavailable
  {
    assert "network timeout" == "" + "network" + " timeout";
    ContainsMiddle("", "network", " timeout");
  }

  /** "timeout" alone is a timeout. */
  lemma TimeoutAlone()
    ensures ClassifyUseCaseError("timeout") == NetworkTimeout
  {
    ContainsAt("timeout", "timeout", 0);
    MissingCharNotContained("timeout", "network", 'n');
    MissingCharNotContained("timeout", "connection", 'c');
    MissingCharNotContained("timeout", "server", 's');
    MissingCharNotContained("timeout", "unavailable", 'n');
  }

  /** "Server" holds none of the first three keyword groups. */
  lemma ServerLacksNetworkKeywords()
    ensures !Contains("Server", "network") && !Contains("Server", "connection")
    ensures !Contains("Server", "server") && !Contains("Server", "unavailable")
    ensures !Contains("Server", "timeout")
  {
    MissingCharNotContained("Server", "network", 'n');
    MissingCharNotContained("Server", "connection", 'c');
    MissingCharNotContained("Server", "server", 's');
    MissingCharNotContained("Server", "unavailable", 'n');
    MissingCharNotContained("Server", "timeout", 't');
  }

  /** "Server" holds none of the last two keyword groups. */
  lemma ServerLacksDataKeywords()
    ensures !Contains("Server", "location") && !Contains("Server", "GPS")
    ensures !Contains("Server", "invalid") && !Contains("Server", "parse")
  {
    MissingCharNotContained("Server", "location", 'l');
    MissingCharNotContained("Server", "GPS", 'G');
    MissingCharNotContained("Server", "invalid", 'i');
    MissingCharNotContained("Server", "parse", 'p');
  }

  /** Case matters: "Server" with a capital S is not recognised, so it
      becomes an unknown error that keeps the text verbatim. */
  lemma CapitalisedServerIsUnknown()
    ensures ClassifyUseCaseError("Server") == UnknownError
    ensures UseCaseErrorState("Server", false) == ErrorState(UnknownError, "Server", None, false)
  {
    ServerLacksNetworkKeywords();
    ServerLacksDataKeywords();
  }

  /** The repository's offline text ("Please check your internet
      connection") reaches the view model as a network error with the
      default message, non-critical, and ends loading. */
  lemma RepositoryOfflineMessageIsNetworkError(s: VmState)
    ensures UseCaseErrorState(OfflineMessage, false) == ErrorState(NetworkUnavailable, Message(NetworkUnavailable), None, false)
    ensures var s2 := AfterUseCaseError(s, OfflineMessage); !s2.isLoading && s2.simpleError == Some(OfflineMessage)
  {
    assert OfflineMessage == "Please check your internet " + "connection" + "";
    ContainsMiddle("Please check your internet ", "connection", "");
  }

  /** Both loads record the coordinates whether or not the device is
      online; offline, the current-weather load reports a critical "no
      network" and ends loading, and the forecast load reports a non-critical
      one without touching the loading flag; neither touches data or the
      error text. */
  lemma LoadOfflineEffects(s: VmState, lat: real, lon: real, a: Publication<CurrentWeather>, b: Publication<ForecastData>)
    ensures var s2 := LoadCurrentSpec(s, lat, lon, false, a);
      s2 == s.(lastLatitude := lat, lastLongitude := lon, errorState := Some(OfflineError(true)), isLoading := false)
    ensures var s2 := LoadForecastSpec(s, lat, lon, false, b);
      s2 == s.(lastLatitude := lat, lastLongitude := lon, errorState := Some(OfflineError(false)))
    ensures OfflineError(true).isCritical && !OfflineError(false).isCritical
  {
  }

  /** Online: the coordinates are recorded; a non-null current value ends
      loading and clears both errors; an error from the repository is
      non-critical, sets both error channels together and ends loading; the
      data channel is never overwritten by an error. Only a null payload
      leaves loading on. */
  lemma LoadCurrentOnline(s: VmState, lat: real, lon: real, a: Publication<CurrentWeather>)
    ensures var s2 := LoadCurrentSpec(s, lat, lon, true, a);
      && s2.lastLatitude == lat && s2.lastLongitude == lon
      && (a.DataPublished? && a.data.Some? ==>
            s2.currentWeather == a.data && !s2.isLoading && s2.errorState.None? && s2.simpleError.None?)
      && (a.ErrorPublished? ==>
            s2.currentWeather == s.currentWeather && !s2.isLoading
            && s2.errorState == Some(UseCaseErrorState(a.error.message, false))
            && !s2.errorState.value.isCritical && s2.simpleError == Some(a.error.message))
      && (s2.isLoading <==> a == DataPublished(None))
  {
  }

  /** A forecast never changes the loading flag on success, and an error
      from the repository ends loading. */
  lemma LoadForecastOnline(s: VmState, lat: real, lon: real, b: Publication<ForecastData>)
    ensures var s2 := LoadForecastSpec(s, lat, lon, true, b);
      && s2.lastLatitude == lat && s2.lastLongitude == lon
      && (b.DataPublished? ==> s2.isLoading == s.isLoading && s2.currentWeather == s.currentWeather)
      && (b.DataPublished? && b.data.Some? ==> s2.forecastData == b.data && s2.errorState.None? && s2.simpleError.None?)
      && (b.ErrorPublished? ==> !s2.isLoading && s2.forecastData == s.forecastData
                                && s2.simpleError == Some(b.error.message))
  {
  }

  /** A retry with no usable last coordinates loads the default location,
      and afterwards the default location is the one remembered. */
  lemma RetryWithoutHistoryUsesDefault(s: VmState, online: bool, a: Publication<CurrentWeather>, b: Publication<ForecastData>)
    requires s.lastLatitude == 0.0 || s.lastLongitude == 0.0
    ensures var t := RetryTarget(s.lastLatitude, s.lastLongitude);
      && t == (DefaultLatitude, DefaultLongitude)
      && var s2 := LoadForecastSpec(LoadCurrentSpec(s, t.0, t.1, online, a), t.0, t.1, online, b);
         s2.lastLatitude == DefaultLatitude && s2.lastLongitude == DefaultLongitude
  {
  }
}
